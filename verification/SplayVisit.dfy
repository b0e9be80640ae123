/** In-order traversal of a splay tree with threads instead of a stack. */
module SplayVisit {
  import opened SplayNode

  /** Where the traversal stands: about to enter a subtree, or back at a node
    * whose left subtree is done. */
  datatype Here<V> = Down(t: Tree<V>) | Back(n: Node<V>, r: Tree<V>)

  /** What comes after that: nodes with their right subtrees, nearest first. */
  datatype Rest<V> = Bottom | Up(n: Node<V>, r: Tree<V>, below: Rest<V>)

  function HereSet<V>(here: Here<V>): set<Node<V>> {
    match here
    case Down(t) => NodeSet(t)
    case Back(n, r) => {n} + NodeSet(r)
  }

  function HereOrder<V>(here: Here<V>): seq<Node<V>> {
    match here
    case Down(t) => InOrder(t)
    case Back(n, r) => [n] + InOrder(r)
  }

  function RestSet<V>(rest: Rest<V>): set<Node<V>> {
    match rest
    case Bottom => {}
    case Up(n, r, below) => {n} + NodeSet(r) + RestSet(below)
  }

  function RestOrder<V>(rest: Rest<V>): seq<Node<V>> {
    match rest
    case Bottom => []
    case Up(n, r, below) => [n] + InOrder(r) + RestOrder(below)
  }

  ghost predicate DistinctHere<V>(here: Here<V>) {
    match here
    case Down(t) => t.Branch? && Distinct(t)
    case Back(n, r) => Distinct(r) && n !in NodeSet(r)
  }

  ghost predicate DistinctRest<V>(rest: Rest<V>) {
    match rest
    case Bottom => true
    case Up(n, r, below) =>
      && DistinctRest(below) && Distinct(r) && n !in NodeSet(r)
      && n !in RestSet(below) && NodeSet(r) !! RestSet(below)
  }

  function LastNode<V>(n: Node<V>, r: Tree<V>): (last: Node<V>)
    ensures last in {n} + NodeSet(r)
  {
    if r.Leaf? then n else Rightmost(r)
  }

  /** The node to go to when a subtree is done; at the end, whatever thread the
    * last node of the whole tree holds. */
  function Next<V>(rest: Rest<V>, end: Node?<V>): Node?<V> {
    if rest.Bottom? then end else rest.n
  }

  ghost predicate RestLinked<V>(rest: Rest<V>, end: Node?<V>)
    reads RestSet(rest)
  {
    match rest
    case Bottom => true
    case Up(n, r, below) =>
      RestLinked(below, end) && Shape(r, n.right) && LastNode(n, r).threadUp == Next(below, end)
  }

  ghost predicate HereLinked<V>(here: Here<V>, rest: Rest<V>, end: Node?<V>, cur: Node<V>, movedUp: bool)
    requires DistinctHere(here)
    reads HereSet(here)
  {
    match here
    case Down(t) => !movedUp && Shape(t, cur) && Rightmost(t).threadUp == Next(rest, end)
    case Back(n, r) => movedUp && cur == n && Shape(r, n.right) && LastNode(n, r).threadUp == Next(rest, end)
  }

  ghost predicate Walking<V>(here: Here<V>, rest: Rest<V>, end: Node?<V>, cur: Node<V>, movedUp: bool)
    reads HereSet(here), RestSet(rest)
  {
    && DistinctHere(here) && DistinctRest(rest) && HereSet(here) !! RestSet(rest)
    && HereLinked(here, rest, end, cur, movedUp) && RestLinked(rest, end)
  }

  lemma {:induction false} RestAllocated<V>(rest: Rest<V>)
    ensures forall n :: n in RestSet(rest) ==> allocated(n)
  {
    match rest
    case Bottom =>
    case Up(n, r, below) => NodesAllocated(r); RestAllocated(below);
  }

  /** Leads from the last node of a left subtree back up, clearing old threads
    * on the way. */
  method ThreadBack<V>(cur: Node<V>, ghost l: Tree<V>)
    requires l.Branch? && Distinct(l) && Shape(l, cur.left)
    modifies NodeSet(l)`threadUp
    ensures Rightmost(l).threadUp == cur
  {
    var rmc := cur.left;
    ghost var t := l;
    while rmc.right != null
      invariant t.Branch? && Shape(t, rmc) && NodeSet(t) <= NodeSet(l) && Rightmost(t) == Rightmost(l)
      decreases Size(t)
    {
      ShapeIs(t, rmc);
      rmc.threadUp := null;
      rmc := rmc.right;
      t := t.r;
    }
    ShapeIs(t, rmc);
    rmc.threadUp := cur;
  }

  // --- Steps ---

  /** The node the traversal is at, and the subtree it visits after it. */
  function Current<V>(here: Here<V>): Node<V>
    requires here.Down? ==> here.t.Branch?
  {
    if here.Down? then here.t.n else here.n
  }

  function RightOf<V>(here: Here<V>): Tree<V>
    requires here.Down? ==> here.t.Branch?
  {
    if here.Down? then here.t.r else here.r
  }

  ghost predicate Finishing<V>(here: Here<V>, rest: Rest<V>)
    requires here.Down? ==> here.t.Branch?
  {
    RightOf(here).Leaf? && rest.Bottom?
  }

  function HereAfter<V>(here: Here<V>, rest: Rest<V>): Here<V>
    requires here.Down? ==> here.t.Branch?
    requires !Finishing(here, rest)
  {
    if RightOf(here).Branch? then Down(RightOf(here)) else Back(rest.n, rest.r)
  }

  function RestAfter<V>(here: Here<V>, rest: Rest<V>): Rest<V>
    requires here.Down? ==> here.t.Branch?
    requires !Finishing(here, rest)
  {
    if RightOf(here).Branch? then rest else rest.below
  }

  lemma WalkingIs<V>(here: Here<V>, rest: Rest<V>, end: Node?<V>, cur: Node<V>, movedUp: bool)
    requires Walking(here, rest, end, cur, movedUp)
    ensures here.Down? ==> here.t.Branch?
    ensures movedUp <==> here.Back?
    ensures cur == Current(here) && cur in HereSet(here)
    ensures here.Down? ==> (here.t.l.Leaf? <==> cur.left == null) && Shape(here.t.l, cur.left)
    ensures RightOf(here).Leaf? <==> cur.right == null
    ensures RightOf(here).Leaf? ==> cur.threadUp == Next(rest, end)
  {
    if here.Down? {
      ShapeIs(here.t, cur);
    }
  }

  /** After a visit the traversal goes right or back up. */
  lemma Leaving<V>(here: Here<V>, rest: Rest<V>, end: Node?<V>, cur: Node<V>, movedUp: bool)
    requires Walking(here, rest, end, cur, movedUp) && (here.Down? ==> here.t.l.Leaf?)
    requires !Finishing(here, rest)
    ensures var h, r := HereAfter(here, rest), RestAfter(here, rest);
      && cur !in HereSet(h) && cur !in RestSet(r) && HereSet(h) + RestSet(r) <= HereSet(here) + RestSet(rest)
      && (RightOf(here).Branch? ==> cur.right != null && Walking(h, r, end, cur.right, false))
      && (RightOf(here).Leaf? ==> cur.threadUp != null && Walking(h, r, end, cur.threadUp, true))
  {
    WalkingIs(here, rest, end, cur, movedUp);
    if here.Down? {
      ShapeIs(here.t, cur);
    }
  }

  lemma LeavingOrder<V>(here: Here<V>, rest: Rest<V>)
    requires here.Down? ==> here.t.Branch? && here.t.l.Leaf?
    ensures Finishing(here, rest) ==> HereOrder(here) + RestOrder(rest) == [Current(here)]
    ensures !Finishing(here, rest) ==>
      HereOrder(here) + RestOrder(rest)
      == [Current(here)] + (HereOrder(HereAfter(here, rest)) + RestOrder(RestAfter(here, rest)))
  {
    CurrentFirst(here);
    if Finishing(here, rest) {
      assert [Current(here)] + [] + [] == [Current(here)];
    } else if RightOf(here).Branch? {
      assert HereOrder(here) + RestOrder(rest) == [Current(here)] + (InOrder(RightOf(here)) + RestOrder(rest));
    } else {
      assert [Current(here)] + [] == [Current(here)];
      assert RestOrder(rest) == [rest.n] + InOrder(rest.r) + RestOrder(rest.below);
    }
  }

  lemma CurrentFirst<V>(here: Here<V>)
    requires here.Down? ==> here.t.Branch? && here.t.l.Leaf?
    ensures HereOrder(here) == [Current(here)] + InOrder(RightOf(here))
  {
    if here.Down? {
      assert InOrder(here.t.l) == [];
      assert [] + [here.t.n] == [here.t.n];
    }
  }

  method Descend<V>(cur: Node<V>, ghost t: Tree<V>, ghost rest: Rest<V>, ghost end: Node?<V>)
    requires t.Branch? && t.l.Branch? && Walking(Down(t), rest, end, cur, false)
    modifies NodeSet(t.l)`threadUp
    ensures cur.left != null && Walking(Down(t.l), Up(t.n, t.r, rest), end, cur.left, false)
  {
    ShapeIs(t, cur);
    RestAllocated(rest);
    NodesAllocated(t);
    ThreadBack(cur, t.l);
  }

  lemma DescendOrder<V>(t: Tree<V>, rest: Rest<V>)
    requires t.Branch?
    ensures HereOrder(Down(t)) + RestOrder(rest) == HereOrder(Down(t.l)) + RestOrder(Up(t.n, t.r, rest))
  {
  }

  /** Where the traversal is after a round: nowhere, once the last node is
    * visited. */
  datatype Place<V> = Over | At(here: Here<V>, rest: Rest<V>)

  function Order<V>(p: Place<V>): seq<Node<V>> {
    if p.Over? then [] else HereOrder(p.here) + RestOrder(p.rest)
  }

  function Nodes<V>(p: Place<V>): set<Node<V>> {
    if p.Over? then {} else HereSet(p.here) + RestSet(p.rest)
  }

  function Depth<V>(p: Place<V>): nat {
    if p.At? && p.here.Down? then 1 + Size(p.here.t) else 0
  }

  ghost predicate Standing<V>(p: Place<V>, end: Node?<V>, cur: Node?<V>, movedUp: bool)
    reads Nodes(p)
  {
    if p.Over? then cur == end else cur != null && Walking(p.here, p.rest, end, cur, movedUp)
  }

  /** One round: either one step down to the left, or one visit. A visitor that
    * frees the node leaves rubbish in its links. */
  method Round<V>(cur: Node<V>, movedUp: bool, frees: bool, rubbish: Node?<V>, ghost p: Place<V>, ghost end: Node?<V>,
                  ghost all: set<Node<V>>)
    returns (next: Node?<V>, up: bool, visited: seq<Node<V>>, ghost q: Place<V>)
    requires p.At? && Standing(p, end, cur, movedUp) && Nodes(p) <= all
    modifies Nodes(p)
    ensures Standing(q, end, next, up)
    ensures Order(p) == visited + Order(q) && Nodes(q) <= Nodes(p)
    ensures visited == [] ==> Depth(q) < Depth(p)
    ensures visited == [] || visited == [cur]
    ensures visited == [cur] ==> cur !in Nodes(q)
    ensures !frees ==> forall n :: n in all ==> n.left == old(n.left) && n.right == old(n.right)
    ensures !frees && visited == [cur] && cur.right == null ==>
      cur.threadUp == (if Order(q) == [] then end else Order(q)[0])
  {
    hide Walking;
    WalkingIs(p.here, p.rest, end, cur, movedUp);
    if cur.left == null || movedUp {
      var old' := cur;
      if !Finishing(p.here, p.rest) {
        Leaving(p.here, p.rest, end, cur, movedUp);
      }
      if cur.right != null {
        next, up := cur.right, false;
      } else if cur.threadUp != null {
        next, up := cur.threadUp, true;
      } else {
        next, up := null, movedUp;
      }
      LeavingOrder(p.here, p.rest);
      q := if Finishing(p.here, p.rest) then Over else At(HereAfter(p.here, p.rest), RestAfter(p.here, p.rest));
      if frees {
        old'.left, old'.right, old'.threadUp := rubbish, rubbish, rubbish;
      }
      visited := [old'];
    } else {
      Descend(cur, p.here.t, p.rest, end);
      DescendOrder(p.here.t, p.rest);
      next, up, visited := cur.left, false, [];
      q := At(Down(p.here.t.l), Up(p.here.t.n, p.here.t.r, p.rest));
    }
  }

  function Successor<V>(s: seq<Node<V>>, i: nat, end: Node?<V>): Node?<V> {
    if i + 1 < |s| then s[i + 1] else end
  }

  /** Visited nodes without a right child point to their successors. */
  ghost predicate Threaded<V>(s: seq<Node<V>>, k: nat, end: Node?<V>)
    requires k <= |s|
    reads set n | n in s
  {
    forall i :: 0 <= i < k && s[i].right == null ==> s[i].threadUp == Successor(s, i, end)
  }

  /** The state between rounds: some nodes of the tree visited, the others
    * still to come. */
  ghost predicate Progress<V>(order: seq<Node<V>>, visited: seq<Node<V>>, p: Place<V>) {
    && visited + Order(p) == order
    && forall n :: n in visited ==> n !in Nodes(p)
  }

  lemma ProgressMade<V>(order: seq<Node<V>>, visited: seq<Node<V>>, p: Place<V>, v: seq<Node<V>>, q: Place<V>)
    requires Progress(order, visited, p) && Order(p) == v + Order(q) && Nodes(q) <= Nodes(p)
    requires forall n :: n in v ==> n !in Nodes(q)
    ensures Progress(order, visited + v, q)
    ensures |visited + v| <= |order|
    ensures |v| == 1 ==> order[|visited|] == v[0] && |visited| < |order|
    ensures |v| == 1 && Order(q) != [] ==> |visited| + 1 < |order| && order[|visited| + 1] == Order(q)[0]
    ensures |v| == 1 && Order(q) == [] ==> |visited| + 1 == |order|
    ensures forall i :: 0 <= i < |visited| ==> order[i] == visited[i] && order[i] !in Nodes(p)
  {
    var o := Order(q);
    hide Order, Nodes;
    assert visited + (v + o) == (visited + v) + o;
  }

  lemma Started<V>(t: Tree<V>, head: Node<V>, end: Node?<V>)
    requires t.Branch? && Distinct(t) && Shape(t, head) && Rightmost(t).threadUp == end
    ensures Standing(At(Down(t), Bottom), end, head, false)
    ensures Progress(InOrder(t), [], At(Down(t), Bottom)) && Nodes(At(Down(t), Bottom)) == NodeSet(t)
  {
    assert [] + (InOrder(t) + []) == InOrder(t);
  }

  /** A round on top of the visits made so far. */
  method NextRound<V>(cur: Node<V>, movedUp: bool, frees: bool, rubbish: Node?<V>, visited: seq<Node<V>>,
                      ghost p: Place<V>, ghost end: Node?<V>, ghost t: Tree<V>, ghost all: set<Node<V>>)
    returns (next: Node?<V>, up: bool, visited': seq<Node<V>>, ghost q: Place<V>)
    requires p.At? && Standing(p, end, cur, movedUp) && Nodes(p) <= all == NodeSet(t)
    requires Progress(InOrder(t), visited, p) && |visited| <= |InOrder(t)|
    requires !frees ==> Shape(t, t.n) && Threaded(InOrder(t), |visited|, end)
    requires t.Branch?
    modifies Nodes(p)
    ensures Standing(q, end, next, up) && Nodes(q) <= all
    ensures Progress(InOrder(t), visited', q) && |visited'| <= |InOrder(t)|
    ensures |Order(q)| < |Order(p)| || (|Order(q)| == |Order(p)| && Depth(q) < Depth(p))
    ensures !frees ==> Shape(t, t.n) && Threaded(InOrder(t), |visited'|, end)
  {
    hide Standing, Progress, Order, Nodes, Depth;
    var v;
    next, up, v, q := Round(cur, movedUp, frees, rubbish, p, end, all);
    ProgressMade(InOrder(t), visited, p, v, q);
    visited' := visited + v;
    OrderSet(t);
  }

  /** Visits every node once, in order, provided the last node's thread is
    * clear or about to be cleared. */
  method VisitEach<V>(head: Node?<V>, frees: bool, rubbish: Node?<V>, ghost t: Tree<V>) returns (visited: seq<Node<V>>)
    requires Distinct(t) && Shape(t, head)
    requires t.Branch? && Rightmost(t) != head ==> Rightmost(t).threadUp == null
    modifies NodeSet(t)
    ensures visited == InOrder(t)
    ensures !frees ==> Shape(t, head) && Threaded(visited, |visited|, null)
  {
    visited := [];
    if head == null {
      return;
    }
    var cur: Node?<V> := head;
    var movedUp := false;
    cur.threadUp := null;
    Started(t, head, null);
    NodesAllocated(t);
    ghost var all, p := NodeSet(t), At(Down(t), Bottom);
    while cur != null
      invariant Standing(p, null, cur, movedUp) && Nodes(p) <= all
      invariant Progress(InOrder(t), visited, p) && |visited| <= |InOrder(t)|
      invariant !frees ==> Shape(t, t.n) && Threaded(InOrder(t), |visited|, null)
      decreases |Order(p)|, Depth(p)
    {
      hide Progress, Threaded;
      cur, movedUp, visited, p := NextRound(cur, movedUp, frees, rubbish, visited, p, null, t, all);
    }
  }

  /** Whatever threads earlier visits left, the walk visits every node in order;
    * it then stops if and only if the last node was the head or had no thread,
    * and otherwise goes on to where that thread leads. */
  method VisitAll<V>(head: Node<V>, count: nat, frees: bool, rubbish: Node?<V>, ghost t: Tree<V>)
    returns (visited: seq<Node<V>>, cur: Node?<V>)
    requires t.Branch? && Distinct(t) && Shape(t, head) && count == |InOrder(t)|
    modifies NodeSet(t)
    ensures visited == InOrder(t)
    ensures cur == null <==> Rightmost(t) == head || old(Rightmost(t).threadUp) == null
    ensures cur != null ==> cur == old(Rightmost(t).threadUp)
  {
    visited := [];
    cur := head;
    var movedUp := false;
    cur.threadUp := null;
    ghost var end := Rightmost(t).threadUp;
    Started(t, head, end);
    NodesAllocated(t);
    ghost var all, p := NodeSet(t), At(Down(t), Bottom);
    while |visited| < count
      invariant Standing(p, end, cur, movedUp) && Nodes(p) <= all
      invariant Progress(InOrder(t), visited, p) && |visited| <= |InOrder(t)|
      invariant !frees ==> Shape(t, t.n) && Threaded(InOrder(t), |visited|, end)
      decreases |Order(p)|, Depth(p)
    {
      hide Threaded;
      cur, movedUp, visited, p := NextRound(cur, movedUp, frees, rubbish, visited, p, end, t, all);
    }
    StandingSomewhere(p, end, cur, movedUp);
  }

  lemma StandingSomewhere<V>(p: Place<V>, end: Node?<V>, cur: Node?<V>, movedUp: bool)
    requires Standing(p, end, cur, movedUp)
    ensures p.At? <==> Order(p) != []
  {
    if p.At? && p.here.Down? {
      assert p.here.t.n in InOrder(p.here.t);
    }
  }
}
