/** Nodes of a splay tree, the trees they form, and top-down splaying. */
module SplayNode {

  class Node<V> {
    const data: V
    var left: Node?<V>
    var right: Node?<V>
    var threadUp: Node?<V>

    constructor (v: V)
      ensures data == v && left == null && right == null && threadUp == null
    {
      data, left, right, threadUp := v, null, null, null;
    }
  }

  /** The shape that linked nodes have. */
  datatype Tree<V> = Leaf | Branch(l: Tree<V>, n: Node<V>, r: Tree<V>)

  function NodeSet<V>(t: Tree<V>): set<Node<V>> {
    match t
    case Leaf => {}
    case Branch(l, n, r) => NodeSet(l) + {n} + NodeSet(r)
  }

  function InOrder<V>(t: Tree<V>): seq<Node<V>> {
    match t
    case Leaf => []
    case Branch(l, n, r) => InOrder(l) + [n] + InOrder(r)
  }

  function Size<V>(t: Tree<V>): nat {
    match t
    case Leaf => 0
    case Branch(l, n, r) => Size(l) + 1 + Size(r)
  }

  /** No node occurs twice. */
  ghost predicate Distinct<V>(t: Tree<V>) {
    match t
    case Leaf => true
    case Branch(l, n, r) =>
      Distinct(l) && Distinct(r) && n !in NodeSet(l) && n !in NodeSet(r) && NodeSet(l) !! NodeSet(r)
  }

  ghost predicate Shape<V>(t: Tree<V>, p: Node?<V>)
    reads NodeSet(t)`left, NodeSet(t)`right
  {
    match t
    case Leaf => p == null
    case Branch(l, n, r) => p == n && Shape(l, n.left) && Shape(r, n.right)
  }

  lemma ShapeIs<V>(t: Tree<V>, p: Node?<V>)
    requires t.Branch? && Shape(t, p)
    ensures p == t.n && Shape(t.l, p.left) && Shape(t.r, p.right)
    ensures t.l.Leaf? <==> p.left == null
    ensures t.r.Leaf? <==> p.right == null
    ensures t.l.Branch? ==> p.left == t.l.n
    ensures t.r.Branch? ==> p.right == t.r.n
  {
  }

  // --- The last node ---

  function Rightmost<V>(t: Tree<V>): (n: Node<V>)
    requires t.Branch?
    ensures n in NodeSet(t)
  {
    if t.r.Leaf? then t.n else Rightmost(t.r)
  }

  lemma {:induction false} RightmostIsLast<V>(t: Tree<V>)
    requires t.Branch?
    ensures |InOrder(t)| > 0 && Rightmost(t) == InOrder(t)[|InOrder(t)| - 1]
  {
    if t.r.Branch? {
      RightmostIsLast(t.r);
    }
  }

  // --- Partial trees built while splaying ---

  /** A tree under construction with one open place: the innermost frame is the
    * node whose child is still to come, together with its finished subtree. */
  datatype Context<V> = Hole | Frame(outer: Context<V>, t: Tree<V>, n: Node<V>)

  function ContextSet<V>(c: Context<V>): set<Node<V>> {
    match c
    case Hole => {}
    case Frame(outer, t, n) => ContextSet(outer) + NodeSet(t) + {n}
  }

  ghost predicate DistinctContext<V>(c: Context<V>) {
    match c
    case Hole => true
    case Frame(outer, t, n) =>
      DistinctContext(outer) && Distinct(t) && n !in NodeSet(t) && n !in ContextSet(outer) && NodeSet(t) !! ContextSet(outer)
  }

  /** The node whose child is still to come; the header if there is none. */
  function Last<V>(c: Context<V>, header: Node<V>): Node<V> {
    match c
    case Hole => header
    case Frame(_, _, n) => n
  }

  /** Smaller nodes: linked through right children, open at the right. */
  ghost predicate LeftShape<V>(c: Context<V>, header: Node<V>)
    reads ContextSet(c)`left, ContextSet(c)`right, header`right
  {
    match c
    case Hole => true
    case Frame(outer, t, n) => LeftShape(outer, header) && Shape(t, n.left) && Last(outer, header).right == n
  }

  /** Larger nodes: linked through left children, open at the left. */
  ghost predicate RightShape<V>(c: Context<V>, header: Node<V>)
    reads ContextSet(c)`left, ContextSet(c)`right, header`left
  {
    match c
    case Hole => true
    case Frame(outer, t, n) => RightShape(outer, header) && Shape(t, n.right) && Last(outer, header).left == n
  }

  function FillLeft<V>(c: Context<V>, t: Tree<V>): Tree<V> {
    match c
    case Hole => t
    case Frame(outer, s, n) => FillLeft(outer, Branch(s, n, t))
  }

  function FillRight<V>(c: Context<V>, t: Tree<V>): Tree<V> {
    match c
    case Hole => t
    case Frame(outer, s, n) => FillRight(outer, Branch(t, n, s))
  }

  function LeftOrder<V>(c: Context<V>): seq<Node<V>> {
    match c
    case Hole => []
    case Frame(outer, t, n) => LeftOrder(outer) + InOrder(t) + [n]
  }

  function RightOrder<V>(c: Context<V>): seq<Node<V>> {
    match c
    case Hole => []
    case Frame(outer, t, n) => [n] + InOrder(t) + RightOrder(outer)
  }

  lemma {:induction false} FilledLeftOrder<V>(c: Context<V>, t: Tree<V>)
    ensures InOrder(FillLeft(c, t)) == LeftOrder(c) + InOrder(t)
  {
    match c
    case Hole =>
    case Frame(outer, s, n) => FilledLeftOrder(outer, Branch(s, n, t));
  }

  lemma {:induction false} FilledRightOrder<V>(c: Context<V>, t: Tree<V>)
    ensures InOrder(FillRight(c, t)) == InOrder(t) + RightOrder(c)
  {
    match c
    case Hole =>
    case Frame(outer, s, n) => FilledRightOrder(outer, Branch(t, n, s));
  }

  lemma {:induction false} FilledLeftSet<V>(c: Context<V>, t: Tree<V>)
    ensures NodeSet(FillLeft(c, t)) == ContextSet(c) + NodeSet(t)
  {
    match c
    case Hole =>
    case Frame(outer, s, n) => FilledLeftSet(outer, Branch(s, n, t));
  }

  lemma {:induction false} FilledRightSet<V>(c: Context<V>, t: Tree<V>)
    ensures NodeSet(FillRight(c, t)) == ContextSet(c) + NodeSet(t)
  {
    match c
    case Hole =>
    case Frame(outer, s, n) => FilledRightSet(outer, Branch(t, n, s));
  }

  lemma {:induction false} FilledLeftDistinct<V>(c: Context<V>, t: Tree<V>)
    requires DistinctContext(c) && Distinct(t) && ContextSet(c) !! NodeSet(t)
    ensures Distinct(FillLeft(c, t))
  {
    match c
    case Hole =>
    case Frame(outer, s, n) => FilledLeftDistinct(outer, Branch(s, n, t));
  }

  lemma {:induction false} FilledRightDistinct<V>(c: Context<V>, t: Tree<V>)
    requires DistinctContext(c) && Distinct(t) && ContextSet(c) !! NodeSet(t)
    ensures Distinct(FillRight(c, t))
  {
    match c
    case Hole =>
    case Frame(outer, s, n) => FilledRightDistinct(outer, Branch(t, n, s));
  }

  /** Closing the open place links a whole tree below the header. */
  lemma {:induction false} FilledLeftShape<V>(c: Context<V>, t: Tree<V>, header: Node<V>)
    requires LeftShape(c, header) && Shape(t, Last(c, header).right)
    ensures Shape(FillLeft(c, t), header.right)
  {
    match c
    case Hole =>
    case Frame(outer, s, n) => FilledLeftShape(outer, Branch(s, n, t), header);
  }

  lemma {:induction false} FilledRightShape<V>(c: Context<V>, t: Tree<V>, header: Node<V>)
    requires RightShape(c, header) && Shape(t, Last(c, header).left)
    ensures Shape(FillRight(c, t), header.left)
  {
    match c
    case Hole =>
    case Frame(outer, s, n) => FilledRightShape(outer, Branch(t, n, s), header);
  }

  // --- Searching ---

  /** A search moves in one direction: whatever follows a node that is not
    * before the sought value is after it. */
  ghost predicate Directed<V>(f: V -> int, s: seq<Node<V>>) {
    forall i, j :: 0 <= i < j < |s| && f(s[i].data) <= 0 ==> f(s[j].data) < 0
  }

  ghost predicate AllBefore<V>(f: V -> int, ns: set<Node<V>>) {
    forall n :: n in ns ==> f(n.data) > 0
  }

  ghost predicate AllAfter<V>(f: V -> int, ns: set<Node<V>>) {
    forall n :: n in ns ==> f(n.data) < 0
  }

  lemma {:induction false} NodesAllocated<V>(t: Tree<V>)
    ensures forall n :: n in NodeSet(t) ==> allocated(n)
  {
    match t
    case Leaf =>
    case Branch(l, n, r) => NodesAllocated(l); NodesAllocated(r);
  }

  lemma {:induction false} ContextAllocated<V>(c: Context<V>)
    ensures forall n :: n in ContextSet(c) ==> allocated(n)
  {
    match c
    case Hole =>
    case Frame(outer, t, n) => ContextAllocated(outer); NodesAllocated(t);
  }

  lemma {:induction false} OrderSet<V>(t: Tree<V>)
    ensures forall n :: n in InOrder(t) <==> n in NodeSet(t)
  {
    match t
    case Leaf =>
    case Branch(l, n, r) => OrderSet(l); OrderSet(r);
  }

  lemma DirectedConcat<V>(f: V -> int, a: seq<Node<V>>, n: Node<V>, b: seq<Node<V>>)
    requires Directed(f, a + [n] + b)
    ensures Directed(f, a) && Directed(f, b)
    ensures f(n.data) <= 0 ==> forall m :: m in b ==> f(m.data) < 0
    ensures f(n.data) >= 0 ==> forall m :: m in a ==> f(m.data) > 0
  {
    var s, k := a + [n] + b, |a|;
    assert s[k] == n;
    assert forall i :: 0 <= i < |a| ==> s[i] == a[i];
    assert forall i :: 0 <= i < |b| ==> s[k + 1 + i] == b[i];
  }

  lemma AllIn<V>(f: V -> int, s: seq<Node<V>>, ns: set<Node<V>>)
    requires forall n :: n in s <==> n in ns
    ensures (forall n :: n in s ==> f(n.data) > 0) ==> AllBefore(f, ns)
    ensures (forall n :: n in s ==> f(n.data) < 0) ==> AllAfter(f, ns)
  {
  }

  lemma DirectedParts<V>(f: V -> int, t: Tree<V>)
    requires t.Branch? && Directed(f, InOrder(t))
    ensures Directed(f, InOrder(t.l)) && Directed(f, InOrder(t.r))
    ensures f(t.n.data) <= 0 ==> AllAfter(f, NodeSet(t.r))
    ensures f(t.n.data) >= 0 ==> AllBefore(f, NodeSet(t.l))
  {
    var a, b := InOrder(t.l), InOrder(t.r);
    OrderSet(t.l);
    OrderSet(t.r);
    assert Directed(f, a + [t.n] + b);
    hide *;
    DirectedConcat(f, a, t.n, b);
    AllIn(f, a, NodeSet(t.l));
    AllIn(f, b, NodeSet(t.r));
  }

  lemma Regroup<T>(a: seq<T>, b: seq<T>, c: seq<T>, d: seq<T>, e: seq<T>)
    ensures a + b + (c + d + e) == (a + b + c) + d + e == (a + b) + c + (d + e) == a + (b + c + d) + e
  {
  }

  // --- Steps of splaying ---

  function RotatedRight<V>(t: Tree<V>): Tree<V>
    requires t.Branch? && t.l.Branch?
  {
    Branch(t.l.l, t.l.n, Branch(t.l.r, t.n, t.r))
  }

  function RotatedLeft<V>(t: Tree<V>): Tree<V>
    requires t.Branch? && t.r.Branch?
  {
    Branch(Branch(t.l, t.n, t.r.l), t.r.n, t.r.r)
  }

  lemma RotationKeepsOrder<V>(t: Tree<V>)
    requires t.Branch?
    ensures t.l.Branch? ==> InOrder(RotatedRight(t)) == InOrder(t)
    ensures t.r.Branch? ==> InOrder(RotatedLeft(t)) == InOrder(t)
  {
    if t.l.Branch? {
      Regroup(InOrder(t.l.l), [t.l.n], InOrder(t.l.r), [t.n], InOrder(t.r));
    }
    if t.r.Branch? {
      Regroup(InOrder(t.l), [t.n], InOrder(t.r.l), [t.r.n], InOrder(t.r.r));
    }
  }

  lemma RotationKeepsNodes<V>(t: Tree<V>)
    requires t.Branch? && Distinct(t)
    ensures t.l.Branch? ==> NodeSet(RotatedRight(t)) == NodeSet(t) && Distinct(RotatedRight(t))
    ensures t.r.Branch? ==> NodeSet(RotatedLeft(t)) == NodeSet(t) && Distinct(RotatedLeft(t))
  {
  }

  /** All pieces of a splay in progress: smaller nodes, the subtree still
    * searched, larger nodes. */
  ghost predicate Apart<V>(lc: Context<V>, t: Tree<V>, rc: Context<V>, header: Node<V>) {
    && DistinctContext(lc) && Distinct(t) && DistinctContext(rc)
    && ContextSet(lc) !! NodeSet(t) && ContextSet(lc) !! ContextSet(rc) && NodeSet(t) !! ContextSet(rc)
    && header !in ContextSet(lc) && header !in NodeSet(t) && header !in ContextSet(rc)
  }

  function Assembled<V>(lc: Context<V>, t: Tree<V>, rc: Context<V>): Tree<V>
    requires t.Branch?
  {
    Branch(FillLeft(lc, t.l), t.n, FillRight(rc, t.r))
  }

  lemma AssembledIs<V>(lc: Context<V>, t: Tree<V>, rc: Context<V>, header: Node<V>)
    requires t.Branch? && Apart(lc, t, rc, header)
    ensures Distinct(Assembled(lc, t, rc))
    ensures NodeSet(Assembled(lc, t, rc)) == ContextSet(lc) + NodeSet(t) + ContextSet(rc)
  {
    FilledLeftSet(lc, t.l);
    FilledRightSet(rc, t.r);
    FilledLeftDistinct(lc, t.l);
    FilledRightDistinct(rc, t.r);
  }

  lemma AssembledOrder<V>(lc: Context<V>, t: Tree<V>, rc: Context<V>)
    requires t.Branch?
    ensures InOrder(Assembled(lc, t, rc)) == LeftOrder(lc) + InOrder(t) + RightOrder(rc)
  {
    FilledLeftOrder(lc, t.l);
    FilledRightOrder(rc, t.r);
    Regroup(LeftOrder(lc), InOrder(t.l), [t.n], InOrder(t.r), RightOrder(rc));
  }

  /** The pieces are linked in memory as described. */
  ghost predicate Linked<V>(lc: Context<V>, t: Tree<V>, rc: Context<V>, header: Node<V>, top: Node<V>)
    reads ContextSet(lc)`left, ContextSet(lc)`right, NodeSet(t)`left, NodeSet(t)`right,
          ContextSet(rc)`left, ContextSet(rc)`right, header`left, header`right
  {
    Shape(t, top) && LeftShape(lc, header) && RightShape(rc, header)
  }

  /** The pieces hold the nodes of a tree in their order, and the search has
    * set aside only nodes before and after the sought value. */
  ghost predicate Searching<V>(f: V -> int, lc: Context<V>, t: Tree<V>, rc: Context<V>, header: Node<V>, whole: Tree<V>) {
    && t.Branch?
    && Apart(lc, t, rc, header)
    && LeftOrder(lc) + InOrder(t) + RightOrder(rc) == InOrder(whole)
    && ContextSet(lc) + NodeSet(t) + ContextSet(rc) == NodeSet(whole)
    && AllBefore(f, ContextSet(lc)) && AllAfter(f, ContextSet(rc)) && Directed(f, InOrder(t))
  }

  lemma SearchStarts<V>(f: V -> int, t: Tree<V>, header: Node<V>)
    requires t.Branch? && Distinct(t) && Directed(f, InOrder(t)) && header !in NodeSet(t)
    ensures Searching(f, Hole, t, Hole, header, t)
  {
    hide Directed;
    assert [] + InOrder(t) + [] == InOrder(t);
  }

  lemma SearchRotated<V>(f: V -> int, lc: Context<V>, t: Tree<V>, rc: Context<V>, header: Node<V>, whole: Tree<V>)
    requires Searching(f, lc, t, rc, header, whole)
    ensures t.l.Branch? ==> Searching(f, lc, RotatedRight(t), rc, header, whole)
    ensures t.r.Branch? ==> Searching(f, lc, RotatedLeft(t), rc, header, whole)
  {
    RotationKeepsOrder(t);
    RotationKeepsNodes(t);
    hide InOrder, NodeSet, Distinct, RotatedLeft, RotatedRight, Directed, LeftOrder, RightOrder, ContextSet,
         DistinctContext;
  }

  lemma ApartLinked<V>(lc: Context<V>, t: Tree<V>, rc: Context<V>, header: Node<V>)
    requires t.Branch? && Apart(lc, t, rc, header)
    ensures Apart(lc, t.l, Frame(rc, t.r, t.n), header) && Apart(Frame(lc, t.l, t.n), t.r, rc, header)
    ensures ContextSet(lc) + NodeSet(t.l) + ContextSet(Frame(rc, t.r, t.n)) == ContextSet(lc) + NodeSet(t) + ContextSet(rc)
    ensures ContextSet(Frame(lc, t.l, t.n)) + NodeSet(t.r) + ContextSet(rc) == ContextSet(lc) + NodeSet(t) + ContextSet(rc)
  {
  }

  lemma OrderLinked<V>(lc: Context<V>, t: Tree<V>, rc: Context<V>)
    requires t.Branch?
    ensures LeftOrder(lc) + InOrder(t.l) + RightOrder(Frame(rc, t.r, t.n)) == LeftOrder(lc) + InOrder(t) + RightOrder(rc)
    ensures LeftOrder(Frame(lc, t.l, t.n)) + InOrder(t.r) + RightOrder(rc) == LeftOrder(lc) + InOrder(t) + RightOrder(rc)
  {
    Regroup(LeftOrder(lc), InOrder(t.l), [t.n], InOrder(t.r), RightOrder(rc));
  }

  lemma AsideLinked<V>(f: V -> int, c: Context<V>, t: Tree<V>, n: Node<V>)
    ensures AllAfter(f, ContextSet(c)) && AllAfter(f, NodeSet(t)) && f(n.data) < 0 ==> AllAfter(f, ContextSet(Frame(c, t, n)))
    ensures AllBefore(f, ContextSet(c)) && AllBefore(f, NodeSet(t)) && f(n.data) > 0 ==> AllBefore(f, ContextSet(Frame(c, t, n)))
  {
  }

  lemma SearchLinked<V>(f: V -> int, lc: Context<V>, t: Tree<V>, rc: Context<V>, header: Node<V>, whole: Tree<V>)
    requires Searching(f, lc, t, rc, header, whole)
    ensures t.l.Branch? && f(t.n.data) < 0 ==> Searching(f, lc, t.l, Frame(rc, t.r, t.n), header, whole)
    ensures t.r.Branch? && f(t.n.data) > 0 ==> Searching(f, Frame(lc, t.l, t.n), t.r, rc, header, whole)
  {
    hide InOrder, NodeSet, Distinct, Apart, Directed, LeftOrder, RightOrder, ContextSet, DistinctContext, AllAfter,
         AllBefore;
    DirectedParts(f, t);
    ApartLinked(lc, t, rc, header);
    OrderLinked(lc, t, rc);
    AsideLinked(f, rc, t.r, t.n);
    AsideLinked(f, lc, t.l, t.n);
  }

  method SwapWithLeft<V>(top: Node<V>, ghost t: Tree<V>) returns (y: Node<V>)
    requires t.Branch? && t.l.Branch? && Distinct(t) && Shape(t, top)
    modifies NodeSet(t)`left, NodeSet(t)`right
    ensures Shape(RotatedRight(t), y)
  {
    y := top.left;
    top.left := y.right;
    y.right := top;
  }

  method RotateRight<V>(top: Node<V>, ghost lc: Context<V>, ghost t: Tree<V>, ghost rc: Context<V>, ghost header: Node<V>)
    returns (y: Node<V>)
    requires t.Branch? && t.l.Branch? && Apart(lc, t, rc, header) && Linked(lc, t, rc, header, top)
    modifies NodeSet(t)`left, NodeSet(t)`right
    ensures Linked(lc, RotatedRight(t), rc, header, y)
  {
    ContextAllocated(lc);
    ContextAllocated(rc);
    y := SwapWithLeft(top, t);
  }

  method LinkRight<V>(top: Node<V>, r: Node<V>, ghost lc: Context<V>, ghost t: Tree<V>, ghost rc: Context<V>, ghost header: Node<V>)
    requires t.Branch? && t.l.Branch? && Apart(lc, t, rc, header) && Linked(lc, t, rc, header, top)
    requires r == Last(rc, header)
    modifies r`left
    ensures top.left == t.l.n && Linked(lc, t.l, Frame(rc, t.r, t.n), header, t.l.n)
  {
    ShapeIs(t, top);
    ContextAllocated(lc);
    r.left := top;
  }

  method SwapWithRight<V>(top: Node<V>, ghost t: Tree<V>) returns (y: Node<V>)
    requires t.Branch? && t.r.Branch? && Distinct(t) && Shape(t, top)
    modifies NodeSet(t)`left, NodeSet(t)`right
    ensures Shape(RotatedLeft(t), y)
  {
    y := top.right;
    top.right := y.left;
    y.left := top;
  }

  method RotateLeft<V>(top: Node<V>, ghost lc: Context<V>, ghost t: Tree<V>, ghost rc: Context<V>, ghost header: Node<V>)
    returns (y: Node<V>)
    requires t.Branch? && t.r.Branch? && Apart(lc, t, rc, header) && Linked(lc, t, rc, header, top)
    modifies NodeSet(t)`left, NodeSet(t)`right
    ensures Linked(lc, RotatedLeft(t), rc, header, y)
  {
    ContextAllocated(lc);
    ContextAllocated(rc);
    y := SwapWithRight(top, t);
  }

  method LinkLeft<V>(top: Node<V>, l: Node<V>, ghost lc: Context<V>, ghost t: Tree<V>, ghost rc: Context<V>, ghost header: Node<V>)
    requires t.Branch? && t.r.Branch? && Apart(lc, t, rc, header) && Linked(lc, t, rc, header, top)
    requires l == Last(lc, header)
    modifies l`right
    ensures top.right == t.r.n && Linked(Frame(lc, t.l, t.n), t.r, rc, header, t.r.n)
  {
    ShapeIs(t, top);
    ContextAllocated(rc);
    l.right := top;
  }

  /** Closes the open places with the subtrees of the top node, then hangs both
    * trees below it. */
  method Assemble<V>(top: Node<V>, l: Node<V>, r: Node<V>, header: Node<V>,
                     ghost lc: Context<V>, ghost t: Tree<V>, ghost rc: Context<V>)
    requires t.Branch? && Apart(lc, t, rc, header) && Linked(lc, t, rc, header, top)
    requires l == Last(lc, header) && r == Last(rc, header)
    modifies l`right, r`left, top`left, top`right
    ensures Shape(Assembled(lc, t, rc), top)
  {
    Close(top, l, r, header, lc, t, rc);
    FilledLeftSet(lc, t.l);
    FilledRightSet(rc, t.r);
    top.left := header.right;
    top.right := header.left;
  }

  method Close<V>(top: Node<V>, l: Node<V>, r: Node<V>, header: Node<V>,
                  ghost lc: Context<V>, ghost t: Tree<V>, ghost rc: Context<V>)
    requires t.Branch? && Apart(lc, t, rc, header) && Linked(lc, t, rc, header, top)
    requires l == Last(lc, header) && r == Last(rc, header)
    modifies l`right, r`left
    ensures Shape(FillLeft(lc, t.l), header.right) && Shape(FillRight(rc, t.r), header.left)
  {
    l.right := top.left;
    r.left := top.right;
    FilledLeftShape(lc, t.l, header);
    FilledRightShape(rc, t.r, header);
  }

  lemma SearchingIs<V>(f: V -> int, lc: Context<V>, t: Tree<V>, rc: Context<V>, header: Node<V>, whole: Tree<V>)
    requires Searching(f, lc, t, rc, header, whole)
    ensures t.Branch? && Apart(lc, t, rc, header) && NodeSet(t) <= NodeSet(whole)
    ensures Last(lc, header) in NodeSet(whole) + {header} && Last(rc, header) in NodeSet(whole) + {header}
  {
  }

  lemma LinkedIs<V>(lc: Context<V>, t: Tree<V>, rc: Context<V>, header: Node<V>, top: Node<V>)
    requires t.Branch? && Linked(lc, t, rc, header, top)
    ensures top == t.n
    ensures t.l.Leaf? <==> top.left == null
    ensures t.r.Leaf? <==> top.right == null
    ensures t.l.Branch? ==> top.left == t.l.n
    ensures t.r.Branch? ==> top.right == t.r.n
  {
    ShapeIs(t, top);
  }

  /** One round of the search when the sought value is before the top node. */
  method DescendLeft<V>(top0: Node<V>, r0: Node<V>, f: V -> int, ghost header: Node<V>,
                        ghost lc: Context<V>, ghost t0: Tree<V>, ghost rc0: Context<V>, ghost whole: Tree<V>)
    returns (top: Node<V>, r: Node<V>, last: int, stop: bool, ghost t: Tree<V>, ghost rc: Context<V>)
    requires Searching(f, lc, t0, rc0, header, whole) && Linked(lc, t0, rc0, header, top0)
    requires r0 == Last(rc0, header) && f(top0.data) < 0
    modifies NodeSet(whole)`left, NodeSet(whole)`right, header`left
    ensures Searching(f, lc, t, rc, header, whole) && Linked(lc, t, rc, header, top) && r == Last(rc, header)
    ensures stop ==> last == f(top.data) && last < 0 && t.l.Leaf?
    ensures !stop ==> Size(t) < Size(t0)
  {
    hide Searching, Linked, Apart, NodeSet, ContextSet, Shape, LeftShape, RightShape, InOrder, Distinct,
         DistinctContext;
    top, r, last, stop, t, rc := top0, r0, f(top0.data), true, t0, rc0;
    SearchingIs(f, lc, t, rc, header, whole);
    LinkedIs(lc, t, rc, header, top);
    if top.left == null { return; }
    last := f(top.left.data);
    if last < 0 {
      SearchRotated(f, lc, t, rc, header, whole);
      top := RotateRight(top, lc, t, rc, header);
      t := RotatedRight(t);
      SearchingIs(f, lc, t, rc, header, whole);
      LinkedIs(lc, t, rc, header, top);
      if top.left == null { return; }
    }
    LinkRight(top, r, lc, t, rc, header);
    SearchLinked(f, lc, t, rc, header, whole);
    r, rc, stop := top, Frame(rc, t.r, top), false;
    t, top := t.l, top.left;
  }

  /** One round of the search when the sought value is after the top node. */
  method DescendRight<V>(top0: Node<V>, l0: Node<V>, f: V -> int, ghost header: Node<V>,
                        ghost lc0: Context<V>, ghost t0: Tree<V>, ghost rc: Context<V>, ghost whole: Tree<V>)
    returns (top: Node<V>, l: Node<V>, last: int, stop: bool, ghost t: Tree<V>, ghost lc: Context<V>)
    requires Searching(f, lc0, t0, rc, header, whole) && Linked(lc0, t0, rc, header, top0)
    requires l0 == Last(lc0, header) && f(top0.data) > 0
    modifies NodeSet(whole)`left, NodeSet(whole)`right, header`right
    ensures Searching(f, lc, t, rc, header, whole) && Linked(lc, t, rc, header, top) && l == Last(lc, header)
    ensures stop ==> last == f(top.data) && last > 0 && t.r.Leaf?
    ensures !stop ==> Size(t) < Size(t0)
  {
    hide Searching, Linked, Apart, NodeSet, ContextSet, Shape, LeftShape, RightShape, InOrder, Distinct,
         DistinctContext;
    top, l, last, stop, t, lc := top0, l0, f(top0.data), true, t0, lc0;
    SearchingIs(f, lc, t, rc, header, whole);
    LinkedIs(lc, t, rc, header, top);
    if top.right == null { return; }
    last := f(top.right.data);
    if last > 0 {
      SearchRotated(f, lc, t, rc, header, whole);
      top := RotateLeft(top, lc, t, rc, header);
      t := RotatedLeft(t);
      SearchingIs(f, lc, t, rc, header, whole);
      LinkedIs(lc, t, rc, header, top);
      if top.right == null { return; }
    }
    LinkLeft(top, l, lc, t, rc, header);
    SearchLinked(f, lc, t, rc, header, whole);
    l, lc, stop := top, Frame(lc, t.l, top), false;
    t, top := t.r, top.right;
  }

  /** Moves the node nearest to the sought value to the top. */
  method Splay<V>(p: Node<V>, f: V -> int, ghost t: Tree<V>) returns (top: Node<V>, last: int, ghost t': Tree<V>)
    requires t.Branch? && Distinct(t) && Shape(t, p) && Directed(f, InOrder(t))
    modifies NodeSet(t)`left, NodeSet(t)`right
    ensures t'.Branch? && Distinct(t') && Shape(t', top)
    ensures InOrder(t') == InOrder(t) && NodeSet(t') == NodeSet(t)
    ensures last == f(top.data)
    ensures AllBefore(f, NodeSet(t'.l)) && AllAfter(f, NodeSet(t'.r))
  {
    hide Directed, LeftOrder, RightOrder;
    NodesAllocated(t);
    var header := new Node<V>(p.data);
    var l, r := header, header;
    ghost var lc: Context<V>, tt, rc: Context<V> := Hole, t, Hole;
    top, last := p, 0;
    SearchStarts(f, t, header);
    var stop := false;
    while !stop
      invariant Searching(f, lc, tt, rc, header, t)
      invariant Linked(lc, tt, rc, header, top)
      invariant l == Last(lc, header) && r == Last(rc, header)
      invariant stop ==> last == f(top.data) && (last < 0 ==> tt.l.Leaf?) && (last > 0 ==> tt.r.Leaf?)
      decreases !stop, Size(tt)
    {
      hide Searching;
      last := f(top.data);
      if last < 0 {
        top, r, last, stop, tt, rc := DescendLeft(top, r, f, header, lc, tt, rc, t);
      } else if last > 0 {
        top, l, last, stop, tt, lc := DescendRight(top, l, f, header, lc, tt, rc, t);
      } else {
        stop := true;
      }
    }
    DirectedParts(f, tt);
    Assemble(top, l, r, header, lc, tt, rc);
    AssembledIs(lc, tt, rc, header);
    AssembledOrder(lc, tt, rc);
    t' := Assembled(lc, tt, rc);
    FilledLeftSet(lc, tt.l);
    FilledRightSet(rc, tt.r);
  }
}
