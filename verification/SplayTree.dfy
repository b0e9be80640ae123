/** A splay tree as a sorted set of values. */
module SplayTree {
  import opened SplayNode
  import opened SplayVisit
  import opened Wrappers

  // --- The order ---

  /** What a comparison function must be: the sign of a total preorder. */
  ghost predicate TotalOrder<V(!new)>(compare: (V, V) -> int) {
    && (forall a, b :: compare(a, b) < 0 <==> compare(b, a) > 0)
    && (forall a, b, c :: compare(a, b) <= 0 && compare(b, c) <= 0 ==> compare(a, c) <= 0)
  }

  ghost predicate Sorted<V>(compare: (V, V) -> int, s: seq<V>) {
    forall i, j :: 0 <= i < j < |s| ==> compare(s[i], s[j]) < 0
  }

  function Values<V>(s: seq<Node<V>>): seq<V> {
    seq(|s|, i requires 0 <= i < |s| => s[i].data)
  }

  /** Insertion into a sorted sequence. */
  function Inserted<V>(compare: (V, V) -> int, x: V, s: seq<V>): seq<V> {
    if s == [] || compare(x, s[0]) < 0 then [x] + s else [s[0]] + Inserted(compare, x, s[1..])
  }

  /** A sequence without the values equivalent to a given one. */
  function Without<V>(compare: (V, V) -> int, x: V, s: seq<V>): seq<V> {
    if s == [] then []
    else if compare(x, s[0]) == 0 then Without(compare, x, s[1..])
    else [s[0]] + Without(compare, x, s[1..])
  }

  lemma {:induction false} InsertedAt<V>(compare: (V, V) -> int, x: V, a: seq<V>, b: seq<V>)
    requires forall v :: v in a ==> compare(x, v) > 0
    requires forall v :: v in b ==> compare(x, v) < 0
    ensures Inserted(compare, x, a + b) == a + [x] + b
  {
    if a == [] {
      assert a + b == b;
    } else {
      InsertedAt(compare, x, a[1..], b);
      assert (a + b)[1..] == a[1..] + b;
      assert a + [x] + b == [a[0]] + (a[1..] + [x] + b);
    }
  }

  lemma {:induction false} InsertedLength<V>(compare: (V, V) -> int, x: V, s: seq<V>)
    ensures |Inserted(compare, x, s)| == |s| + 1
  {
    if s != [] && compare(x, s[0]) >= 0 {
      InsertedLength(compare, x, s[1..]);
    }
  }

  lemma {:induction false} WithoutNone<V>(compare: (V, V) -> int, x: V, s: seq<V>)
    requires forall v :: v in s ==> compare(x, v) != 0
    ensures Without(compare, x, s) == s
  {
    if s != [] {
      WithoutNone(compare, x, s[1..]);
      assert s == [s[0]] + s[1..];
    }
  }

  lemma {:induction false} WithoutConcat<V>(compare: (V, V) -> int, x: V, a: seq<V>, b: seq<V>)
    ensures Without(compare, x, a + b) == Without(compare, x, a) + Without(compare, x, b)
  {
    if a == [] {
      assert a + b == b;
    } else {
      WithoutConcat(compare, x, a[1..], b);
      assert (a + b)[1..] == a[1..] + b;
    }
  }

  lemma SortedInserted<V(!new)>(compare: (V, V) -> int, x: V, a: seq<V>, b: seq<V>)
    requires TotalOrder(compare) && Sorted(compare, a + b)
    requires forall v :: v in a ==> compare(x, v) > 0
    requires forall v :: v in b ==> compare(x, v) < 0
    ensures Sorted(compare, a + [x] + b)
  {
    var s, t := a + b, a + [x] + b;
    forall i, j | 0 <= i < j < |t| ensures compare(t[i], t[j]) < 0 {
      if i != |a| && j != |a| {
        assert t[i] == s[if i < |a| then i else i - 1];
        assert t[j] == s[if j < |a| then j else j - 1];
      } else if i == |a| {
        assert t[j] == b[j - |a| - 1];
      } else {
        assert t[i] == a[i];
      }
    }
  }

  lemma SortedRemoved<V>(compare: (V, V) -> int, a: seq<V>, x: V, b: seq<V>)
    requires Sorted(compare, a + [x] + b)
    ensures Sorted(compare, a + b)
  {
    var s, t := a + b, a + [x] + b;
    forall i, j | 0 <= i < j < |s| ensures compare(s[i], s[j]) < 0 {
      assert s[i] == t[if i < |a| then i else i + 1];
      assert s[j] == t[if j < |a| then j else j + 1];
    }
  }

  /** Comparing with one value moves a search in one direction. */
  lemma OrderDirects<V(!new)>(compare: (V, V) -> int, x: V, f: V -> int, s: seq<Node<V>>)
    requires TotalOrder(compare) && Sorted(compare, Values(s))
    requires forall v :: f(v) == compare(x, v)
    ensures Directed(f, s)
  {
    var vs := Values(s);
    forall i, j | 0 <= i < j < |s| && f(s[i].data) <= 0 ensures f(s[j].data) < 0 {
      assert compare(vs[i], vs[j]) < 0;
      OrderSteps(compare, x, vs[i], vs[j]);
    }
  }

  lemma OrderSteps<V(!new)>(compare: (V, V) -> int, a: V, b: V, c: V)
    requires TotalOrder(compare) && compare(a, b) <= 0 && compare(b, c) < 0
    ensures compare(a, c) < 0
  {
  }

  lemma ValuesConcat<V>(a: seq<Node<V>>, b: seq<Node<V>>)
    ensures Values(a + b) == Values(a) + Values(b)
  {
  }

  /** What a splay leaves: the top node between smaller and larger ones. */
  ghost predicate SplitAt<V>(f: V -> int, t: Tree<V>) {
    t.Branch? && AllBefore(f, NodeSet(t.l)) && AllAfter(f, NodeSet(t.r))
  }

  lemma ValuesIn<V>(f: V -> int, s: seq<Node<V>>, ns: set<Node<V>>)
    requires forall n :: n in s <==> n in ns
    ensures AllBefore(f, ns) ==> forall v :: v in Values(s) ==> f(v) > 0
    ensures AllAfter(f, ns) ==> forall v :: v in Values(s) ==> f(v) < 0
  {
  }

  lemma SplitValues<V>(f: V -> int, t: Tree<V>)
    requires SplitAt(f, t)
    ensures Values(InOrder(t)) == Values(InOrder(t.l)) + [t.n.data] + Values(InOrder(t.r))
    ensures forall v :: v in Values(InOrder(t.l)) ==> f(v) > 0
    ensures forall v :: v in Values(InOrder(t.r)) ==> f(v) < 0
  {
    OrderSet(t.l);
    OrderSet(t.r);
    assert InOrder(t) == InOrder(t.l) + [t.n] + InOrder(t.r);
    hide InOrder, NodeSet, AllBefore, AllAfter;
    ValuesIn(f, InOrder(t.l), NodeSet(t.l));
    ValuesIn(f, InOrder(t.r), NodeSet(t.r));
    ValuesConcat(InOrder(t.l), [t.n]);
    ValuesConcat(InOrder(t.l) + [t.n], InOrder(t.r));
    assert Values([t.n]) == [t.n.data];
  }

  /** A node put on top of a splayed tree, next to the old top. */
  function OnTop<V>(n: Node<V>, t: Tree<V>, last: int): Tree<V>
    requires t.Branch?
  {
    if last < 0 then Branch(t.l, n, Branch(Leaf, t.n, t.r)) else Branch(Branch(t.l, t.n, Leaf), n, t.r)
  }

  lemma OnTopIs<V>(f: V -> int, n: Node<V>, t: Tree<V>)
    requires SplitAt(f, t) && Distinct(t) && n !in NodeSet(t) && f(t.n.data) != 0
    ensures var u := OnTop(n, t, f(t.n.data)); Distinct(u) && NodeSet(u) == NodeSet(t) + {n} && SplitAt(f, u)
  {
  }

  lemma OnTopOrder<V>(n: Node<V>, t: Tree<V>, last: int)
    requires t.Branch?
    ensures var u := OnTop(n, t, last); InOrder(t) == InOrder(u.l) + InOrder(u.r)
  {
    assert InOrder(t.l) + ([] + [t.n] + InOrder(t.r)) == InOrder(t.l) + [t.n] + InOrder(t.r);
    assert InOrder(t.l) + [t.n] + [] == InOrder(t.l) + [t.n];
  }

  /** Where the value equivalent to the sought one is. */
  ghost predicate FoundAt<V>(f: V -> int, s: seq<Node<V>>, k: nat) {
    k < |s| && f(s[k].data) == 0
  }

  ghost predicate Nowhere<V>(f: V -> int, ns: set<Node<V>>) {
    forall n :: n in ns ==> f(n.data) != 0
  }

  lemma SplitFinds<V>(f: V -> int, t: Tree<V>)
    requires SplitAt(f, t)
    ensures f(t.n.data) == 0 ==> FoundAt(f, InOrder(t), |InOrder(t.l)|)
    ensures f(t.n.data) != 0 <==> Nowhere(f, NodeSet(t))
  {
    assert InOrder(t)[|InOrder(t.l)|] == t.n;
  }

  // --- Operations on nodes ---

  method PutBefore<V>(n: Node<V>, top: Node<V>, ghost t: Tree<V>)
    requires t.Branch? && Distinct(t) && Shape(t, top) && n !in NodeSet(t)
    modifies n`left, n`right, top`left
    ensures Shape(OnTop(n, t, -1), n)
  {
    ShapeIs(t, top);
    NodesAllocated(t);
    n.left := top.left;
    n.right := top;
    top.left := null;
    assert Shape(Branch(Leaf, t.n, t.r), top);
  }

  method PutAfter<V>(n: Node<V>, top: Node<V>, ghost t: Tree<V>)
    requires t.Branch? && Distinct(t) && Shape(t, top) && n !in NodeSet(t)
    modifies n`left, n`right, top`right
    ensures Shape(OnTop(n, t, 1), n)
  {
    ShapeIs(t, top);
    NodesAllocated(t);
    n.right := top.right;
    n.left := top;
    top.right := null;
    assert Shape(Branch(t.l, t.n, Leaf), top);
  }

  /** Links a new node on top of a tree unless an equivalent value is there. */
  method InsertNode<V>(p: Node<V>, x: V, f: V -> int, ghost t: Tree<V>) returns (top: Node<V>, ghost t': Tree<V>)
    requires t.Branch? && Distinct(t) && Shape(t, p) && Directed(f, InOrder(t))
    modifies NodeSet(t)`left, NodeSet(t)`right
    ensures Distinct(t') && Shape(t', top) && SplitAt(f, t') && t'.n == top
    ensures !Nowhere(f, NodeSet(t)) ==> InOrder(t') == InOrder(t) && NodeSet(t') == NodeSet(t)
    ensures Nowhere(f, NodeSet(t)) ==>
      && fresh(top) && top.data == x && top.threadUp == null
      && NodeSet(t') == NodeSet(t) + {top} && InOrder(t) == InOrder(t'.l) + InOrder(t'.r)
  {
    hide Directed, AllBefore, AllAfter, InOrder, Nowhere;
    NodesAllocated(t);
    var newNode := new Node<V>(x);
    var newTop, last, s := Splay(p, f, t);
    SplitFinds(f, s);
    if last != 0 {
      OnTopIs(f, newNode, s);
      OnTopOrder(newNode, s, last);
    }
    if last < 0 {
      PutBefore(newNode, newTop, s);
      top, t' := newNode, OnTop(newNode, s, last);
    } else if last > 0 {
      PutAfter(newNode, newTop, s);
      top, t' := newNode, OnTop(newNode, s, last);
    } else {
      top, t' := newTop, s;
    }
  }

  /** Nothing of the smaller nodes is to the right of the node splayed to
    * their top. */
  lemma NothingRight<V>(f: V -> int, t: Tree<V>, u: Tree<V>)
    requires AllBefore(f, NodeSet(t)) && SplitAt(f, u) && NodeSet(u) == NodeSet(t)
    ensures u.r.Leaf?
  {
  }

  lemma DropMiddle<T>(a: seq<T>, n: T, b: seq<T>)
    ensures (a + [n] + b)[..|a|] + (a + [n] + b)[|a| + 1..] == a + b
  {
  }

  lemma RemovedOrder<V>(t: Tree<V>, u: Tree<V>)
    requires t.Branch? && u.Branch? && u.r.Leaf? && InOrder(u) == InOrder(t.l)
    ensures InOrder(Branch(u.l, u.n, t.r)) == InOrder(t)[..|InOrder(t.l)|] + InOrder(t)[|InOrder(t.l)| + 1..]
    ensures |InOrder(t.l)| > 0 && InOrder(t.l)[|InOrder(t.l)| - 1] == u.n
  {
    assert InOrder(u.l) + [u.n] + [] == InOrder(u.l) + [u.n];
    DropMiddle(InOrder(t.l), t.n, InOrder(t.r));
  }

  method HangRight<V>(top: Node<V>, result: Node<V>, ghost u: Tree<V>, ghost t: Tree<V>)
    requires u.Branch? && u.r.Leaf? && Distinct(u) && Distinct(t) && NodeSet(u) !! NodeSet(t)
    requires result !in NodeSet(u) && result !in NodeSet(t) && Shape(u, top) && Shape(t, result.right)
    modifies top`right, result`right
    ensures Shape(Branch(u.l, top, t), top)
  {
    ShapeIs(u, top);
    top.right := result.right;
    result.right := null;
  }

  /** Unlinks the node that holds the sought value. */
  method RemoveNode<V>(p: Node<V>, f: V -> int, ghost t: Tree<V>)
    returns (top: Node?<V>, ghost t': Tree<V>, ghost k: nat)
    requires t.Branch? && Distinct(t) && Shape(t, p) && Directed(f, InOrder(t))
    modifies NodeSet(t)`left, NodeSet(t)`right
    ensures Distinct(t') && Shape(t', top) && NodeSet(t') <= NodeSet(t)
    ensures FoundAt(f, InOrder(t), k) || (Nowhere(f, NodeSet(t)) && InOrder(t') == InOrder(t))
    ensures FoundAt(f, InOrder(t), k) ==> InOrder(t') == InOrder(t)[..k] + InOrder(t)[k + 1..]
    ensures FoundAt(f, InOrder(t), k) && 0 < k == |InOrder(t)| - 1 ==> top == InOrder(t')[k - 1]
  {
    hide Directed, AllBefore, AllAfter, Nowhere;
    var result, last, s := Splay(p, f, t);
    SplitFinds(f, s);
    k := |InOrder(s.l)|;
    DropMiddle(InOrder(s.l), s.n, InOrder(s.r));
    if last == 0 {
      DirectedParts(f, s);
      ShapeIs(s, result);
      if result.left == null {
        top, t' := result.right, s.r;
      } else {
        ghost var u;
        NodesAllocated(s.r);
        top, last, u := Splay(result.left, f, s.l);
        NothingRight(f, s.l, u);
        RemovedOrder(s, u);
        HangRight(top, result, u, s.r);
        t' := Branch(u.l, top, s.r);
      }
    } else {
      top, t' := result, s;
    }
  }

  ghost predicate LastClear<V>(s: seq<Node<V>>)
    reads (if s == [] then {} else {s[|s| - 1]})`threadUp
  {
    s != [] ==> s[|s| - 1].threadUp == null
  }

  lemma LastAllocated<V>(t: Tree<V>)
    ensures InOrder(t) != [] ==> allocated(InOrder(t)[|InOrder(t)| - 1])
  {
    NodesAllocated(t);
    OrderSet(t);
  }

  lemma LastInserted<V>(t: Tree<V>)
    requires t.Branch? && LastClear(InOrder(t.l) + InOrder(t.r)) && t.n.threadUp == null
    ensures LastClear(InOrder(t))
  {
  }

  lemma InsertedValues<V(!new)>(compare: (V, V) -> int, x: V, f: V -> int, order: seq<Node<V>>, t: Tree<V>)
    requires TotalOrder(compare) && Sorted(compare, Values(order))
    requires forall v :: f(v) == compare(x, v)
    requires SplitAt(f, t) && t.n.data == x && order == InOrder(t.l) + InOrder(t.r)
    ensures Values(InOrder(t)) == Inserted(compare, x, Values(order))
    ensures Sorted(compare, Values(InOrder(t)))
  {
    SplitValues(f, t);
    ValuesConcat(InOrder(t.l), InOrder(t.r));
    var a, b := Values(InOrder(t.l)), Values(InOrder(t.r));
    hide Values, InOrder, Sorted, TotalOrder, Inserted;
    InsertedAt(compare, x, a, b);
    SortedInserted(compare, x, a, b);
  }

  lemma RemovedFrom<V>(compare: (V, V) -> int, x: V, a: seq<V>, v: V, b: seq<V>)
    requires Sorted(compare, a + [v] + b)
    requires forall w :: w in a || w in b ==> compare(x, w) != 0
    requires compare(x, v) == 0
    ensures a + b == Without(compare, x, a + [v] + b) && Sorted(compare, a + b)
  {
    hide Sorted;
    SortedRemoved(compare, a, v, b);
    WithoutConcat(compare, x, a + [v], b);
    WithoutConcat(compare, x, a, [v]);
    WithoutNone(compare, x, a);
    WithoutNone(compare, x, b);
    assert Without(compare, x, [v]) == [];
  }

  lemma ValuesAround<V>(f: V -> int, a: seq<Node<V>>, n: Node<V>, b: seq<Node<V>>)
    requires Directed(f, a + [n] + b) && f(n.data) == 0
    ensures Values(a + [n] + b) == Values(a) + [n.data] + Values(b) && Values(a + b) == Values(a) + Values(b)
    ensures forall v :: v in Values(a) || v in Values(b) ==> f(v) != 0
  {
    DirectedConcat(f, a, n, b);
    hide Directed;
    ValuesConcat(a, b);
    ValuesConcat(a + [n], b);
    ValuesConcat(a, [n]);
  }

  lemma RemovedValues<V(!new)>(compare: (V, V) -> int, x: V, f: V -> int, order: seq<Node<V>>, k: nat)
    requires Sorted(compare, Values(order)) && Directed(f, order)
    requires forall v :: f(v) == compare(x, v)
    requires FoundAt(f, order, k)
    ensures var rest := Values(order[..k] + order[k + 1..]);
      |rest| == |Values(order)| - 1 && rest == Without(compare, x, Values(order)) && Sorted(compare, rest)
  {
    hide Sorted, Directed, Without;
    var a, n, b := order[..k], order[k], order[k + 1..];
    assert order == a + [n] + b;
    ValuesAround(f, a, n, b);
    RemovedFrom(compare, x, Values(a), n.data, Values(b));
  }

  datatype Use<V> = Look(x: V) | Put(x: V) | Take(x: V) | Walk

  /** The contents of a sorted set after one use, */
  ghost function StoredNext<V>(compare: (V, V) -> int, was: seq<V>, use: Use<V>): seq<V> {
    if use.Put? && forall v :: v in was ==> compare(use.x, v) != 0 then Inserted(compare, use.x, was)
    else if use.Take? then Without(compare, use.x, was)
    else was
  }

  /** ... and after some. */
  ghost function Stored<V>(compare: (V, V) -> int, s: seq<V>, uses: seq<Use<V>>): seq<V> {
    if uses == [] then s else StoredNext(compare, Stored(compare, s, uses[..|uses| - 1]), uses[|uses| - 1])
  }

  /** Visits hand out what is stored then. */
  ghost predicate Handed<V>(compare: (V, V) -> int, s: seq<V>, uses: seq<Use<V>>, visits: seq<Option<seq<V>>>) {
    && |visits| == |uses|
    && forall i :: 0 <= i < |uses| && visits[i].Some? ==> uses[i].Walk? && visits[i].value == Stored(compare, s, uses[..i])
  }

  ghost predicate NoneTaken<V>(uses: seq<Use<V>>) {
    forall i :: 0 <= i < |uses| ==> !uses[i].Take?
  }

  /** No visit was left out. */
  ghost predicate AllHanded<V>(uses: seq<Use<V>>, visits: seq<Option<seq<V>>>) {
    |visits| == |uses| && forall i :: 0 <= i < |uses| && uses[i].Walk? ==> visits[i].Some?
  }

  lemma HandedNext<V>(compare: (V, V) -> int, s: seq<V>, uses: seq<Use<V>>, i: nat, visits: seq<Option<seq<V>>>, v: Option<seq<V>>)
    requires i < |uses| && Handed(compare, s, uses[..i], visits)
    requires v.Some? ==> uses[i].Walk? && v.value == Stored(compare, s, uses[..i])
    ensures Handed(compare, s, uses[..i + 1], visits + [v])
    ensures Stored(compare, s, uses[..i + 1]) == StoredNext(compare, Stored(compare, s, uses[..i]), uses[i])
    ensures NoneTaken(uses[..i + 1]) <==> NoneTaken(uses[..i]) && !uses[i].Take?
    ensures AllHanded(uses[..i], visits) && (uses[i].Walk? ==> v.Some?) ==> AllHanded(uses[..i + 1], visits + [v])
  {
    hide StoredNext;
    var u, u', vs := uses[..i], uses[..i + 1], visits + [v];
    assert u'[..i] == u && u'[i] == uses[i];
    assert forall j :: 0 <= j < i ==> u'[j] == u[j] && u'[..j] == u[..j] && vs[j] == visits[j];
    assert vs[i] == v;
    if NoneTaken(u') {
      forall j | 0 <= j < i
        ensures !u[j].Take?
      {
        assert u[j] == u'[j];
      }
    }
  }

  class SplayTree<V(!new)> {
    const compare: (V, V) -> int
    var head: Node?<V>
    var elements: nat
    ghost var tree: Tree<V>

    ghost predicate Valid()
      reads this, NodeSet(tree)`left, NodeSet(tree)`right
    {
      && TotalOrder(compare)
      && Distinct(tree) && Shape(tree, head)
      && Sorted(compare, Contents())
      && elements == |Contents()|
    }

    ghost function Contents(): seq<V>
      reads this
    {
      Values(InOrder(tree))
    }

    /** The largest value's node holds no thread left over from a visit. */
    ghost predicate MaxClear()
      reads this, (if InOrder(tree) == [] then {} else {InOrder(tree)[|InOrder(tree)| - 1]})`threadUp
    {
      LastClear(InOrder(tree))
    }

    constructor (compare: (V, V) -> int)
      requires TotalOrder(compare)
      ensures Valid() && Contents() == [] && this.compare == compare
    {
      this.compare, head, elements, tree := compare, null, 0, Leaf;
    }

    lemma NothingFound(f: V -> int)
      requires Shape(tree, head)
      ensures head == null ==> Contents() == [] && Nowhere(f, NodeSet(tree))
      ensures head != null ==> tree.Branch?
    {
    }

    /** Moves the found value, or a neighbour of the missing one, to the top. */
    method Find(f: V -> int) returns (r: Option<V>)
      requires Valid() && Directed(f, InOrder(tree))
      modifies this, NodeSet(tree)`left, NodeSet(tree)`right
      ensures Valid() && InOrder(tree) == old(InOrder(tree)) && NodeSet(tree) == old(NodeSet(tree))
      ensures r.None? <==> forall v :: v in Contents() ==> f(v) != 0
      ensures r.None? <==> Nowhere(f, NodeSet(tree))
      ensures r.Some? ==> r.value in Contents() && f(r.value) == 0 && head in NodeSet(tree) && head.data == r.value
      ensures old(MaxClear()) ==> MaxClear()
    {
      hide TotalOrder, Sorted, LastClear, InOrder, Values, Directed;
      NothingFound(f);
      LastAllocated(tree);
      if head == null {
        return None;
      }
      var last;
      head, last, tree := Splay(head, f, tree);
      SplitValues(f, tree);
      SplitFinds(f, tree);
      if last != 0 {
        return None;
      }
      return Some(head.data);
    }

    method AddMissing(x: V, f: V -> int)
      requires Valid() && Directed(f, InOrder(tree)) && Nowhere(f, NodeSet(tree))
      requires forall v :: f(v) == compare(x, v)
      modifies this, NodeSet(tree)`left, NodeSet(tree)`right
      ensures Valid() && head != null && NodeSet(tree) == old(NodeSet(tree)) + {head}
      ensures Contents() == Inserted(compare, x, old(Contents()))
      ensures tree.Branch? && tree.n == head && fresh(head) && head.data == x && head.threadUp == null
      ensures InOrder(tree.l) + InOrder(tree.r) == old(InOrder(tree))
    {
      hide TotalOrder, Sorted, Directed, Nowhere, Inserted;
      ghost var order := InOrder(tree);
      ghost var values := Contents();
      if head == null {
        head := new Node(x);
        tree := Branch(Leaf, head, Leaf);
      } else {
        head, tree := InsertNode(head, x, f, tree);
      }
      InsertedValues(compare, x, f, order, tree);
      hide InOrder, Values;
      elements := elements + 1;
      InsertedLength(compare, x, values);
    }

    /** Adds a value unless an equivalent one is there, and returns that one. */
    method Insert(x: V) returns (r: Option<V>)
      requires Valid()
      modifies this, NodeSet(tree)`left, NodeSet(tree)`right
      ensures Valid() && head != null && NodeSet(tree) == old(NodeSet(tree)) + {head}
      ensures r.None? <==> forall v :: v in old(Contents()) ==> compare(x, v) != 0
      ensures r.Some? ==> r.value in old(Contents()) && compare(x, r.value) == 0
      ensures r.Some? ==> InOrder(tree) == old(InOrder(tree)) && NodeSet(tree) == old(NodeSet(tree))
      ensures r.None? ==> Contents() == Inserted(compare, x, old(Contents()))
      ensures r.None? ==> tree.Branch? && tree.n == head && fresh(head) && head.data == x && head.threadUp == null
      ensures r.None? ==> InOrder(tree.l) + InOrder(tree.r) == old(InOrder(tree))
      ensures old(MaxClear()) ==> MaxClear()
    {
      hide TotalOrder, Sorted, Directed, Nowhere, Inserted, InOrder, Values, LastClear;
      var f := v => compare(x, v);
      OrderDirects(compare, x, f, InOrder(tree));
      LastAllocated(tree);
      r := Find(f);
      if r.None? {
        AddMissing(x, f);
        if old(MaxClear()) {
          LastInserted(tree);
        }
      }
    }

    /** Takes out the value equivalent to a given one, if there is one. */
    method Remove(x: V) returns (ghost found: bool, ghost k: nat)
      requires Valid()
      modifies this, NodeSet(tree)`left, NodeSet(tree)`right
      ensures Valid() && NodeSet(tree) <= old(NodeSet(tree))
      ensures Contents() == Without(compare, x, old(Contents()))
      ensures found <==> exists v :: v in old(Contents()) && compare(x, v) == 0
      ensures !found ==> InOrder(tree) == old(InOrder(tree))
      ensures found ==> k < |old(InOrder(tree))| && compare(x, old(InOrder(tree))[k].data) == 0
      ensures found ==> InOrder(tree) == old(InOrder(tree)[..k] + InOrder(tree)[k + 1..])
      ensures found && 0 < k == |old(InOrder(tree))| - 1 ==> head == old(InOrder(tree)[k - 1])
    {
      hide TotalOrder, Sorted, Directed, Nowhere, Without, InOrder, Values, LastClear, Shape, Distinct;
      var f := v => compare(x, v);
      OrderDirects(compare, x, f, InOrder(tree));
      var r := Find(f);
      found, k := r.Some?, 0;
      if r.None? {
        WithoutNone(compare, x, Contents());
        return;
      }
      k := TakeFound(x, f);
    }

    method TakeFound(x: V, f: V -> int) returns (ghost k: nat)
      requires Valid() && Directed(f, InOrder(tree)) && !Nowhere(f, NodeSet(tree)) && head != null
      requires forall v :: f(v) == compare(x, v)
      modifies this, NodeSet(tree)`left, NodeSet(tree)`right
      ensures Valid() && NodeSet(tree) <= old(NodeSet(tree))
      ensures Contents() == Without(compare, x, old(Contents()))
      ensures k < |old(InOrder(tree))| && compare(x, old(InOrder(tree))[k].data) == 0
      ensures InOrder(tree) == old(InOrder(tree)[..k] + InOrder(tree)[k + 1..])
      ensures 0 < k == |old(InOrder(tree))| - 1 ==> head == old(InOrder(tree)[k - 1])
    {
      hide TotalOrder, Sorted, Directed, Nowhere, Without, InOrder, Values, LastClear, Distinct;
      ghost var order := InOrder(tree);
      head, tree, k := RemoveNode(head, f, tree);
      RemovedValues(compare, x, f, order, k);
      elements := elements - 1;
    }

    /** A visit ends: the last node is the head, whose thread every visit clears
      * first, or holds no thread. */
    ghost predicate ReadyToVisit()
      reads this, NodeSet(tree)`threadUp
    {
      tree.Branch? && Rightmost(tree) != head ==> Rightmost(tree).threadUp == null
    }

    /** Hands every value to the visitor, in order. */
    method Visit() returns (values: seq<V>)
      requires Valid() && ReadyToVisit()
      modifies NodeSet(tree)
      ensures values == Contents() && Valid() && MaxClear() && ReadyToVisit()
      ensures Threaded(InOrder(tree), |InOrder(tree)|, null)
    {
      var nodes := VisitEach(head, false, null, tree);
      if head != null {
        RightmostIsLast(tree);
        RightmostEnds(tree, head);
        assert nodes[|nodes| - 1].right == null;
        assert nodes[|nodes| - 1].threadUp == null;
      } else {
        assert tree.Leaf?;
      }
      values := Values(nodes);
    }

    /** Hands every node to a visitor that frees it. */
    method Destroy(rubbish: Node?<V>) returns (freed: seq<V>)
      requires Valid() && ReadyToVisit()
      modifies this, NodeSet(tree)
      ensures freed == old(Contents()) && Valid() && Contents() == []
    {
      var nodes := VisitEach(head, true, rubbish, tree);
      freed := Values(nodes);
      head, elements, tree := null, 0, Leaf;
    }

    /** Whether a visit would end, found by going right. */
    method CanVisit() returns (ready: bool)
      requires Valid()
      ensures ready == ReadyToVisit() == old(ReadyToVisit()) && Valid() && (old(MaxClear()) ==> MaxClear())
    {
      hide TotalOrder, Sorted, InOrder, Values, LastClear;
      if head == null {
        return true;
      }
      var n := head;
      ghost var t := tree;
      while n.right != null
        invariant Valid() && t.Branch? && Shape(t, n) && Rightmost(t) == Rightmost(tree)
        invariant ReadyToVisit() == old(ReadyToVisit()) && (old(MaxClear()) ==> MaxClear())
        decreases Size(t)
      {
        ShapeIs(t, n);
        n := n.right;
        t := t.r;
      }
      ShapeIs(t, n);
      ready := n == head || n.threadUp == null;
    }

    /** One use; a visit that would not end is left out. */
    method UseOnce(use: Use<V>) returns (visit: Option<seq<V>>)
      requires Valid()
      modifies this, NodeSet(tree)
      ensures Valid() && Contents() == StoredNext(compare, old(Contents()), use)
      ensures forall n :: n in NodeSet(tree) && n !in old(NodeSet(tree)) ==> fresh(n)
      ensures visit.Some? <==> use.Walk? && old(ReadyToVisit())
      ensures visit.Some? ==> visit.value == Contents()
      ensures old(MaxClear()) && !use.Take? ==> MaxClear()
    {
      hide TotalOrder, Sorted, LastClear, Directed, Inserted, Without, Nowhere, InOrder, Values, Shape, Distinct;
      visit := None;
      match use {
        case Look(x) =>
          var f := v => compare(x, v);
          OrderDirects(compare, x, f, InOrder(tree));
          var r := Find(f);
        case Put(x) =>
          var r := Insert(x);
        case Take(x) =>
          ghost var found, k := Remove(x);
        case Walk =>
          var ready := CanVisit();
          if ready {
            var values := Visit();
            visit := Some(values);
          }
      }
    }

    /** Over every run of searches, insertions, removals and visits the contents
      * are those of a sorted set, and visits hand out what is stored then. Without
      * removals, every visit ends. */
    method Run(uses: seq<Use<V>>) returns (visits: seq<Option<seq<V>>>)
      requires Valid()
      modifies this, NodeSet(tree)
      ensures Valid() && Contents() == Stored(compare, old(Contents()), uses)
      ensures Handed(compare, old(Contents()), uses, visits)
      ensures old(MaxClear()) && NoneTaken(uses) ==> MaxClear() && AllHanded(uses, visits)
    {
      hide SplayTree.Valid, SplayTree.Contents, SplayTree.ReadyToVisit, StoredNext, Handed, NoneTaken, AllHanded,
           LastClear;
      visits := [];
      NothingHanded(compare, Contents(), uses);
      for i := 0 to |uses|
        invariant Valid() && Contents() == Stored(compare, old(Contents()), uses[..i])
        invariant forall n :: n in NodeSet(tree) && n !in old(NodeSet(tree)) ==> fresh(n)
        invariant Handed(compare, old(Contents()), uses[..i], visits)
        invariant old(MaxClear()) && NoneTaken(uses[..i]) ==> MaxClear() && AllHanded(uses[..i], visits)
      {
        if MaxClear() { ClearIsReady(); }
        ghost var was := Contents();
        var v := UseOnce(uses[i]);
        WalkKeeps(uses[i], was);
        HandedNext(compare, old(Contents()), uses, i, visits, v);
        visits := visits + [v];
      }
      assert uses[..|uses|] == uses;
    }

    lemma WalkKeeps(use: Use<V>, was: seq<V>)
      ensures use.Walk? ==> StoredNext(compare, was, use) == was
    {
    }

    lemma NothingHanded(compare: (V, V) -> int, s: seq<V>, uses: seq<Use<V>>)
      ensures uses[..0] == [] && Handed(compare, s, uses[..0], []) && AllHanded(uses[..0], [])
      ensures Stored(compare, s, uses[..0]) == s
    {
    }

    lemma ClearIsReady()
      requires Valid() && MaxClear()
      ensures ReadyToVisit()
    {
      if tree.Branch? {
        RightmostIsLast(tree);
      }
    }
  }

  lemma {:induction false} RightmostEnds<V>(t: Tree<V>, p: Node?<V>)
    requires t.Branch? && Shape(t, p)
    ensures Rightmost(t).right == null
  {
    ShapeIs(t, p);
    if t.r.Branch? {
      RightmostEnds(t.r, p.right);
    }
  }

  /** A removal keeps the largest value's node clear unless it takes that node
    * and its predecessor holds a thread. */
  lemma ClearAfterRemoval<V>(order: seq<Node<V>>, k: nat)
    requires k < |order| && LastClear(order)
    ensures LastClear(order[..k] + order[k + 1..]) <==> (0 < k == |order| - 1 ==> order[k - 1].threadUp == null)
  {
    var rest := order[..k] + order[k + 1..];
    if k < |order| - 1 {
      assert rest[|rest| - 1] == order[|order| - 1];
    } else if k > 0 {
      assert rest[|rest| - 1] == order[k - 1];
    }
  }

  lemma ExtremeOnTop<V>(compare: (V, V) -> int, t: Tree<V>)
    requires t.Branch? && Sorted(compare, Values(InOrder(t)))
    ensures (forall v :: v in Values(InOrder(t.r)) ==> compare(t.n.data, v) > 0) ==> t.r.Leaf?
    ensures (forall v :: v in Values(InOrder(t.l)) ==> compare(v, t.n.data) > 0) ==> t.l.Leaf?
  {
    var s, k := Values(InOrder(t)), |InOrder(t.l)|;
    assert s[k] == t.n.data;
    if t.r.Branch? {
      assert s[k + 1] == Values(InOrder(t.r))[0];
    }
    if t.l.Branch? {
      assert s[0] == Values(InOrder(t.l))[0];
    }
  }

  /** A new largest value takes the top; a visit then leaves a thread on its
    * predecessor. */
  method VisitBelowMax<V(!new)>(s: SplayTree<V>, x: V) returns (ghost top: Node<V>)
    requires s.Valid() && s.Contents() != []
    requires forall v :: v in s.Contents() ==> s.compare(x, v) > 0
    modifies s, NodeSet(s.tree)
    ensures s.Valid() && fresh(top) && InOrder(s.tree) == old(InOrder(s.tree)) + [top] && top.data == x
    ensures NodeSet(s.tree) == old(NodeSet(s.tree)) + {top} && top !in old(InOrder(s.tree))
    ensures old(InOrder(s.tree)[|InOrder(s.tree)| - 1]).threadUp == top
  {
    hide TotalOrder, InOrder, Values, Sorted, Inserted, LastClear, Threaded;
    ghost var order := InOrder(s.tree);
    var r := s.Insert(x);
    top := s.head;
    ValuesConcat(InOrder(s.tree.l), InOrder(s.tree.r));
    ExtremeOnTop(s.compare, s.tree);
    TopLast(s.tree);
    OrderSet(s.tree.l);
    var values := s.Visit();
    ShapeIs(s.tree, top);
    BelowTop(s.tree, top);
    ThreadedAt(InOrder(s.tree), |order| - 1, null);
  }

  /** Nothing right of the top: the top is the last node, */
  lemma TopLast<V>(t: Tree<V>)
    requires t.Branch? && t.r.Leaf?
    ensures InOrder(t) == InOrder(t.l) + [t.n] && InOrder(t.l) + InOrder(t.r) == InOrder(t.l)
  {
    assert InOrder(t.r) == [];
  }

  /** ... and before it comes the last node of its left subtree. */
  lemma BelowTop<V>(t: Tree<V>, top: Node<V>)
    requires t.Branch? && t.r.Leaf? && InOrder(t.l) != [] && Shape(t, top)
    ensures var k := |InOrder(t.l)|;
            |InOrder(t)| == k + 1 && InOrder(t)[k - 1].right == null && InOrder(t)[k] == t.n
  {
    TopLast(t);
    ShapeIs(t, top);
    RightmostIsLast(t.l);
    RightmostEnds(t.l, top.left);
    hide InOrder;
    assert InOrder(t)[|InOrder(t.l)| - 1] == InOrder(t.l)[|InOrder(t.l)| - 1];
  }

  lemma ThreadedAt<V>(s: seq<Node<V>>, i: nat, end: Node?<V>)
    requires i < |s| && Threaded(s, |s|, end) && s[i].right == null
    ensures s[i].threadUp == Successor(s, i, end)
  {
  }

  method RemoveLargest<V(!new)>(s: SplayTree<V>, x: V)
    requires s.Valid() && s.Contents() != [] && s.Contents()[|s.Contents()| - 1] == x
    modifies s, NodeSet(s.tree)`left, NodeSet(s.tree)`right
    ensures s.Valid() && NodeSet(s.tree) <= old(NodeSet(s.tree))
    ensures InOrder(s.tree) == old(InOrder(s.tree)[..|InOrder(s.tree)| - 1])
  {
    hide TotalOrder, Sorted, Without, InOrder;
    ghost var order := InOrder(s.tree);
    LastFound(s.compare, x, order);
    ghost var found, k := s.Remove(x);
    assert order[..k] + order[k + 1..] == order[..|order| - 1];
  }

  method AddSmallest<V(!new)>(s: SplayTree<V>, y: V)
    requires s.Valid() && forall v :: v in s.Contents() ==> s.compare(y, v) < 0
    modifies s, NodeSet(s.tree)`left, NodeSet(s.tree)`right
    ensures s.Valid() && s.head != null && fresh(s.head) && s.head.data == y && s.head.threadUp == null
    ensures InOrder(s.tree) == [s.head] + old(InOrder(s.tree))
  {
    hide TotalOrder, Sorted, Inserted, InOrder, Values, LastClear;
    ghost var order := InOrder(s.tree);
    var r := s.Insert(y);
    SmallestOnTop(s.compare, y, s.tree, order);
  }

  lemma SmallestOnTop<V(!new)>(compare: (V, V) -> int, y: V, t: Tree<V>, order: seq<Node<V>>)
    requires TotalOrder(compare) && t.Branch? && Sorted(compare, Values(InOrder(t))) && t.n.data == y
    requires InOrder(t.l) + InOrder(t.r) == order && forall v :: v in Values(order) ==> compare(y, v) < 0
    ensures InOrder(t) == [t.n] + order
  {
    hide TotalOrder, Sorted;
    ValuesConcat(InOrder(t.l), InOrder(t.r));
    SmallestFirst(compare, y, t);
    LeafFirst(t);
  }

  lemma LeafFirst<V>(t: Tree<V>)
    requires t.Branch? && t.l.Leaf?
    ensures InOrder(t) == [t.n] + (InOrder(t.l) + InOrder(t.r))
  {
    assert InOrder(t.l) == [];
  }

  /** Removing the largest value keeps the leftover thread; a new smallest value
    * takes the top from its node. */
  method ReplaceMaxByMin<V(!new)>(s: SplayTree<V>, x: V, y: V)
    requires s.Valid() && |s.Contents()| > 1 && s.Contents()[|s.Contents()| - 1] == x
    requires forall v :: v in s.Contents() ==> s.compare(y, v) < 0
    modifies s, NodeSet(s.tree)`left, NodeSet(s.tree)`right
    ensures s.Valid() && s.head != null && fresh(s.head) && s.head.data == y && s.head.threadUp == null
    ensures InOrder(s.tree) == [s.head] + old(InOrder(s.tree)[..|InOrder(s.tree)| - 1])
  {
    PrefixValues(InOrder(s.tree), |InOrder(s.tree)| - 1);
    hide InOrder, Values, TotalOrder, Sorted;
    RemoveLargest(s, x);
    AddSmallest(s, y);
  }

  lemma OneValue<V>(n: Node<V>)
    ensures Values([n]) == [n.data]
  {
  }

  lemma PrefixValues<V>(order: seq<Node<V>>, k: nat)
    requires k <= |order|
    ensures forall v :: v in Values(order[..k]) ==> v in Values(order)
  {
    forall v | v in Values(order[..k]) ensures v in Values(order) {
      var i :| 0 <= i < k && Values(order[..k])[i] == v;
      assert Values(order)[i] == v;
    }
  }

  lemma LastFound<V(!new)>(compare: (V, V) -> int, x: V, order: seq<Node<V>>)
    requires TotalOrder(compare) && Sorted(compare, Values(order)) && order != [] && order[|order| - 1].data == x
    ensures compare(x, x) == 0 && x in Values(order)
    ensures forall k :: 0 <= k < |order| && compare(x, order[k].data) == 0 ==> k == |order| - 1
  {
    assert Values(order)[|order| - 1] == x;
    forall k | 0 <= k < |order| - 1 ensures compare(x, order[k].data) > 0 {
      assert compare(Values(order)[k], Values(order)[|order| - 1]) < 0;
    }
  }

  lemma SmallestFirst<V(!new)>(compare: (V, V) -> int, y: V, t: Tree<V>)
    requires TotalOrder(compare) && t.Branch? && Sorted(compare, Values(InOrder(t))) && t.n.data == y
    requires forall v :: v in Values(InOrder(t.l)) ==> compare(y, v) < 0
    ensures t.l.Leaf?
  {
    assert forall v :: v in Values(InOrder(t.l)) ==> compare(v, y) > 0;
    hide TotalOrder;
    ExtremeOnTop(compare, t);
  }

  /** On any tree that is not empty, adding a largest value, visiting, removing
    * that value and adding a smallest one leaves a tree whose visits do not
    * end: the last node's thread leads to the removed node. */
  method LeftoverThread<V(!new)>(s: SplayTree<V>, x: V, y: V)
    requires s.Valid() && s.Contents() != []
    requires forall v :: v in s.Contents() ==> s.compare(x, v) > 0 && s.compare(y, v) < 0
    requires s.compare(y, x) < 0
    modifies s, NodeSet(s.tree)
    ensures s.Valid() && s.Contents() == [y] + old(s.Contents())
    ensures s.tree.Branch? && Rightmost(s.tree).threadUp != null && Rightmost(s.tree).threadUp !in InOrder(s.tree)
    ensures !s.ReadyToVisit()
  {
    hide TotalOrder, InOrder, Values, Sorted;
    ghost var order := InOrder(s.tree);
    ghost var top := VisitBelowMax(s, x);
    ghost var order1 := InOrder(s.tree);
    ValuesConcat(order, [top]);
    OneValue(top);
    assert s.Contents() == Values(order) + [x];
    ReplaceMaxByMin(s, x, y);
    assert order1[..|order1| - 1] == order;
    ValuesConcat([s.head], order);
    OneValue(s.head);
    RightmostIsLast(s.tree);
    assert InOrder(s.tree)[|order|] == order[|order| - 1];
  }
}
