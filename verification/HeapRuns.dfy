/** Whole runs of a heap, whose contents follow from what its callers did. */
module HeapRuns {
  import opened Wrappers
  import opened Sequences
  import opened Heaps = Heap

  /** What callers do with a heap. They name a node by the number of its insertion. */
  datatype Use<D> =
    | Put(data: D) | Take(n: nat) | Change(n: nat, data: D) | TakeMin | TakeLast | Older(age: real)

  /** The node that left the heap, if one did, and the data that was returned. */
  datatype Outcome<D> = Outcome(gone: Option<nat>, data: Option<D>)

  datatype Item<D> = Item(key: real, data: D)

  /** What a heap should contain. */
  datatype Store<D> = Store(items: map<nat, Item<D>>, count: nat, age: real)

  /** What is there after a use: everything that was put and not taken, as last changed. */
  function Next<D>(genKey: (D, real) -> real, s: Store<D>, u: Use<D>, gone: Option<nat>): Store<D> {
    match u
    case Put(d) => Store(s.items[s.count := Item(genKey(d, s.age), d)], s.count + 1, s.age)
    case Change(n, d) => if n in s.items then s.(items := s.items[n := Item(genKey(d, s.age), d)]) else s
    case Older(a) => s.(age := a)
    case _ => if gone.Some? then s.(items := s.items - {gone.value}) else s
  }

  ghost predicate Least<D>(items: map<nat, Item<D>>, n: nat) {
    n in items && forall m :: m in items ==> items[n].key <= items[m].key
  }

  /** What a use should return. */
  ghost predicate Right<D>(s: Store<D>, u: Use<D>, o: Outcome<D>) {
    match u
    case Take(n) => o == if n in s.items then Outcome(Some(n), Some(s.items[n].data)) else Outcome(None, None)
    case Change(n, _) => o == if n in s.items then Outcome(None, Some(s.items[n].data)) else Outcome(None, None)
    case TakeMin =>
      if s.items == map[] then o == Outcome(None, None)
      else o.gone.Some? && Least(s.items, o.gone.value) && o.data == Some(s.items[o.gone.value].data)
    case TakeLast =>
      if s.items == map[] then o == Outcome(None, None)
      else o.gone.Some? && o.gone.value in s.items && o.data == Some(s.items[o.gone.value].data)
    case _ => o == Outcome(None, None)
  }

  /** What is there after some uses of an empty heap. */
  function After<D>(genKey: (D, real) -> real, uses: seq<Use<D>>, outs: seq<Outcome<D>>): Store<D>
    requires |uses| == |outs|
  {
    if uses == [] then Store(map[], 0, 0.0)
    else
      var n := |uses| - 1;
      Next(genKey, After(genKey, uses[..n], outs[..n]), uses[n], outs[n].gone)
  }

  ghost predicate AllRight<D>(genKey: (D, real) -> real, uses: seq<Use<D>>, outs: seq<Outcome<D>>) {
    && |uses| == |outs|
    && forall i :: 0 <= i < |uses| ==> Right(After(genKey, uses[..i], outs[..i]), uses[i], outs[i])
  }

  lemma NothingDone<D>(genKey: (D, real) -> real, uses: seq<Use<D>>)
    ensures AllRight(genKey, uses[..0], []) && After(genKey, uses[..0], []) == Store(map[], 0, 0.0)
  {
  }

  lemma RightNext<D>(genKey: (D, real) -> real, uses: seq<Use<D>>, n: nat, outs: seq<Outcome<D>>, o: Outcome<D>)
    requires n == |outs| < |uses| && AllRight(genKey, uses[..n], outs)
    requires Right(After(genKey, uses[..n], outs), uses[n], o)
    ensures AllRight(genKey, uses[..n + 1], outs + [o])
    ensures After(genKey, uses[..n + 1], outs + [o]) == Next(genKey, After(genKey, uses[..n], outs), uses[n], o.gone)
  {
    hide Right, After;
    AfterNext(genKey, uses, n, outs, o);
    forall i | 0 <= i < n + 1
      ensures Right(After(genKey, uses[..n + 1][..i], (outs + [o])[..i]), uses[..n + 1][i], (outs + [o])[i])
    {
      assert uses[..n + 1][..i] == uses[..i] && uses[..n + 1][i] == uses[i];
      if i < n {
        assert (outs + [o])[..i] == outs[..i];
        RightBefore(genKey, uses, n, outs, i);
      } else {
        assert (outs + [o])[..i] == outs;
      }
    }
  }

  lemma RightBefore<D>(genKey: (D, real) -> real, uses: seq<Use<D>>, n: nat, outs: seq<Outcome<D>>, i: nat)
    requires i < n == |outs| <= |uses| && AllRight(genKey, uses[..n], outs)
    ensures Right(After(genKey, uses[..i], outs[..i]), uses[i], outs[i])
  {
    hide Right, After;
    assert uses[..n][..i] == uses[..i] && uses[..n][i] == uses[i];
  }

  lemma AfterNext<D>(genKey: (D, real) -> real, uses: seq<Use<D>>, n: nat, outs: seq<Outcome<D>>, o: Outcome<D>)
    requires n == |outs| < |uses|
    ensures After(genKey, uses[..n + 1], outs + [o]) == Next(genKey, After(genKey, uses[..n], outs), uses[n], o.gone)
  {
    hide Next;
    assert uses[..n + 1][..n] == uses[..n] && (outs + [o])[..n] == outs;
  }

  /** Minima that are taken one after the other do not get smaller. */
  lemma MinimaAscend<D>(genKey: (D, real) -> real, uses: seq<Use<D>>, outs: seq<Outcome<D>>, i: nat)
    requires AllRight(genKey, uses, outs) && i + 1 < |uses| && uses[i].TakeMin? && uses[i + 1].TakeMin?
    requires outs[i + 1].gone.Some?
    ensures var items := After(genKey, uses[..i], outs[..i]).items;
      && outs[i].gone.Some? && outs[i].gone.value in items && outs[i + 1].gone.value in items
      && outs[i].gone.value != outs[i + 1].gone.value
      && items[outs[i].gone.value].key <= items[outs[i + 1].gone.value].key
  {
    assert uses[..i + 1][..i] == uses[..i] && outs[..i + 1][..i] == outs[..i];
    assert Right(After(genKey, uses[..i], outs[..i]), uses[i], outs[i]);
    assert Right(After(genKey, uses[..i + 1], outs[..i + 1]), uses[i + 1], outs[i + 1]);
  }

  // --- The heap keeps what it should ---

  ghost function Items<D>(handles: seq<Node<D>>): (r: seq<Item<D>>)
    reads SetOf(handles)`key, SetOf(handles)`data
    ensures |r| == |handles|
    ensures forall i :: 0 <= i < |handles| ==> r[i] == Item(handles[i].key, handles[i].data)
  {
    if handles == [] then []
    else
      var n := |handles| - 1;
      Items(handles[..n]) + [Item(handles[n].key, handles[n].data)]
  }

  /** The nodes of a heap are those of the store; `handles` has all nodes ever put,
    * and `now` what they hold. */
  ghost predicate Tracks<D>(elements: seq<Node<D>>, handles: seq<Node<D>>, now: seq<Item<D>>, s: Store<D>) {
    && NoRepeats(handles) && |handles| == |now| == s.count && |elements| == |s.items|
    && (forall e :: e in elements ==> e in handles)
    && (forall n :: n in s.items ==> n < s.count)
    && (forall n :: 0 <= n < |handles| ==> (handles[n] in elements <==> n in s.items))
    && (forall n :: n in s.items ==> n < |now| && now[n] == s.items[n])
  }

  lemma SameMembers<T>(s: seq<T>, t: set<T>)
    requires SetOf(s) == t
    ensures forall x :: x in s <==> x in t
  {
    forall x ensures x in s <==> x in t {
      assert x in s <==> x in SetOf(s);
    }
  }

  lemma TracksPut<D>(elements: seq<Node<D>>, handles: seq<Node<D>>, now: seq<Item<D>>, s: Store<D>,
                     elements': seq<Node<D>>, e: Node<D>, item: Item<D>)
    requires Tracks(elements, handles, now, s) && e !in handles
    requires SetOf(elements') == SetOf(elements) + {e} && |elements'| == |elements| + 1
    ensures Tracks(elements', handles + [e], now + [item], Store(s.items[s.count := item], s.count + 1, s.age))
  {
    assert s.count !in s.items;
    SameMembers(elements', SetOf(elements) + {e});
    SameMembers(elements, SetOf(elements));
  }

  lemma TracksTake<D>(elements: seq<Node<D>>, handles: seq<Node<D>>, now: seq<Item<D>>, s: Store<D>,
                      elements': seq<Node<D>>, n: nat)
    requires Tracks(elements, handles, now, s) && n in s.items && n < |handles|
    requires SetOf(elements') == SetOf(elements) - {handles[n]} && |elements'| == |elements| - 1
    ensures Tracks(elements', handles, now, s.(items := s.items - {n}))
  {
    SameMembers(elements', SetOf(elements) - {handles[n]});
    SameMembers(elements, SetOf(elements));
    RemovedOne(s.items, n);
  }

  lemma RemovedOne<K, V>(m: map<K, V>, k: K)
    requires k in m
    ensures |m - {k}| == |m| - 1
  {
    assert (m - {k})[k := m[k]] == m;
  }

  lemma TracksChange<D>(elements: seq<Node<D>>, handles: seq<Node<D>>, now: seq<Item<D>>, s: Store<D>,
                        elements': seq<Node<D>>, n: nat, item: Item<D>)
    requires Tracks(elements, handles, now, s) && n in s.items && n < |now|
    requires SetOf(elements') == SetOf(elements) && |elements'| == |elements|
    ensures Tracks(elements', handles, now[n := item], s.(items := s.items[n := item]))
  {
    SameMembers(elements', SetOf(elements));
    SameMembers(elements, SetOf(elements));
    SameSize(s.items, n, item);
  }

  lemma SameSize<K, V>(m: map<K, V>, k: K, v: V)
    requires k in m
    ensures |m[k := v]| == |m|
  {
    assert m[k := v].Keys == m.Keys;
  }

  /** A node of the heap has a number. */
  lemma Numbers<D>(elements: seq<Node<D>>, handles: seq<Node<D>>, now: seq<Item<D>>, s: Store<D>)
    requires Tracks(elements, handles, now, s)
    ensures |handles| == |now| && |elements| == |s.items|
    ensures forall e :: e in elements ==> e in handles
    ensures forall n :: n in s.items ==> n < |handles| && handles[n] in elements && now[n] == s.items[n]
    ensures forall n :: 0 <= n < |handles| && handles[n] in elements ==> n in s.items
    ensures forall i, j :: 0 <= i < j < |handles| ==> handles[i] != handles[j]
  {
  }

  ghost predicate Holds<D(!new)>(h: Heap<D>, handles: seq<Node<D>>, s: Store<D>)
    reads h, h.nodes, SetOf(h.elements)`id, SetOf(h.elements)`key, SetOf(handles)`key, SetOf(handles)`data
  {
    h.Valid() && h.Ordered() && h.age == s.age && Tracks(h.elements, handles, Items(handles), s)
  }

  method PutOne<D(!new)>(h: Heap<D>, handles: seq<Node<D>>, s: Store<D>, d: D) returns (handles': seq<Node<D>>)
    requires Holds(h, handles, s)
    modifies h`elements, h`nodes, h`last, h.nodes, SetOf(h.elements)`id
    ensures Holds(h, handles', Next(h.genKey, s, Put(d), None))
    ensures handles <= handles' && forall e :: e in handles' ==> e in handles || fresh(e)
    ensures fresh(h.nodes) || h.nodes == old(h.nodes)
  {
    hide Heap.Valid, Heap.Ordered, Tracks, Items;
    ghost var was, now := h.elements, Items(handles);
    var elm := h.Insert(d);
    handles' := handles + [elm];
    assert Items(handles') == now + [Item(elm.key, d)];
    TracksPut(was, handles, now, s, h.elements, elm, Item(elm.key, d));
  }

  method TakeOne<D(!new)>(h: Heap<D>, handles: seq<Node<D>>, s: Store<D>, n: nat) returns (data: D)
    requires Holds(h, handles, s) && n in s.items
    modifies h`elements, h`last, h.nodes, SetOf(h.elements)`id
    ensures Holds(h, handles, s.(items := s.items - {n})) && data == s.items[n].data
  {
    hide Heap.Valid, Heap.Ordered, Tracks, Items;
    ghost var was, now := h.elements, Items(handles);
    Numbers(was, handles, now, s);
    data := h.Delete(handles[n]);
    assert Items(handles) == now;
    TracksTake(was, handles, now, s, h.elements, n);
  }

  method ChangeOne<D(!new)>(h: Heap<D>, handles: seq<Node<D>>, s: Store<D>, n: nat, d: D) returns (data: D)
    requires Holds(h, handles, s) && n in s.items
    modifies h`elements, h.nodes, SetOf(h.elements)`id, SetOf(handles)`key, SetOf(handles)`data
    ensures Holds(h, handles, Next(h.genKey, s, Change(n, d), None)) && data == s.items[n].data
  {
    hide Heap.Valid, Heap.Ordered, Tracks, Items;
    ghost var was, now := h.elements, Items(handles);
    Numbers(was, handles, now, s);
    data := h.Update(handles[n], d);
    assert Items(handles) == now[n := Item(handles[n].key, d)];
    TracksChange(was, handles, now, s, h.elements, n, Item(handles[n].key, d));
  }

  /** The number of the node at a position. */
  method NumberAt<D(!new)>(h: Heap<D>, handles: seq<Node<D>>, s: Store<D>, id: nat) returns (n: nat)
    requires Holds(h, handles, s) && id < h.last
    ensures Holds(h, handles, s) && h.last == |h.elements|
    ensures n in s.items && n < |handles| && handles[n] == h.elements[id]
  {
    hide Heap.Ordered, Tracks, Items;
    Numbers(h.elements, handles, Items(handles), s);
    assert h.elements[id] in h.elements;
    var node := h.nodes[id];
    n :| n < |handles| && handles[n] == node;
  }

  lemma Sizes<D(!new)>(h: Heap<D>, handles: seq<Node<D>>, s: Store<D>)
    requires Holds(h, handles, s)
    ensures h.last == |h.elements| == |s.items| && (h.last == 0 <==> s.items == map[])
  {
    hide Heap.Ordered;
  }

  /** A node with the smallest key in the heap has the smallest key in the store. */
  lemma LeastTracked<D>(elements: seq<Node<D>>, handles: seq<Node<D>>, now: seq<Item<D>>, s: Store<D>, n: nat)
    requires Tracks(elements, handles, now, s) && n in s.items && n < |now|
    requires forall m :: 0 <= m < |now| && m < |handles| && handles[m] in elements ==> now[n].key <= now[m].key
    ensures Least(s.items, n)
  {
  }

  /** Takes the root, given its number. */
  method TakeRoot<D(!new)>(h: Heap<D>, handles: seq<Node<D>>, s: Store<D>, ghost n: nat) returns (data: Option<D>)
    requires Holds(h, handles, s) && n in s.items && n < |handles| && h.elements != [] && handles[n] == h.elements[0]
    modifies h`elements, h`last, h.nodes, SetOf(h.elements)`id
    ensures Holds(h, handles, s.(items := s.items - {n})) && data == Some(s.items[n].data) && Least(s.items, n)
  {
    hide Heap.Valid, Heap.Ordered, Tracks, Items;
    ghost var was, now := h.elements, Items(handles);
    Numbers(was, handles, now, s);
    data := h.ExtractMin();
    assert Items(handles) == now;
    LeastTracked(was, handles, now, s, n);
    TracksTake(was, handles, now, s, h.elements, n);
  }

  method TakeMinimum<D(!new)>(h: Heap<D>, handles: seq<Node<D>>, s: Store<D>) returns (o: Outcome<D>)
    requires Holds(h, handles, s)
    modifies h`elements, h`last, h.nodes, SetOf(h.elements)`id
    ensures Holds(h, handles, Next(h.genKey, s, TakeMin, o.gone)) && Right(s, TakeMin, o)
  {
    hide Holds, Least;
    Sizes(h, handles, s);
    if h.last == 0 {
      return Outcome(None, None);
    }
    var n := NumberAt(h, handles, s, 0);
    var data := TakeRoot(h, handles, s, n);
    o := Outcome(Some(n), data);
  }

  /** Takes the last node, given its number. */
  method TakeLeaf<D(!new)>(h: Heap<D>, handles: seq<Node<D>>, s: Store<D>, ghost n: nat) returns (data: D)
    requires Holds(h, handles, s) && n in s.items && n < |handles| && 0 < h.last == |h.elements|
    requires handles[n] == h.elements[h.last - 1]
    modifies h`elements, h`last
    ensures Holds(h, handles, s.(items := s.items - {n})) && data == s.items[n].data
  {
    hide Heap.Valid, Heap.Ordered, Tracks, Items;
    ghost var was, now := h.elements, Items(handles);
    Numbers(was, handles, now, s);
    h.LastOnce();
    data := h.ExtractLast();
    assert Items(handles) == now;
    TracksTake(was, handles, now, s, h.elements, n);
  }

  method TakeFinal<D(!new)>(h: Heap<D>, handles: seq<Node<D>>, s: Store<D>) returns (o: Outcome<D>)
    requires Holds(h, handles, s)
    modifies h`elements, h`last
    ensures Holds(h, handles, Next(h.genKey, s, TakeLast, o.gone)) && Right(s, TakeLast, o)
  {
    hide Holds;
    Sizes(h, handles, s);
    if h.last == 0 {
      return Outcome(None, None);
    }
    var n := NumberAt(h, handles, s, h.last - 1);
    var data := TakeLeaf(h, handles, s, n);
    o := Outcome(Some(n), Some(data));
  }

  method Age<D(!new)>(h: Heap<D>, handles: seq<Node<D>>, s: Store<D>, age: real)
    requires Holds(h, handles, s)
    modifies h`age
    ensures Holds(h, handles, s.(age := age))
  {
    hide HeapOrdered, Keys;
    h.age := age;
  }

  /** One use of the heap. A node that is not in the heap is not taken or changed. */
  method UseOnce<D(!new)>(h: Heap<D>, handles: seq<Node<D>>, s: Store<D>, u: Use<D>)
    returns (handles': seq<Node<D>>, o: Outcome<D>)
    requires Holds(h, handles, s)
    modifies h, h.nodes, SetOf(handles)
    ensures Holds(h, handles', Next(h.genKey, s, u, o.gone)) && Right(s, u, o)
    ensures handles <= handles' && forall e :: e in handles' ==> e in handles || fresh(e)
    ensures fresh(h.nodes) || h.nodes == old(h.nodes)
  {
    hide Holds, Least;
    Inside(h, handles, s);
    handles', o := handles, Outcome(None, None);
    match u {
      case Put(d) => handles' := PutOne(h, handles, s, d);
      case Take(n) =>
        if n in s.items {
          var data := TakeOne(h, handles, s, n);
          o := Outcome(Some(n), Some(data));
        }
      case Change(n, d) =>
        if n in s.items {
          var data := ChangeOne(h, handles, s, n, d);
          o := Outcome(None, Some(data));
        }
      case TakeMin => o := TakeMinimum(h, handles, s);
      case TakeLast => o := TakeFinal(h, handles, s);
      case Older(a) => Age(h, handles, s, a);
    }
  }

  lemma Inside<D(!new)>(h: Heap<D>, handles: seq<Node<D>>, s: Store<D>)
    requires Holds(h, handles, s)
    ensures forall e :: e in h.elements ==> e in handles
  {
  }

  /** In every run of a heap, its order holds, every node knows its position, its
    * contents are what was put and not taken, as last changed, and what is taken as
    * the minimum is one. */
  method Run<D(!new)>(initSize: int, genKey: (D, real) -> real, uses: seq<Use<D>>)
    returns (h: Heap<D>, handles: seq<Node<D>>, outs: seq<Outcome<D>>)
    ensures AllRight(genKey, uses, outs) && Holds(h, handles, After(genKey, uses, outs))
  {
    hide Holds, Right, Next, AllRight, After;
    h := new Heap(initSize, genKey);
    handles, outs := [], [];
    var s: Store<D> := Store(map[], 0, 0.0);
    Started(h);
    NothingDone(genKey, uses);
    for i := 0 to |uses|
      invariant fresh(h) && fresh(h.nodes) && h.genKey == genKey && forall e :: e in handles ==> fresh(e)
      invariant |outs| == i && AllRight(genKey, uses[..i], outs)
      invariant s == After(genKey, uses[..i], outs) && Holds(h, handles, s)
    {
      var o: Outcome<D>;
      handles, o := UseOnce(h, handles, s, uses[i]);
      RightNext(genKey, uses, i, outs, o);
      s := Next(genKey, s, uses[i], o.gone);
      outs := outs + [o];
    }
    assert uses[..|uses|] == uses;
  }

  lemma Started<D(!new)>(h: Heap<D>)
    requires h.Valid() && h.Ordered() && h.elements == [] && h.age == 0.0
    ensures Holds(h, [], Store(map[], 0, 0.0))
  {
  }
}
