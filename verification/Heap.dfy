/** A binary heap of nodes that know their own position. */
module Heap {
  import opened Wrappers
  import opened Sequences

  const THRESHOLD := 10000
  const MIN_SIZE := 32

  function Parent(i: nat): nat {
    if i == 0 then 0 else (i - 1) / 2
  }

  function Left(i: nat): nat {
    2 * i + 1
  }

  function Right(i: nat): nat {
    2 * i + 2
  }

  // --- Heap order on the keys by position ---

  ghost predicate HeapOrdered(k: seq<real>) {
    forall i :: 0 < i < |k| ==> k[Parent(i)] <= k[i]
  }

  /** The children of a position are not below its parent. */
  ghost predicate Bridged(k: seq<real>, p: nat) {
    forall i :: 0 < i < |k| && Parent(i) == p && 0 < p < |k| ==> k[Parent(p)] <= k[i]
  }

  /** Order can be violated only between a position and its parent. */
  ghost predicate OrderedButUp(k: seq<real>, p: nat) {
    Bridged(k, p) && forall i :: 0 < i < |k| && i != p ==> k[Parent(i)] <= k[i]
  }

  /** Order can be violated only between a position and its children. */
  ghost predicate OrderedButDown(k: seq<real>, p: nat) {
    Bridged(k, p) && forall i :: 0 < i < |k| && Parent(i) != p ==> k[Parent(i)] <= k[i]
  }

  /** Order can be violated only at a position, in either direction. */
  ghost predicate OrderedBut(k: seq<real>, p: nat) {
    Bridged(k, p) && forall i :: 0 < i < |k| && i != p && Parent(i) != p ==> k[Parent(i)] <= k[i]
  }

  function Swapped<T>(s: seq<T>, i: nat, j: nat): seq<T>
    requires i < |s| && j < |s|
  {
    s[i := s[j]][j := s[i]]
  }

  lemma PromotedUp(k: seq<real>, p: nat)
    requires OrderedButUp(k, p) && 0 < p < |k| && k[p] < k[Parent(p)]
    ensures OrderedButUp(Swapped(k, Parent(p), p), Parent(p))
  {
  }

  lemma SettledUp(k: seq<real>, p: nat)
    requires OrderedButUp(k, p) && p < |k| && (p > 0 ==> k[Parent(p)] <= k[p])
    ensures HeapOrdered(k)
  {
  }

  ghost predicate SmallestChild(k: seq<real>, p: nat, c: nat) {
    && (c == Left(p) || c == Right(p)) && c < |k|
    && (Left(p) < |k| ==> k[c] <= k[Left(p)])
    && (Right(p) < |k| ==> k[c] <= k[Right(p)])
  }

  lemma DemotedDown(k: seq<real>, p: nat, c: nat)
    requires OrderedButDown(k, p) && p < |k| && SmallestChild(k, p, c) && k[c] < k[p]
    ensures OrderedButDown(Swapped(k, c, p), c) && p < c
  {
    ChildrenOf(p);
  }

  lemma ChildrenOf(p: nat)
    ensures forall i: nat :: 0 < i && Parent(i) == p ==> i == Left(p) || i == Right(p)
    ensures Parent(Left(p)) == p && Parent(Right(p)) == p
  {
  }

  lemma SettledDown(k: seq<real>, p: nat, c: nat)
    requires OrderedButDown(k, p) && p < |k| && SmallestChild(k, p, c) && k[p] <= k[c]
    ensures HeapOrdered(k)
  {
    ChildrenOf(p);
  }

  lemma SettledAtBottom(k: seq<real>, p: nat)
    requires OrderedButDown(k, p) && |k| <= Left(p)
    ensures HeapOrdered(k)
  {
    assert forall i :: 0 < i < |k| ==> Parent(i) != p;
  }

  lemma UpOrDown(k: seq<real>, p: nat)
    requires OrderedBut(k, p) && p < |k|
    ensures k[p] < k[Parent(p)] ==> OrderedButUp(k, p)
    ensures k[p] >= k[Parent(p)] ==> OrderedButDown(k, p)
  {
  }

  lemma OrderedNeedsNothing(k: seq<real>, p: nat)
    requires HeapOrdered(k)
    ensures OrderedButDown(k, p)
  {
  }

  lemma ReplacedKey(k: seq<real>, p: nat, key: real)
    requires HeapOrdered(k) && p < |k|
    ensures OrderedBut(k[p := key], p)
  {
  }

  /** Moving the last key to another position. */
  lemma LastMoved(k: seq<real>, p: nat)
    requires HeapOrdered(k) && p < |k| - 1
    ensures OrderedBut(k[p := k[|k| - 1]][..|k| - 1], p)
  {
    ReplacedKey(k, p, k[|k| - 1]);
  }

  lemma AppendedKey(k: seq<real>, key: real)
    requires HeapOrdered(k)
    ensures OrderedButUp(k + [key], |k|)
  {
  }

  lemma {:induction false} RootIsMinimum(k: seq<real>, i: nat)
    requires HeapOrdered(k) && i < |k|
    ensures k[0] <= k[i]
  {
    if i > 0 {
      RootIsMinimum(k, Parent(i));
    }
  }

  // --- The heap ---

  class Node<D> {
    var key: real
    var id: nat
    var data: D

    constructor (key: real, data: D)
      ensures this.key == key && this.data == data
    {
      this.key, this.data, id := key, data, 0;
    }
  }

  ghost function Keys<D>(s: seq<Node<D>>): (k: seq<real>)
    reads SetOf(s)`key
    ensures |k| == |s|
    ensures forall i :: 0 <= i < |s| ==> k[i] == s[i].key
  {
    if s == [] then [] else Keys(s[..|s| - 1]) + [s[|s| - 1].key]
  }

  /** Every node knows its own position. */
  ghost predicate Numbered<D>(s: seq<Node<D>>)
    reads SetOf(s)`id
  {
    forall i :: 0 <= i < |s| ==> s[i].id == i
  }

  class Heap<D(!new)> {
    const genKey: (D, real) -> real
    var age: real
    var nodes: array<Node?<D>>
    var last: nat
    ghost var elements: seq<Node<D>>

    ghost predicate Valid()
      reads this, nodes, SetOf(elements)`id
    {
      && 0 < nodes.Length && last == |elements| <= nodes.Length
      && (forall i :: 0 <= i < last ==> nodes[i] == elements[i])
      && Numbered(elements)
    }

    ghost predicate Ordered()
      reads this, SetOf(elements)`key
    {
      HeapOrdered(Keys(elements))
    }

    constructor (initSize: int, genKey: (D, real) -> real)
      ensures Valid() && Ordered() && elements == [] && age == 0.0 && this.genKey == genKey && fresh(nodes)
      ensures nodes.Length == if initSize <= 0 then MIN_SIZE else initSize
    {
      var size := if initSize <= 0 then MIN_SIZE else initSize;
      this.genKey := genKey;
      nodes := new Node?<D>[size](_ => null);
      last, age, elements := 0, 0.0, [];
    }

    /** Exchanges the positions of two nodes. */
    method SwapElement(a: Node<D>, b: Node<D>)
      requires Valid() && a in elements && b in elements
      modifies this`elements, nodes, a`id, b`id
      ensures Valid() && last == old(last)
      ensures elements == Swapped(old(elements), old(a.id), old(b.id))
      ensures a.id == old(b.id) && b.id == old(a.id)
    {
      var aId := a.id;
      a.id := b.id;
      b.id := aId;
      nodes[a.id] := a;
      nodes[b.id] := b;
      elements := Swapped(elements, aId, a.id);
    }

    /** Keys follow their nodes. */
    method SwapKeys(a: Node<D>, b: Node<D>)
      requires Valid() && a in elements && b in elements
      modifies this`elements, nodes, a`id, b`id
      ensures Valid() && last == old(last) && SetOf(elements) == old(SetOf(elements))
      ensures Keys(elements) == Swapped(old(Keys(elements)), old(a.id), old(b.id))
      ensures a in elements && b in elements
      ensures a.id == old(b.id) && b.id == old(a.id)
    {
      ghost var s := elements;
      SwapElement(a, b);
      SwappedSet(s, b.id, a.id);
      assert elements[a.id] == a && elements[b.id] == b;
    }

    predicate NodeExists(id: nat)
      reads this, nodes
    {
      id < last && id < nodes.Length && nodes[id] != null
    }

    method IfyUp(elm: Node<D>)
      requires Valid() && elm in elements && OrderedButUp(Keys(elements), elm.id)
      modifies this`elements, nodes, SetOf(elements)`id
      ensures Valid() && Ordered() && last == old(last) && SetOf(elements) == old(SetOf(elements)) && elm in elements
    {
      hide OrderedButUp, Ordered, Valid;
      var more := elm.id > 0;
      if !more { Settled(elm); }
      while more
        invariant Valid() && elm in elements && last == old(last) && SetOf(elements) == old(SetOf(elements))
        invariant if more then elm.id > 0 && OrderedButUp(Keys(elements), elm.id) else Ordered()
        decreases more, elm.id
      {
        more := Promote(elm);
      }
    }

    lemma Settled(elm: Node<D>)
      requires Valid() && elm in elements && OrderedButUp(Keys(elements), elm.id)
      requires elm.id == 0 || elements[Parent(elm.id)].key <= elm.key
      ensures Ordered()
    {
      hide OrderedButUp, HeapOrdered;
      SettledUp(Keys(elements), elm.id);
    }

    /** Moves a node up by one place, if its key is smaller than that of its parent. */
    method Promote(elm: Node<D>) returns (more: bool)
      requires Valid() && elm in elements && OrderedButUp(Keys(elements), elm.id) && elm.id > 0
      modifies this`elements, nodes, SetOf(elements)`id
      ensures Valid() && elm in elements && last == old(last) && SetOf(elements) == old(SetOf(elements))
      ensures if more then 0 < elm.id < old(elm.id) && OrderedButUp(Keys(elements), elm.id) else Ordered()
    {
      hide OrderedButUp, HeapOrdered, Ordered;
      var parentNode := nodes[Parent(elm.id)];
      if parentNode.key <= elm.key {
        Settled(elm);
        return false;
      }
      PromotedUp(Keys(elements), elm.id);
      SwapKeys(parentNode, elm);
      more := elm.id > 0;
      if !more { Settled(elm); }
    }

    /** The child with the smaller key, if there is a child. */
    method SmallerKid(elm: Node<D>) returns (kid: Node?<D>)
      requires Valid() && elm in elements
      ensures kid == null ==> Left(elm.id) >= last
      ensures kid != null ==> kid in elements && SmallestChild(Keys(elements), elm.id, kid.id)
    {
      var left, right := Left(elm.id), Right(elm.id);
      if !NodeExists(left) {
        kid := null;
      } else if !NodeExists(right) {
        kid := nodes[left];
      } else if nodes[right].key < nodes[left].key {
        kid := nodes[right];
      } else {
        kid := nodes[left];
      }
    }

    method IfyDown(elm: Node<D>)
      requires Valid() && elm in elements && OrderedButDown(Keys(elements), elm.id)
      modifies this`elements, nodes, SetOf(elements)`id
      ensures Valid() && Ordered() && last == old(last) && SetOf(elements) == old(SetOf(elements))
    {
      hide OrderedButDown, Ordered, Valid;
      var more := true;
      while more
        invariant Valid() && elm in elements && last == old(last) && SetOf(elements) == old(SetOf(elements))
        invariant if more then OrderedButDown(Keys(elements), elm.id) else Ordered()
        decreases more, last - elm.id
      {
        more := Demote(elm);
      }
    }

    /** Moves a node down by one place, if the key of a child is smaller than its own. */
    method Demote(elm: Node<D>) returns (more: bool)
      requires Valid() && elm in elements && OrderedButDown(Keys(elements), elm.id)
      modifies this`elements, nodes, SetOf(elements)`id
      ensures Valid() && elm in elements && last == old(last) && SetOf(elements) == old(SetOf(elements))
      ensures if more then old(elm.id) < elm.id <= last && OrderedButDown(Keys(elements), elm.id) else Ordered()
    {
      hide OrderedButDown, HeapOrdered, SmallestChild;
      var kid := SmallerKid(elm);
      if kid == null {
        SettledAtBottom(Keys(elements), elm.id);
        return false;
      }
      if elm.key <= kid.key {
        SettledDown(Keys(elements), elm.id, kid.id);
        return false;
      }
      DemotedDown(Keys(elements), elm.id, kid.id);
      SwapKeys(kid, elm);
      more := true;
    }

    method Grow()
      requires Valid()
      modifies this`nodes
      ensures Valid() && fresh(nodes)
      ensures nodes.Length == if old(nodes.Length) > THRESHOLD then old(nodes.Length) * 3 / 2 else old(nodes.Length) * 2
      ensures nodes.Length > old(nodes.Length)
    {
      var size := nodes.Length;
      var newSize := if size > THRESHOLD then size * 3 / 2 else size * 2;
      var grown := new Node?<D>[newSize](_ => null);
      var i := 0;
      while i < size
        invariant 0 <= i <= size && nodes == old(nodes)
        invariant forall j :: 0 <= j < i ==> grown[j] == nodes[j]
      {
        grown[i] := nodes[i];
        i := i + 1;
      }
      nodes := grown;
    }

    method Append(elm: Node<D>)
      requires Valid() && Ordered() && elm !in elements && last < nodes.Length
      modifies this`elements, this`last, nodes, elm`id
      ensures Valid() && elm in elements && elm.id == last - 1 == old(last) && OrderedButUp(Keys(elements), elm.id)
      ensures SetOf(elements) == old(SetOf(elements)) + {elm}
    {
      hide HeapOrdered, OrderedButUp, Keys;
      nodes[last] := elm;
      elm.id := last;
      AppendedKey(Keys(elements), elm.key);
      AppendedNode(elements, elm);
      elements := elements + [elm];
      last := last + 1;
    }

    method Insert(dat: D) returns (elm: Node<D>)
      requires Valid() && Ordered()
      modifies this`elements, this`nodes, this`last, nodes, SetOf(elements)`id
      ensures Valid() && Ordered()
      ensures fresh(elm) && elm.key == genKey(dat, age) && elm.data == dat
      ensures SetOf(elements) == old(SetOf(elements)) + {elm} && |elements| == |old(elements)| + 1
      ensures fresh(nodes) || nodes == old(nodes)
    {
      hide HeapOrdered, OrderedButUp, Keys;
      elm := new Node(genKey(dat, age), dat);
      if nodes.Length <= last {
        Grow();
      }
      Append(elm);
      IfyUp(elm);
    }

    /** Restores the order around a node whose key is new at its position. */
    method Restore(elm: Node<D>)
      requires Valid() && elm in elements && OrderedBut(Keys(elements), elm.id)
      modifies this`elements, nodes, SetOf(elements)`id
      ensures Valid() && Ordered() && last == old(last) && SetOf(elements) == old(SetOf(elements))
    {
      hide HeapOrdered, OrderedButUp, OrderedButDown, OrderedBut;
      UpOrDown(Keys(elements), elm.id);
      if elm.key < nodes[Parent(elm.id)].key {
        IfyUp(elm);
        OrderedNeedsNothing(Keys(elements), elm.id);
      }
      IfyDown(elm);
    }

    /** The last node is at no other position. */
    lemma LastOnce()
      requires Valid() && last > 0
      ensures SetOf(elements[..last - 1]) == SetOf(elements) - {elements[last - 1]}
    {
      var s, p := elements, last - 1;
      forall n | n in s && n != s[p] ensures n in s[..p] {
        var k :| 0 <= k < |s| && s[k] == n;
        assert s[..p][k] == n;
      }
    }

    method ExtractLast() returns (data: D)
      requires Valid() && last > 0
      modifies this`elements, this`last
      ensures Valid() && data == old(elements[|elements| - 1].data) && elements == old(elements[..|elements| - 1])
      ensures old(Ordered()) ==> Ordered()
    {
      last := last - 1;
      data := nodes[last].data;
      elements := elements[..last];
    }

    method Delete(elm: Node<D>) returns (data: D)
      requires Valid() && Ordered() && elm in elements
      modifies this`elements, this`last, nodes, SetOf(elements)`id
      ensures Valid() && Ordered() && data == elm.data
      ensures SetOf(elements) == old(SetOf(elements)) - {elm} && |elements| == |old(elements)| - 1
    {
      hide HeapOrdered, OrderedBut, Swapped, Keys;
      ghost var s, p := elements, elm.id;
      assert s[p] == elm;
      LastTaken(s, p);
      LastTakenSet(s, p);
      data := elm.data;
      var lastNode := nodes[last - 1];
      SwapElement(lastNode, elm);
      var _ := ExtractLast();
      if elm != lastNode && last > 0 {
        Restore(lastNode);
      }
    }

    method ExtractMin() returns (r: Option<D>)
      requires Valid() && Ordered()
      modifies this`elements, this`last, nodes, SetOf(elements)`id
      ensures Valid() && Ordered()
      ensures r.None? <==> old(elements) == []
      ensures r.None? ==> elements == old(elements)
      ensures r.Some? ==> r.value == old(elements[0].data) && SetOf(elements) == old(SetOf(elements) - {elements[0]})
      ensures r.Some? ==> |elements| == |old(elements)| - 1
      ensures r.Some? ==> forall n :: n in old(elements) ==> old(elements[0].key) <= n.key
    {
      if last <= 0 {
        return None;
      }
      ghost var k := Keys(elements);
      forall i | 0 <= i < |k| ensures k[0] <= k[i] {
        RootIsMinimum(k, i);
      }
      var data := nodes[0].data;
      var _ := Delete(nodes[0]);
      return Some(data);
    }

    method PeepMinKey() returns (key: real)
      requires Valid() && Ordered() && last > 0
      ensures exists i :: 0 <= i < |elements| && elements[i].key == key
      ensures forall i :: 0 <= i < |elements| ==> key <= elements[i].key
    {
      forall i | 0 <= i < |elements| ensures elements[0].key <= elements[i].key {
        RootIsMinimum(Keys(elements), i);
      }
      key := nodes[0].key;
    }

    method Update(elm: Node<D>, dat: D) returns (was: D)
      requires Valid() && Ordered() && elm in elements
      modifies this`elements, nodes, SetOf(elements)`id, elm`key, elm`data
      ensures Valid() && Ordered() && was == old(elm.data)
      ensures elm.key == genKey(dat, age) && elm.data == dat
      ensures SetOf(elements) == old(SetOf(elements)) && |elements| == |old(elements)|
    {
      hide HeapOrdered, OrderedBut;
      was := elm.data;
      ReplacedKey(Keys(elements), elm.id, genKey(dat, age));
      ghost var k := Keys(elements);
      elm.key := genKey(dat, age);
      elm.data := dat;
      assert Keys(elements) == k[elm.id := elm.key];
      Restore(elm);
    }

    /** Whether the heap property holds. */
    method VerifyHeapProperty() returns (correct: bool)
      requires Valid()
      ensures correct <==> Ordered()
    {
      correct := true;
      var i := 0;
      while i < last / 2
        invariant 0 <= i <= last / 2 && correct
        invariant forall j :: 0 < j < last && Parent(j) < i ==> elements[Parent(j)].key <= elements[j].key
      {
        if NodeExists(Left(i)) && nodes[i].key > nodes[Left(i)].key {
          correct := false;
        }
        if NodeExists(Right(i)) && nodes[i].key > nodes[Right(i)].key {
          correct := false;
        }
        if !correct {
          assert Parent(Left(i)) == i && Parent(Right(i)) == i;
          assert Keys(elements)[Left(i)] < Keys(elements)[i] ||
            (Right(i) < last && Keys(elements)[Right(i)] < Keys(elements)[i]);
          break;
        }
        i := i + 1;
      }
      if correct {
        assert forall j :: 0 < j < last ==> Parent(j) < last / 2;
      }
    }
  }

  /** The last node takes the place of another one. */
  lemma LastTaken<D>(s: seq<Node<D>>, p: nat)
    requires HeapOrdered(Keys(s)) && p < |s|
    ensures var t := Swapped(s, |s| - 1, p)[..|s| - 1];
      && (p < |s| - 1 ==> OrderedBut(Keys(t), p) && t[p] == s[|s| - 1])
      && (p == |s| - 1 ==> HeapOrdered(Keys(t)))
  {
    var t := Swapped(s, |s| - 1, p)[..|s| - 1];
    if p < |s| - 1 {
      LastMoved(Keys(s), p);
      hide OrderedBut, HeapOrdered;
      assert Keys(t) == Keys(s)[p := Keys(s)[|s| - 1]][..|s| - 1];
    }
  }

  lemma LastTakenSet<D>(s: seq<Node<D>>, p: nat)
    requires Numbered(s) && p < |s|
    ensures SetOf(Swapped(s, |s| - 1, p)[..|s| - 1]) == SetOf(s) - {s[p]}
  {
    var t := Swapped(s, |s| - 1, p)[..|s| - 1];
    forall n | n in s && n != s[p] ensures n in t {
      var k :| 0 <= k < |s| && s[k] == n;
      assert t[if k == |s| - 1 then p else k] == n;
    }
  }

  lemma AppendedNode<D>(s: seq<Node<D>>, n: Node<D>)
    ensures Keys(s + [n]) == Keys(s) + [n.key] && SetOf(s + [n]) == SetOf(s) + {n}
  {
    assert (s + [n])[..|s|] == s;
  }

  lemma SwappedSet<T>(s: seq<T>, i: nat, j: nat)
    requires i < |s| && j < |s|
    ensures SetOf(Swapped(s, i, j)) == SetOf(s)
  {
    var t := Swapped(s, i, j);
    forall n | n in s ensures n in t {
      var k :| 0 <= k < |s| && s[k] == n;
      assert t[if k == i then j else if k == j then i else k] == n;
    }
  }
}
