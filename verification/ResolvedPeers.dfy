/** Candidate paths for a to-server connection.
  *
  * `Dests` is the plain list of paths with an availability mark on each. The
  * class `ResolvedPeers` keeps two caches over that list (where the first
  * available path is, and how many there are) and searches from the cached
  * position; it is proved against the plain list. */
module ResolvedPeers {
  import opened Wrappers

  /** A path: its cache_peer (zero for a path without one) and address family. */
  datatype Path = Path(peer: nat, v4: bool)

  datatype Slot = Slot(path: Path, available: bool)

  datatype Dests = Dests(slots: seq<Slot>, finalized: bool)

  /** What a find operation reports: a position (the length of the list when
    * nothing was found) and whether a path of another kind was found instead. */
  datatype Finding = Finding(pos: nat, other: bool)

  // --- The plain list ---

  function FirstAvailable(slots: seq<Slot>): (i: nat)
    ensures i <= |slots|
    ensures i < |slots| ==> slots[i].available
    ensures forall k :: 0 <= k < i ==> !slots[k].available
  {
    if slots == [] || slots[0].available then 0 else 1 + FirstAvailable(slots[1..])
  }

  predicate NotPrime(slot: Slot, cur: Path) {
    slot.available && slot.path != cur
  }

  /** The first available path that is not of the current peer and family. */
  function FirstNotPrime(slots: seq<Slot>, cur: Path): (i: nat)
    ensures i <= |slots|
    ensures i < |slots| ==> NotPrime(slots[i], cur)
    ensures forall k :: 0 <= k < i ==> !NotPrime(slots[k], cur)
  {
    if slots == [] || NotPrime(slots[0], cur) then 0 else 1 + FirstNotPrime(slots[1..], cur)
  }

  function CountAvailable(slots: seq<Slot>): (n: nat)
    ensures n <= |slots|
  {
    if slots == [] then 0
    else (if slots[0].available then 1 else 0) + CountAvailable(slots[1..])
  }

  predicate Empty(d: Dests) {
    FirstAvailable(d.slots) == |d.slots|
  }

  function FindPrime(d: Dests, cur: Path): (f: Finding)
    ensures f.pos <= |d.slots|
    ensures f.pos < |d.slots| ==> d.slots[f.pos] == Slot(cur, true)
  {
    var i := FirstAvailable(d.slots);
    if i < |d.slots| && d.slots[i].path != cur then Finding(|d.slots|, true) else Finding(i, false)
  }

  function FindSpare(d: Dests, cur: Path): (f: Finding)
    ensures f.pos < |d.slots| ==> d.slots[f.pos] == Slot(Path(cur.peer, !cur.v4), true)
  {
    var i := FirstNotPrime(d.slots, cur);
    if i < |d.slots| && d.slots[i].path.peer != cur.peer then Finding(|d.slots|, true) else Finding(i, false)
  }

  function FindPeer(d: Dests, cur: Path): (f: Finding)
    ensures f.pos < |d.slots| ==> d.slots[f.pos].available && d.slots[f.pos].path.peer == cur.peer
  {
    var i := FirstAvailable(d.slots);
    if i < |d.slots| && d.slots[i].path.peer != cur.peer then Finding(|d.slots|, true) else Finding(i, false)
  }

  predicate DoneWith(d: Dests, f: Finding) {
    f.pos >= |d.slots| && (f.other || d.finalized)
  }

  predicate HaveSpare(d: Dests, cur: Path) { FindSpare(d, cur).pos < |d.slots| }
  predicate DoneWithSpares(d: Dests, cur: Path) { DoneWith(d, FindSpare(d, cur)) }
  predicate DoneWithPrimes(d: Dests, cur: Path) { DoneWith(d, FindPrime(d, cur)) }
  predicate DoneWithPeer(d: Dests, cur: Path) { DoneWith(d, FindPeer(d, cur)) }

  function Extract(d: Dests, pos: nat): Dests
    requires pos < |d.slots|
  {
    d.(slots := d.slots[pos := d.slots[pos].(available := false)])
  }

  function Reinstate(d: Dests, pos: nat): Dests
    requires pos < |d.slots|
  {
    d.(slots := d.slots[pos := d.slots[pos].(available := true)])
  }

  function AddPath(d: Dests, p: Path): Dests {
    d.(slots := d.slots + [Slot(p, true)])
  }

  function Finalize(d: Dests): Dests {
    d.(finalized := true)
  }

  // --- Facts about the plain list ---

  lemma FirstAvailableIs(slots: seq<Slot>, i: nat)
    requires i <= |slots|
    requires i < |slots| ==> slots[i].available
    requires forall k :: 0 <= k < i ==> !slots[k].available
    ensures FirstAvailable(slots) == i
  {
  }

  lemma FirstNotPrimeIs(slots: seq<Slot>, cur: Path, i: nat)
    requires i <= |slots|
    requires i < |slots| ==> NotPrime(slots[i], cur)
    requires forall k :: 0 <= k < i ==> !NotPrime(slots[k], cur)
    ensures FirstNotPrime(slots, cur) == i
  {
  }

  /** A spare that is there stays there while paths are added. */
  lemma SpareStaysAfterAdd(d: Dests, cur: Path, p: Path)
    requires HaveSpare(d, cur)
    ensures HaveSpare(AddPath(d, p), cur)
  {
    FirstNotPrimeIs(AddPath(d, p).slots, cur, FirstNotPrime(d.slots, cur));
  }

  lemma SpareThere(d: Dests, cur: Path)
    requires HaveSpare(d, cur)
    ensures FindSpare(d, cur).pos < |d.slots| && d.slots[FindSpare(d, cur).pos].available
  {
  }

  /** A peer that still has a spare is not done with. */
  lemma SpareKeepsPeer(d: Dests, cur: Path)
    requires HaveSpare(d, cur)
    ensures !DoneWithPeer(d, cur) && !DoneWithSpares(d, cur) && !Empty(d)
  {
    var s, i := FirstNotPrime(d.slots, cur), FirstAvailable(d.slots);
    assert d.slots[s].available;
    assert i <= s;
    if i < s { assert !NotPrime(d.slots[i], cur); }
  }

  /** "Returns and will continue to return nil": a verdict that some kind of
    * path is over does not change while more paths are added. */
  lemma DoneStaysDone(d: Dests, cur: Path, p: Path)
    requires !d.finalized
    ensures DoneWithSpares(d, cur) ==> DoneWithSpares(AddPath(d, p), cur)
    ensures DoneWithPrimes(d, cur) ==> DoneWithPrimes(AddPath(d, p), cur)
    ensures DoneWithPeer(d, cur) ==> DoneWithPeer(AddPath(d, p), cur)
  {
    var d' := AddPath(d, p);
    if FirstNotPrime(d.slots, cur) < |d.slots| {
      FirstNotPrimeIs(d'.slots, cur, FirstNotPrime(d.slots, cur));
    }
    if FirstAvailable(d.slots) < |d.slots| {
      FirstAvailableIs(d'.slots, FirstAvailable(d.slots));
    }
  }

  lemma {:induction false} CountUpdate(slots: seq<Slot>, pos: nat, b: bool)
    requires pos < |slots| && slots[pos].available != b
    ensures CountAvailable(slots[pos := slots[pos].(available := b)]) == CountAvailable(slots) + (if b then 1 else -1)
  {
    var t := slots[pos := slots[pos].(available := b)];
    if pos == 0 {
      assert t[1..] == slots[1..];
    } else {
      assert t[1..] == slots[1..][pos - 1 := slots[1..][pos - 1].(available := b)];
      CountUpdate(slots[1..], pos - 1, b);
    }
  }

  lemma {:induction false} CountAppend(slots: seq<Slot>, p: Path)
    ensures CountAvailable(slots + [Slot(p, true)]) == CountAvailable(slots) + 1
  {
    if slots != [] {
      assert (slots + [Slot(p, true)])[1..] == slots[1..] + [Slot(p, true)];
      CountAppend(slots[1..], p);
    } else {
      assert slots + [Slot(p, true)] == [Slot(p, true)];
    }
  }

  lemma {:induction false} CountZero(slots: seq<Slot>)
    ensures CountAvailable(slots) == 0 <==> FirstAvailable(slots) == |slots|
  {
    if slots != [] && !slots[0].available { CountZero(slots[1..]); }
  }

  // --- The class with its caches ---

  class ResolvedPeers {
    var paths: seq<Slot>
    var pathsToSkip: nat
    var availablePaths: nat
    var destinationsFinalized: bool

    ghost predicate Valid()
      reads this
    {
      pathsToSkip == FirstAvailable(paths) && availablePaths == CountAvailable(paths)
    }

    ghost function View(): Dests
      reads this
    {
      Dests(paths, destinationsFinalized)
    }

    constructor ()
      ensures Valid() && View() == Dests([], false)
    {
      paths, pathsToSkip, availablePaths, destinationsFinalized := [], 0, 0, false;
    }

    method IsEmpty() returns (b: bool)
      requires Valid()
      ensures b <==> Empty(View())
    {
      CountZero(paths);
      b := availablePaths == 0;
    }

    method Add(p: Path)
      requires Valid()
      modifies this`paths, this`availablePaths
      ensures Valid() && View() == AddPath(old(View()), p)
    {
      CountAppend(paths, p);
      FirstAvailableIs(paths + [Slot(p, true)], pathsToSkip);
      paths := paths + [Slot(p, true)];
      availablePaths := availablePaths + 1;
    }

    /** Makes an extracted path available again, at its old position. */
    method ReinstatePath(pos: nat)
      requires Valid()
      requires pos < |paths| && !paths[pos].available
      modifies this`paths, this`availablePaths, this`pathsToSkip
      ensures Valid() && View() == Reinstate(old(View()), pos)
    {
      CountUpdate(paths, pos, true);
      paths := paths[pos := paths[pos].(available := true)];
      availablePaths := availablePaths + 1;
      if pos < pathsToSkip {
        pathsToSkip := pos;
      } else {
        assert pos != pathsToSkip;
      }
      FirstAvailableIs(paths, pathsToSkip);
    }

    /** Marks the found path as taken; when it was the first available one,
      * moves the cached position to the next available path. */
    method ExtractFound(found: nat)
      requires Valid()
      requires found < |paths| && paths[found].available
      modifies this`paths, this`availablePaths, this`pathsToSkip
      ensures Valid() && View() == Extract(old(View()), found)
    {
      CountUpdate(paths, found, false);
      paths := paths[found := paths[found].(available := false)];
      availablePaths := availablePaths - 1;
      if found == pathsToSkip {
        pathsToSkip := pathsToSkip + 1;
        while pathsToSkip < |paths| && !paths[pathsToSkip].available
          modifies this`pathsToSkip
          invariant found < pathsToSkip <= |paths|
          invariant forall k :: 0 <= k < pathsToSkip ==> !paths[k].available
        {
          pathsToSkip := pathsToSkip + 1;
        }
      }
      FirstAvailableIs(paths, pathsToSkip);
    }

    method ExtractFront() returns (pos: nat)
      requires Valid() && !Empty(View())
      modifies this`paths, this`availablePaths, this`pathsToSkip
      ensures Valid()
      ensures pos == FirstAvailable(old(paths)) < |old(paths)|
      ensures View() == Extract(old(View()), pos)
    {
      pos := pathsToSkip;
      ExtractFound(pos);
    }

    method ExtractPrime(cur: Path) returns (pos: Option<nat>)
      requires Valid()
      modifies this`paths, this`availablePaths, this`pathsToSkip
      ensures Valid()
      ensures pos.None? <==> FindPrime(old(View()), cur).pos == |old(paths)|
      ensures pos.None? ==> View() == old(View())
      ensures pos.Some? ==> pos.value == FindPrime(old(View()), cur).pos && View() == Extract(old(View()), pos.value)
    {
      if pathsToSkip == |paths| || paths[pathsToSkip].path != cur {
        return None;
      }
      pos := Some(pathsToSkip);
      ExtractFound(pathsToSkip);
    }

    /** Searches from the cached position for an available path that is not of
      * the current peer and family. */
    method FindSparePath(cur: Path) returns (f: Finding)
      requires Valid()
      ensures f == FindSpare(View(), cur)
    {
      var i := pathsToSkip;
      while i < |paths| && !NotPrime(paths[i], cur)
        invariant pathsToSkip <= i <= |paths|
        invariant forall k :: 0 <= k < i ==> !NotPrime(paths[k], cur)
      {
        i := i + 1;
      }
      FirstNotPrimeIs(paths, cur, i);
      var foundNext := i < |paths| && paths[i].path.peer != cur.peer;
      f := Finding(if foundNext then |paths| else i, foundNext);
    }

    method ExtractSpare(cur: Path) returns (pos: Option<nat>)
      requires Valid()
      modifies this`paths, this`availablePaths, this`pathsToSkip
      ensures Valid()
      ensures pos.None? <==> !HaveSpare(old(View()), cur)
      ensures pos.None? ==> View() == old(View())
      ensures pos.Some? ==> pos.value == FindSpare(old(View()), cur).pos && View() == Extract(old(View()), pos.value)
    {
      var f := FindSparePath(cur);
      if f.pos == |paths| {
        return None;
      }
      pos := Some(f.pos);
      ExtractFound(f.pos);
    }
  }
}
