/** A chained hash table whose iteration survives insertions and removals. */
module HashTable {
  import opened Sequences

  class Link<K> {
    const key: K
    var next: Link?<K>

    constructor (key: K)
      ensures this.key == key
    {
      this.key, next := key, null;
    }
  }

  // --- Chains as values ---

  function LinkAt<K>(s: seq<Link<K>>, i: nat): Link?<K> {
    if i < |s| then s[i] else null
  }

  /** The links of a bucket are connected in this order. */
  ghost predicate Chained<K>(s: seq<Link<K>>)
    reads SetOf(s)`next
  {
    forall i :: 0 <= i < |s| ==> s[i].next == LinkAt(s, i + 1)
  }

  /** Every link is in the bucket of its key, and only once. */
  ghost predicate Placed<K>(hash: K -> nat, chains: seq<seq<Link<K>>>) {
    && (forall i, l :: 0 <= i < |chains| && l in chains[i] ==> hash(l.key) == i)
    && (forall i :: 0 <= i < |chains| ==> NoRepeats(chains[i]))
  }

  /** The links of a bucket and of those after it. */
  ghost function LinksFrom<K>(chains: seq<seq<Link<K>>>, i: nat): set<Link<K>>
    decreases |chains| - i
  {
    if i >= |chains| then {} else SetOf(chains[i]) + LinksFrom(chains, i + 1)
  }

  function TotalFrom<K>(chains: seq<seq<Link<K>>>, i: nat): nat
    decreases |chains| - i
  {
    if i >= |chains| then 0 else |chains[i]| + TotalFrom(chains, i + 1)
  }

  /** Which links are in a bucket or in those after it. */
  ghost predicate FoundByHash<K>(hash: K -> nat, chains: seq<seq<Link<K>>>, i: nat) {
    && (forall l :: l in LinksFrom(chains, i) ==> i <= hash(l.key) < |chains| && l in chains[hash(l.key)])
    && (forall j, l :: i <= j < |chains| && l in chains[j] ==> l in LinksFrom(chains, i))
  }

  lemma {:induction false} InLinksFrom<K>(hash: K -> nat, chains: seq<seq<Link<K>>>, i: nat)
    requires Placed(hash, chains)
    ensures FoundByHash(hash, chains, i)
    decreases |chains| - i
  {
    if i < |chains| {
      InLinksFrom(hash, chains, i + 1);
    }
  }

  lemma {:induction false} NoRepeatsCounts<T>(s: seq<T>)
    requires NoRepeats(s)
    ensures |SetOf(s)| == |s|
  {
    if s != [] {
      NoRepeatsCounts(s[1..]);
      assert SetOf(s) == {s[0]} + SetOf(s[1..]);
      assert s[0] !in s[1..];
    }
  }

  lemma Appended<T>(s: seq<T>, x: T)
    requires NoRepeats(s) && x !in s
    ensures NoRepeats(s + [x]) && SetOf(s + [x]) == SetOf(s) + {x}
  {
  }

  lemma {:induction false} CountsLinks<K>(hash: K -> nat, chains: seq<seq<Link<K>>>, i: nat)
    requires Placed(hash, chains)
    ensures |LinksFrom(chains, i)| == TotalFrom(chains, i)
    decreases |chains| - i
  {
    if i < |chains| {
      CountsLinks(hash, chains, i + 1);
      NoRepeatsCounts(chains[i]);
      InLinksFrom(hash, chains, i + 1);
      assert SetOf(chains[i]) !! LinksFrom(chains, i + 1);
    }
  }

  lemma {:induction false} ReplacedChain<K>(chains: seq<seq<Link<K>>>, b: nat, s: seq<Link<K>>, i: nat)
    requires b < |chains|
    ensures TotalFrom(chains[b := s], i) == TotalFrom(chains, i) + (if i <= b then |s| - |chains[b]| else 0)
    ensures b < i ==> LinksFrom(chains[b := s], i) == LinksFrom(chains, i)
    decreases |chains| - i
  {
    if i < |chains| {
      ReplacedChain(chains, b, s, i + 1);
    }
  }

  /** What an iteration standing at a link has yet to return. */
  ghost function Pending<K>(chains: seq<seq<Link<K>>>, active: bool, slot: nat, pos: nat): set<Link<K>> {
    if !active then {}
    else if slot < |chains| && pos <= |chains[slot]| then SetOf(chains[slot][pos..]) + LinksFrom(chains, slot + 1)
    else {}
  }

  /** A list being filled with links that an iteration returns: the link in
    * hand and the remaining ones are still missing. */
  ghost predicate Collecting<K>(list: seq<Link<K>>, l: Link?<K>, remaining: set<Link<K>>, all: set<Link<K>>, count: nat) {
    && NoRepeats(list)
    && Shared(SetOf(list), l, remaining, all)
    && |list| + |remaining| + (if l == null then 0 else 1) == count
  }

  ghost predicate Shared<K>(have: set<Link<K>>, l: Link?<K>, remaining: set<Link<K>>, all: set<Link<K>>) {
    have + remaining + (if l == null then {} else {l}) == all && l !in have && l !in remaining && have !! remaining
  }

  lemma CollectingStarts<K>(l: Link?<K>, remaining: set<Link<K>>, all: set<Link<K>>)
    requires if l == null then remaining == all == {} else l in all && remaining == all - {l}
    ensures Collecting([], l, remaining, all, |all|)
  {
  }

  lemma SharedStep<K>(have: set<Link<K>>, l: Link<K>, remaining: set<Link<K>>,
                      l': Link?<K>, remaining': set<Link<K>>, all: set<Link<K>>)
    requires Shared(have, l, remaining, all)
    requires if l' == null then remaining == remaining' == {} else l' in remaining && remaining' == remaining - {l'}
    ensures Shared(have + {l}, l', remaining', all)
  {
    assert l' != null ==> remaining' + {l'} == remaining;
  }

  lemma Collected<K>(list: seq<Link<K>>, l: Link<K>, remaining: set<Link<K>>,
                     l': Link?<K>, remaining': set<Link<K>>, all: set<Link<K>>, count: nat)
    requires Collecting(list, l, remaining, all, count)
    requires if l' == null then remaining == remaining' == {} else l' in remaining && remaining' == remaining - {l'}
    ensures Collecting(list + [l], l', remaining', all, count)
  {
    assert l !in list;
    Appended(list, l);
    SharedStep(SetOf(list), l, remaining, l', remaining', all);
    hide NoRepeats, SetOf, Shared;
  }

  lemma CollectingEnds<K>(list: seq<Link<K>>, l: Link?<K>, remaining: set<Link<K>>, all: set<Link<K>>, count: nat)
    requires Collecting(list, l, remaining, all, count) && (l == null ==> remaining == {})
    ensures l != null ==> |list| < count
    ensures l == null ==> NoRepeats(list) && SetOf(list) == all && |list| == count
  {
  }

  /** Uses of a table: iteration, insertion and removal in any order. */
  datatype Use<K> = Begin | Step | Abandon | Add(l: Link<K>) | Take(l: Link<K>) | Find(k: K)

  /** What an iteration returned, of the links that were there all along: those
    * it is done with, each once. */
  ghost predicate ReturnedOnce<K>(returned: seq<Link<K>>, since: set<Link<K>>, done: set<Link<K>>) {
    forall l :: l in since ==>
      (l in returned <==> l in done) && forall i, j :: 0 <= i < j < |returned| && returned[i] == l ==> returned[j] != l
  }

  lemma ReturnedNext<K>(returned: seq<Link<K>>, since: set<Link<K>>, done: set<Link<K>>, p: Link<K>)
    requires ReturnedOnce(returned, since, done) && p !in done
    ensures ReturnedOnce(returned + [p], since, done + ({p} * since))
  {
  }

  lemma ReturnedWithout<K>(returned: seq<Link<K>>, since: set<Link<K>>, done: set<Link<K>>, p: Link<K>)
    requires ReturnedOnce(returned, since, done)
    ensures ReturnedOnce(returned, since - {p}, done - {p})
  {
  }

  class HashTable<K(!new)> {
    const hash: K -> nat
    const compare: (K, K) -> int
    const buckets: array<Link?<K>>
    var next: Link?<K>
    var currentSlot: nat
    var count: nat
    ghost var chains: seq<seq<Link<K>>>
    ghost var pos: nat
    // History of the current iteration: the links that have been in the table
    // ever since it began, and those of them it has returned.
    ghost var since: set<Link<K>>
    ghost var done: set<Link<K>>

    ghost function Links(): set<Link<K>>
      reads this`chains
    {
      LinksFrom(chains, 0)
    }

    ghost function Remaining(): set<Link<K>>
      reads this`chains, this`next, this`currentSlot, this`pos
    {
      Pending(chains, next != null, currentSlot, pos)
    }

    ghost predicate Stored()
      reads this`chains, this`count, buckets, Links()`next
    {
      && 0 < buckets.Length == |chains|
      && (forall k :: hash(k) < buckets.Length)
      && Placed(hash, chains)
      && (forall i :: 0 <= i < |chains| ==> buckets[i] == LinkAt(chains[i], 0))
      && (forall i :: 0 <= i < |chains| ==> SetOf(chains[i]) <= Links() && Chained(chains[i]))
      && count == TotalFrom(chains, 0)
    }

    ghost predicate Iterating()
      reads this
    {
      && Positioned()
      && done <= since <= Links() && Remaining() <= Links()
      && forall l :: l in since ==> (l in done <==> l !in Remaining())
    }

    ghost predicate Valid()
      reads this, buckets, Links()`next
    {
      Stored() && Iterating()
    }

    constructor (compare: (K, K) -> int, size: nat, hash: K -> nat)
      requires forall k :: hash(k) < if size == 0 then 7951 else size
      ensures Valid() && Links() == {} && count == 0 && next == null && fresh(buckets)
      ensures this.hash == hash && this.compare == compare
      ensures buckets.Length == if size == 0 then 7951 else size
    {
      var n := if size == 0 then 7951 else size;
      this.compare, this.hash := compare, hash;
      buckets := new Link?<K>[n](_ => null);
      next, currentSlot, count, pos, since, done := null, 0, 0, 0, {}, {};
      chains := seq(n, _ => []);
      new;
      Empty(chains, 0);
    }

    ghost predicate Positioned()
      reads this`chains, this`next, this`currentSlot, this`pos
    {
      next != null ==> currentSlot < |chains| && pos < |chains[currentSlot]| && chains[currentSlot][pos] == next
    }

    lemma Sized()
      requires Stored()
      ensures 0 < |chains| == buckets.Length
    {
    }

    lemma BucketAt(i: nat)
      requires Stored() && i < buckets.Length
      ensures |chains| == buckets.Length && buckets[i] == LinkAt(chains[i], 0)
      ensures Pending(chains, true, i, 0) == LinksFrom(chains, i)
      ensures chains[i] == [] ==> LinksFrom(chains, i) == LinksFrom(chains, i + 1)
    {
    }

    method NextBucket()
      requires Stored() && next == null
      modifies this`next, this`currentSlot, this`pos
      ensures Stored() && Positioned() && Remaining() == LinksFrom(chains, old(currentSlot) + 1)
    {
      hide Stored, LinksFrom;
      Sized();
      pos := 0;
      currentSlot := currentSlot + 1;
      while next == null && currentSlot < buckets.Length
        invariant Stored() && Positioned() && pos == 0
        invariant next != null ==> Remaining() == LinksFrom(chains, old(currentSlot) + 1)
        invariant next == null ==> LinksFrom(chains, currentSlot) == LinksFrom(chains, old(currentSlot) + 1)
        decreases next == null, buckets.Length - currentSlot
      {
        BucketAt(currentSlot);
        next := buckets[currentSlot];
        if next == null {
          currentSlot := currentSlot + 1;
        }
      }
      PastLast(chains, currentSlot);
    }

    /** Starts an iteration over all links. */
    method First()
      requires Valid() && next == null
      modifies this`next, this`currentSlot, this`pos, this`since, this`done
      ensures Valid() && Remaining() == Links() && since == Links() && done == {}
    {
      hide Stored, LinksFrom;
      Sized();
      currentSlot, pos := 0, 0;
      BucketAt(0);
      next := buckets[currentSlot];
      if next == null {
        NextBucket();
      }
      since, done := Links(), {};
    }

    lemma NextInBucket()
      requires Stored() && Positioned() && next != null
      ensures next in Links() && next in Remaining()
      ensures pos + 1 == |chains[currentSlot]| ==> next.next == null && LinksFrom(chains, currentSlot + 1) == Remaining() - {next}
      ensures pos + 1 < |chains[currentSlot]| ==>
        next.next == chains[currentSlot][pos + 1] && Pending(chains, true, currentSlot, pos + 1) == Remaining() - {next}
    {
      StepPending(hash, chains, currentSlot, pos);
      hide Placed, Pending, TotalFrom, LinksFrom;
      assert next in SetOf(chains[currentSlot]);
      assert chains[currentSlot][pos].next == LinkAt(chains[currentSlot], pos + 1);
    }

    /** Moves an iteration past the link it stands at. */
    method Advance(p: Link<K>)
      requires Stored() && Positioned() && p == next
      modifies this`next, this`currentSlot, this`pos
      ensures Stored() && Positioned() && Remaining() == old(Remaining()) - {p} && p in old(Remaining()) && p in Links()
    {
      hide Stored, LinksFrom, Pending;
      NextInBucket();
      next := p.next;
      pos := pos + 1;
      if next == null {
        NextBucket();
      }
    }

    /** Returns a link that has not been returned, until none is left. */
    method Next() returns (p: Link?<K>)
      requires Valid()
      modifies this`next, this`currentSlot, this`pos, this`done
      ensures Valid()
      ensures p == null <==> old(Remaining()) == {}
      ensures p == null ==> next == null && Remaining() == {} && done == old(done) == since
      ensures p != null ==> p in old(Remaining()) && p in Links() && p !in old(done)
      ensures p != null ==> Remaining() == old(Remaining()) - {p} && done == old(done) + ({p} * since)
    {
      hide Stored, LinksFrom;
      p := next;
      if p == null {
        return;
      }
      hide Pending;
      Advance(p);
      done := done + ({p} * since);
    }

    /** Abandons an iteration. */
    method Stop()
      requires Valid()
      modifies this`next, this`currentSlot, this`since, this`done
      ensures Valid() && Remaining() == {} && next == null && since == done == {}
    {
      next, currentSlot, since, done := null, 0, {}, {};
    }

    ghost predicate Respects()
      reads {}
    {
      forall a, b :: compare(a, b) == 0 ==> hash(a) == hash(b)
    }

    /** The most recently joined link with a key equal to the given one. */
    method Lookup(k: K) returns (r: Link?<K>)
      requires Valid() && Respects()
      ensures r == null ==> forall l :: l in Links() ==> compare(k, l.key) != 0
      ensures r != null ==> r in Links() && compare(k, r.key) == 0
      ensures r != null ==> exists i :: 0 <= i < |chains[hash(k)]| && chains[hash(k)][i] == r &&
                                        forall j :: 0 <= j < i ==> compare(k, chains[hash(k)][j].key) != 0
    {
      hide Iterating;
      var b := hash(k);
      InLinksFrom(hash, chains, 0);
      r := buckets[b];
      ghost var i := 0;
      while r != null
        invariant i <= |chains[b]| && r == LinkAt(chains[b], i)
        invariant forall j :: 0 <= j < i ==> compare(k, chains[b][j].key) != 0
        decreases |chains[b]| - i
      {
        if compare(k, r.key) == 0 {
          return;
        }
        r := r.next;
        i := i + 1;
      }
      assert forall l :: l in chains[b] ==> compare(k, l.key) != 0;
    }

    /** Puts a link at the front of its bucket. */
    method Join(lnk: Link<K>)
      requires Valid() && lnk !in Links()
      modifies lnk`next, buckets, this`chains, this`count, this`pos
      ensures Valid() && Links() == old(Links()) + {lnk} && count == old(count) + 1
      ensures Remaining() == old(Remaining()) + (if next != null && hash(lnk.key) > currentSlot then {lnk} else {})
      ensures chains[hash(lnk.key)] == [lnk] + old(chains[hash(lnk.key)])
    {
      hide LinksFrom, Placed, Chained, TotalFrom, Pending;
      var i := hash(lnk.key);
      JoinedTable(hash, chains, lnk);
      if next != null {
        JoinedPending(hash, chains, lnk, currentSlot, pos);
      } else {
        NothingPending(chains, currentSlot, pos);
        NothingPending(Joined(hash, chains, lnk), currentSlot, pos);
      }
      PushFront(lnk);
      if next != null && i == currentSlot {
        pos := pos + 1;
      }
    }

    method PushFront(lnk: Link<K>)
      requires Stored() && lnk !in Links()
      modifies lnk`next, buckets, this`chains, this`count
      ensures Stored() && chains == Joined(hash, old(chains), lnk) && count == old(count) + 1
    {
      hide LinksFrom, Placed, TotalFrom;
      var i := hash(lnk.key);
      JoinedTable(hash, chains, lnk);
      lnk.next := buckets[i];
      buckets[i] := lnk;
      count := count + 1;
      chains := Joined(hash, chains, lnk);
    }

    lemma NextInChain(chain: seq<Link<K>>, k: nat)
      requires Chained(chain) && k < |chain|
      ensures chain[k].next == LinkAt(chain, k + 1)
    {
    }

    lemma ChainOf(hl: Link<K>)
      requires Stored() && hl in Links()
      ensures hash(hl.key) < |chains| == buckets.Length && hl in chains[hash(hl.key)]
      ensures buckets[hash(hl.key)] == chains[hash(hl.key)][0] && Chained(chains[hash(hl.key)])
    {
      InLinksFrom(hash, chains, 0);
    }

    static lemma FollowsInChain(chain: seq<Link<K>>, k: nat)
      requires Chained(chain) && k + 1 < |chain|
      ensures chain[k].next == chain[k + 1]
    {
    }

    /** Where a link is in its bucket, and the link before it. */
    method Locate(hl: Link<K>) returns (prev: Link?<K>, ghost k: nat)
      requires Stored() && hl in Links()
      ensures Stored() && hash(hl.key) < |chains| && k < |chains[hash(hl.key)]| && chains[hash(hl.key)][k] == hl
      ensures prev == if k == 0 then null else chains[hash(hl.key)][k - 1]
      ensures if prev == null then buckets[hash(hl.key)] == hl else prev.next == hl
    {
      ChainOf(hl);
      hide *;
      prev, k := Walk(buckets[hash(hl.key)], hl, chains[hash(hl.key)]);
    }

    /** Follows a chain up to the given link. */
    static method Walk(first: Link?<K>, hl: Link<K>, ghost chain: seq<Link<K>>) returns (prev: Link?<K>, ghost k: nat)
      requires Chained(chain) && hl in chain && first == chain[0]
      ensures k < |chain| && chain[k] == hl && (prev == if k == 0 then null else chain[k - 1])
      ensures if prev == null then first == hl else prev.next == hl
    {
      hide *;
      ghost var at :| 0 <= at < |chain| && chain[at] == hl;
      prev := null;
      var cur := first;
      k := 0;
      while cur != hl
        invariant Chained(chain) && k <= at && cur == chain[k]
        invariant if prev == null then k == 0 else k > 0 && prev == chain[k - 1] && prev.next == cur
        decreases at - k
      {
        FollowsInChain(chain, k);
        prev := cur;
        cur := cur.next;
        k := k + 1;
      }
    }

    /** What the removal of a link leaves to an iteration. */
    lemma RemovalLeaves(hl: Link<K>, b: nat, k: nat)
      requires Stored() && Positioned() && b < |chains| && k < |chains[b]| && chains[b][k] == hl
      ensures LinksFrom(Removed(chains, b, k), 0) == Links() - {hl}
      ensures next == hl ==> currentSlot == b && pos == k
      ensures next == hl ==> hl.next == LinkAt(Removed(chains, b, k)[b], k)
      ensures next != null ==> Pending(Removed(chains, b, k), true, currentSlot, PositionAfter(b, k)) == Remaining() - {hl}
      ensures next != null && next != hl ==> PositionAfter(b, k) < |Removed(chains, b, k)[currentSlot]|
      ensures next != null && next != hl ==> Removed(chains, b, k)[currentSlot][PositionAfter(b, k)] == next
    {
      hide TotalFrom, LinksFrom, Pending, Chained, Removed;
      RemovedTable(hash, chains, b, k);
      RemovedBucket(chains, b, k);
      if next != null {
        RemovedPending(hash, chains, b, k, currentSlot, pos);
      }
      if next == hl {
        assert hash(hl.key) == b;
        NextInChain(chains[b], k);
        AfterRemoved(chains[b], k, k);
      } else if next != null && currentSlot == b {
        AfterRemoved(chains[b], k, pos);
      }
    }

    lemma RemovedBucket(chains: seq<seq<Link<K>>>, b: nat, k: nat)
      requires b < |chains| && k < |chains[b]|
      ensures var r := Removed(chains, b, k);
              && |r| == |chains| && r[b] == chains[b][..k] + chains[b][k + 1..]
              && forall i :: 0 <= i < |chains| && i != b ==> r[i] == chains[i]
    {
    }

    lemma AfterRemoved(chain: seq<Link<K>>, k: nat, p: nat)
      requires k < |chain| && p < |chain|
      ensures var r := chain[..k] + chain[k + 1..];
              && LinkAt(r, k) == LinkAt(chain, k + 1)
              && (p != k ==> var q := if k < p then p - 1 else p; q < |r| && r[q] == chain[p])
    {
    }

    ghost function PositionAfter(b: nat, k: nat): nat
      reads this`currentSlot, this`pos
    {
      if b == currentSlot && k < pos then pos - 1 else pos
    }

    /** An iteration that stood at a link now removed goes on after it. */
    method Skip(hl: Link<K>)
      requires Stored() && currentSlot < |chains| && pos <= |chains[currentSlot]|
      requires hl.next == LinkAt(chains[currentSlot], pos)
      modifies this`next, this`currentSlot, this`pos
      ensures Stored() && Positioned() && Remaining() == old(Pending(chains, true, currentSlot, pos))
    {
      hide Stored, Pending;
      AtEnd(chains, currentSlot, pos);
      next := hl.next;
      if next == null {
        NextBucket();
      }
    }

    /** Takes a link out of its bucket and keeps an iteration on its way. */
    method TakeOut(hl: Link<K>)
      requires Stored() && Positioned() && hl in Links()
      modifies this`next, this`currentSlot, this`pos, this`chains, this`count, buckets, Links()`next
      ensures Stored() && Positioned() && Links() == old(Links()) - {hl} && count == old(count) - 1
      ensures Remaining() == old(Remaining()) - {hl}
    {
      hide Stored, Pending;
      var prev;
      ghost var k;
      prev, k := Locate(hl);
      var b := hash(hl.key);
      RemovalLeaves(hl, b, k);
      NothingPending(chains, currentSlot, pos);
      NothingPending(Removed(chains, b, k), currentSlot, PositionAfter(b, k));
      Splice(b, k, prev, hl);
      pos := PositionAfter(b, k);
      if next == hl {
        Skip(hl);
      }
    }

    /** Takes a link out of the table. */
    method RemoveLink(hl: Link<K>)
      requires Valid() && hl in Links()
      modifies this, buckets, Links()`next
      ensures Valid() && Links() == old(Links()) - {hl} && count == old(count) - 1
      ensures Remaining() == old(Remaining()) - {hl}
      ensures since == old(since) - {hl} && done == old(done) - {hl}
    {
      hide Stored, Pending;
      TakeOut(hl);
      since, done := since - {hl}, done - {hl};
    }

    /** Collects every link once. */
    method FreeItems() returns (list: seq<Link<K>>)
      requires Valid() && next == null
      modifies this`next, this`currentSlot, this`pos, this`since, this`done
      ensures Valid() && next == null
      ensures NoRepeats(list) && SetOf(list) == Links() && |list| == count
    {
      hide Valid, Links, Remaining, Collecting;
      list := [];
      First();
      AllCounted();
      var l := Next();
      CollectingStarts(l, Remaining(), Links());
      while l != null && |list| < count
        invariant Valid() && Links() == old(Links()) && count == old(count)
        invariant Collecting(list, l, Remaining(), Links(), count)
        invariant l == null ==> Remaining() == {} && next == null
        decreases |Remaining()|, l != null
      {
        ghost var have, link, remaining := list, l, Remaining();
        list := list + [l];
        l := Next();
        Collected(have, link, remaining, l, Remaining(), Links(), count);
      }
      CollectingEnds(list, l, Remaining(), Links(), count);
    }

    /** Whether a link is in the table: what callers must know before they join
      * or remove it. */
    method Contains(l: Link<K>) returns (there: bool)
      requires Valid()
      ensures Valid() && (there <==> l in Links())
    {
      hide LinksFrom, Iterating;
      InLinksFrom(hash, chains, 0);
      var b := hash(l.key);
      var walker := buckets[b];
      ghost var i := 0;
      while walker != null && walker != l
        invariant i <= |chains[b]| && walker == LinkAt(chains[b], i) && l !in chains[b][..i]
        decreases |chains[b]| - i
      {
        walker := walker.next;
        i := i + 1;
      }
      there := walker == l;
    }

    /** Whatever happens to the table meanwhile, a link that stays in it is
      * returned at most once and, once the iteration is over, exactly once. */
    method Run(uses: seq<Use<K>>, ghost pool: set<Link<K>>) returns (returned: seq<Link<K>>)
      requires Valid() && Respects() && next == null && Links() <= pool
      requires forall u :: u in uses && (u.Add? || u.Take?) ==> u.l in pool
      modifies this, buckets, pool`next
      ensures Valid() && Links() <= pool
      ensures ReturnedOnce(returned, since, done)
      ensures next == null ==> forall l :: l in since ==> l in returned
    {
      hide Stored, ReturnedOnce, LinksFrom, Pending;
      Stop();
      returned := [];
      NothingReturned(since, done);
      for i := 0 to |uses|
        invariant Valid() && Links() <= pool && ReturnedOnce(returned, since, done)
      {
        returned := UseOnce(uses[i], returned, pool);
      }
      Over(returned);
    }

    method UseOnce(u: Use<K>, returned0: seq<Link<K>>, ghost pool: set<Link<K>>) returns (returned: seq<Link<K>>)
      requires Valid() && Respects() && Links() <= pool && ReturnedOnce(returned0, since, done)
      requires u.Add? || u.Take? ==> u.l in pool
      modifies this, buckets, pool`next
      ensures Valid() && Links() <= pool && ReturnedOnce(returned, since, done)
    {
      hide Stored, ReturnedOnce, LinksFrom, Pending;
      returned := returned0;
      match u {
        case Begin =>
          if next == null {
            First();
            returned := [];
            NothingReturned(since, done);
          }
        case Step =>
          var p := Next();
          if p != null {
            ReturnedNext(returned, since, old(done), p);
            returned := returned + [p];
          }
        case Abandon =>
          Stop();
          returned := [];
          NothingReturned(since, done);
        case Add(l) =>
          var there := Contains(l);
          if !there {
            Join(l);
          }
        case Take(l) =>
          var there := Contains(l);
          if there {
            ReturnedWithout(returned, since, done, l);
            RemoveLink(l);
          }
        case Find(k) =>
          var there := Lookup(k);
      }
    }

    lemma Over(returned: seq<Link<K>>)
      requires Valid() && ReturnedOnce(returned, since, done)
      ensures next == null ==> forall l :: l in since ==> l in returned
    {
    }

    lemma AllCounted()
      requires Valid()
      ensures count == |Links()|
    {
      CountsLinks(hash, chains, 0);
    }

    method Splice(i: nat, ghost k: nat, prev: Link?<K>, hl: Link<K>)
      requires Stored() && i < |chains| && k < |chains[i]| && chains[i][k] == hl
      requires prev == if k == 0 then null else chains[i][k - 1]
      modifies buckets, Links()`next, this`chains, this`count
      ensures Stored() && chains == Removed(old(chains), i, k) && count == old(count) - 1
      ensures hl.next == old(hl.next)
    {
      hide TotalFrom, LinksFrom, Placed, Chained;
      RemovedTable(hash, chains, i, k);
      EachWithin(hash, Removed(chains, i, k));
      Detach(i, k, prev, hl);
      count := count - 1;
      chains := Removed(chains, i, k);
    }

    method Detach(i: nat, ghost k: nat, prev: Link?<K>, hl: Link<K>)
      requires Stored() && i < |chains| && k < |chains[i]| && chains[i][k] == hl
      requires prev == if k == 0 then null else chains[i][k - 1]
      modifies buckets, Links()`next
      ensures hl.next == old(hl.next)
      ensures forall j :: 0 <= j < |chains| ==> buckets[j] == LinkAt(Removed(chains, i, k)[j], 0)
      ensures forall j :: 0 <= j < |chains| ==> Chained(Removed(chains, i, k)[j])
    {
      hide TotalFrom, LinksFrom;
      ghost var s := chains[i];
      assert hl.next == LinkAt(s, k + 1);
      if prev == null {
        FirstOut(s);
        buckets[i] := hl.next;
      } else {
        assert hash(prev.key) == i;
        assert forall j :: 0 <= j < |chains| && j != i ==> prev !in SetOf(chains[j]);
        Reroute(prev, hl, s, k);
      }
    }
  }

  lemma EachWithin<K>(hash: K -> nat, chains: seq<seq<Link<K>>>)
    requires Placed(hash, chains)
    ensures forall i :: 0 <= i < |chains| ==> SetOf(chains[i]) <= LinksFrom(chains, 0)
  {
    InLinksFrom(hash, chains, 0);
  }

  lemma FirstOut<K>(s: seq<Link<K>>)
    requires Chained(s) && s != []
    ensures Chained(s[..0] + s[1..])
  {
    assert s[..0] + s[1..] == s[1..];
  }

  method Reroute<K>(prev: Link<K>, hl: Link<K>, ghost s: seq<Link<K>>, ghost k: nat)
    requires Chained(s) && NoRepeats(s) && 0 < k < |s| && s[k - 1] == prev && s[k] == hl
    modifies prev`next
    ensures Chained(s[..k] + s[k + 1..]) && hl.next == old(hl.next)
  {
    ghost var t := s[..k] + s[k + 1..];
    prev.next := hl.next;
    forall j | 0 <= j < |t| ensures t[j].next == LinkAt(t, j + 1) {
      assert t[j] == s[if j < k then j else j + 1];
      if j < k - 1 {
        assert s[j] != s[k - 1];
      }
    }
  }

  lemma RemovedTable<K>(hash: K -> nat, chains: seq<seq<Link<K>>>, b: nat, k: nat)
    requires Placed(hash, chains) && b < |chains| && k < |chains[b]|
    ensures Placed(hash, Removed(chains, b, k))
    ensures LinksFrom(Removed(chains, b, k), 0) == LinksFrom(chains, 0) - {chains[b][k]}
    ensures TotalFrom(Removed(chains, b, k), 0) == TotalFrom(chains, 0) - 1
  {
    RemovedPlaced(hash, chains, b, k);
    RemovedFrom(hash, chains, b, k, 0);
    ReplacedChain(chains, b, chains[b][..k] + chains[b][k + 1..], 0);
  }

  function Removed<K>(chains: seq<seq<Link<K>>>, b: nat, k: nat): seq<seq<Link<K>>>
    requires b < |chains| && k < |chains[b]|
  {
    chains[b := chains[b][..k] + chains[b][k + 1..]]
  }

  lemma WithoutOne<T>(s: seq<T>, k: nat)
    requires NoRepeats(s) && k < |s|
    ensures NoRepeats(s[..k] + s[k + 1..]) && SetOf(s[..k] + s[k + 1..]) == SetOf(s) - {s[k]}
  {
    var t := s[..k] + s[k + 1..];
    assert forall i :: 0 <= i < |t| ==> t[i] == s[if i < k then i else i + 1];
    forall x | x in s && x != s[k] ensures x in t {
      var j :| 0 <= j < |s| && s[j] == x;
      assert t[if j < k then j else j - 1] == x;
    }
  }

  lemma RemovedPlaced<K>(hash: K -> nat, chains: seq<seq<Link<K>>>, b: nat, k: nat)
    requires Placed(hash, chains) && b < |chains| && k < |chains[b]|
    ensures Placed(hash, Removed(chains, b, k))
  {
    WithoutOne(chains[b], k);
  }

  lemma {:induction false} RemovedFrom<K>(hash: K -> nat, chains: seq<seq<Link<K>>>, b: nat, k: nat, i: nat)
    requires Placed(hash, chains) && b < |chains| && k < |chains[b]|
    ensures LinksFrom(Removed(chains, b, k), i) == LinksFrom(chains, i) - {chains[b][k]}
    decreases |chains| - i
  {
    if i < |chains| {
      RemovedFrom(hash, chains, b, k, i + 1);
      WithoutOne(chains[b], k);
      assert hash(chains[b][k].key) == b;
      assert i != b ==> chains[b][k] !in SetOf(chains[i]);
    }
  }

  lemma RemovedInBucket<T>(s: seq<T>, k: nat, pos: nat)
    requires NoRepeats(s) && k < |s| && pos < |s|
    ensures var t := s[..k] + s[k + 1..];
      SetOf(t[if k < pos then pos - 1 else pos..]) == SetOf(s[pos..]) - {s[k]}
  {
    var t := s[..k] + s[k + 1..];
    if k < pos {
      assert t[pos - 1..] == s[pos..];
      assert s[k] !in s[pos..];
    } else {
      WithoutOne(s[pos..], k - pos);
      assert t[pos..] == s[pos..][..k - pos] + s[pos..][k - pos + 1..];
    }
  }

  lemma RemovedPending<K>(hash: K -> nat, chains: seq<seq<Link<K>>>, b: nat, k: nat, slot: nat, pos: nat)
    requires Placed(hash, chains) && b < |chains| && k < |chains[b]|
    requires slot < |chains| && pos < |chains[slot]|
    ensures Pending(Removed(chains, b, k), true, slot, if b == slot && k < pos then pos - 1 else pos)
         == Pending(chains, true, slot, pos) - {chains[b][k]}
  {
    RemovedFrom(hash, chains, b, k, slot + 1);
    if b == slot {
      RemovedInBucket(chains[b], k, pos);
    } else {
      assert hash(chains[b][k].key) == b;
      assert chains[b][k] !in chains[slot];
    }
  }

  lemma AtEnd<K>(chains: seq<seq<Link<K>>>, slot: nat, pos: nat)
    requires slot < |chains| && pos <= |chains[slot]|
    ensures pos == |chains[slot]| ==> Pending(chains, true, slot, pos) == LinksFrom(chains, slot + 1)
  {
  }

  lemma NothingReturned<K>(since: set<Link<K>>, done: set<Link<K>>)
    ensures done == {} ==> ReturnedOnce([], since, done)
  {
  }

  lemma NothingPending<K>(chains: seq<seq<Link<K>>>, slot: nat, pos: nat)
    ensures Pending(chains, false, slot, pos) == {}
  {
  }

  lemma JoinedTable<K>(hash: K -> nat, chains: seq<seq<Link<K>>>, lnk: Link<K>)
    requires Placed(hash, chains) && hash(lnk.key) < |chains| && lnk !in LinksFrom(chains, 0)
    ensures lnk !in chains[hash(lnk.key)]
    ensures Placed(hash, Joined(hash, chains, lnk))
    ensures LinksFrom(Joined(hash, chains, lnk), 0) == LinksFrom(chains, 0) + {lnk}
    ensures TotalFrom(Joined(hash, chains, lnk), 0) == TotalFrom(chains, 0) + 1
  {
    InLinksFrom(hash, chains, 0);
    JoinedPlaced(hash, chains, lnk);
    JoinedFrom(hash, chains, lnk, 0);
  }

  function Joined<K>(hash: K -> nat, chains: seq<seq<Link<K>>>, lnk: Link<K>): seq<seq<Link<K>>>
    requires hash(lnk.key) < |chains|
  {
    chains[hash(lnk.key) := [lnk] + chains[hash(lnk.key)]]
  }

  lemma JoinedPlaced<K>(hash: K -> nat, chains: seq<seq<Link<K>>>, lnk: Link<K>)
    requires Placed(hash, chains) && hash(lnk.key) < |chains| && lnk !in chains[hash(lnk.key)]
    ensures Placed(hash, Joined(hash, chains, lnk))
  {
  }

  lemma JoinedFrom<K>(hash: K -> nat, chains: seq<seq<Link<K>>>, lnk: Link<K>, i: nat)
    requires Placed(hash, chains) && hash(lnk.key) < |chains| && lnk !in chains[hash(lnk.key)]
    ensures LinksFrom(Joined(hash, chains, lnk), i)
         == LinksFrom(chains, i) + (if i <= hash(lnk.key) then {lnk} else {})
    ensures TotalFrom(Joined(hash, chains, lnk), 0) == TotalFrom(chains, 0) + 1
  {
    var b := hash(lnk.key);
    var chains' := Joined(hash, chains, lnk);
    ReplacedChain(chains, b, [lnk] + chains[b], 0);
    JoinedPlaced(hash, chains, lnk);
    InLinksFrom(hash, chains, i);
    InLinksFrom(hash, chains', i);
    hide Placed;
    assert LinksFrom(chains', i) == LinksFrom(chains, i) + (if i <= b then {lnk} else {});
  }

  lemma JoinedPending<K>(hash: K -> nat, chains: seq<seq<Link<K>>>, lnk: Link<K>, slot: nat, pos: nat)
    requires Placed(hash, chains) && hash(lnk.key) < |chains| && lnk !in chains[hash(lnk.key)]
    requires slot < |chains| && pos < |chains[slot]|
    ensures var b, chains' := hash(lnk.key), Joined(hash, chains, lnk);
      Pending(chains', true, slot, if b == slot then pos + 1 else pos)
      == Pending(chains, true, slot, pos) + (if b > slot then {lnk} else {})
  {
    hide LinksFrom, Placed;
    JoinedFrom(hash, chains, lnk, slot + 1);
    if hash(lnk.key) == slot {
      assert Joined(hash, chains, lnk)[slot][pos + 1..] == chains[slot][pos..];
    }
  }

  lemma PastLast<K>(chains: seq<seq<Link<K>>>, i: nat)
    ensures i >= |chains| ==> LinksFrom(chains, i) == {}
  {
  }

  /** One link less in the current bucket. */
  lemma StepPending<K>(hash: K -> nat, chains: seq<seq<Link<K>>>, slot: nat, pos: nat)
    requires Placed(hash, chains) && slot < |chains| && pos < |chains[slot]|
    ensures Pending(chains, true, slot, pos + 1) == Pending(chains, true, slot, pos) - {chains[slot][pos]}
    ensures chains[slot][pos] in Pending(chains, true, slot, pos)
    ensures pos + 1 == |chains[slot]| ==> Pending(chains, true, slot, pos + 1) == LinksFrom(chains, slot + 1)
  {
    InLinksFrom(hash, chains, slot + 1);
    assert chains[slot][pos..] == [chains[slot][pos]] + chains[slot][pos + 1..];
  }

  lemma {:induction false} Empty<K>(chains: seq<seq<Link<K>>>, i: nat)
    requires forall j :: 0 <= j < |chains| ==> chains[j] == []
    ensures TotalFrom(chains, i) == 0 && LinksFrom(chains, i) == {}
    decreases |chains| - i
  {
    if i < |chains| {
      Empty(chains, i + 1);
    }
  }
}
