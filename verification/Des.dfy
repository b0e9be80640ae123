/** The DES block cipher on bits, and its key schedule. */
module Des {
  import opened DesTables
  import opened Division

  type Bits = seq<bool>

  // --- Rounds ---

  function Xor(a: Bits, b: Bits): (c: Bits)
    requires |a| == |b|
    ensures |c| == |a|
  {
    seq(|a|, i requires 0 <= i < |a| => a[i] != b[i])
  }

  /** The number that some bits write, first bit highest. */
  function Number(b: Bits): nat {
    if b == [] then 0 else 2 * Number(b[..|b| - 1]) + (if b[|b| - 1] then 1 else 0)
  }

  lemma NumberNone()
    ensures Number([]) == 0
  {
  }

  lemma NumberStep(b: Bits, x: bool)
    ensures Number(b + [x]) == 2 * Number(b) + (if x then 1 else 0)
  {
    assert (b + [x])[..|b|] == b;
  }

  function Shifted(v: nat, n: nat): nat {
    if n == 0 then v else Shifted(v, n - 1) / 2
  }

  /** The low four bits of a number, highest first. */
  function Nibble(v: nat): Bits {
    [Shifted(v, 3) % 2 == 1, Shifted(v, 2) % 2 == 1, Shifted(v, 1) % 2 == 1, v % 2 == 1]
  }

  ghost predicate Keyed(r: Bits, key: Bits, e: seq<Half>) {
    |r| == 32 && |key| == 48 && |e| == 48
  }

  /** The six bits that select from one S-box: expanded half xor key. */
  function Selector(r: Bits, key: Bits, e: seq<Half>, box: nat): (b: Bits)
    requires Keyed(r, key, e) && box < 8
    ensures |b| == 6
  {
    seq(6, j requires 0 <= j < 6 => r[e[6 * box + j]] != key[6 * box + j])
  }

  function Boxed(r: Bits, key: Bits, e: seq<Half>, box: nat): nat
    requires Keyed(r, key, e) && box < 8
  {
    At(S_BOX[box], Number(Selector(r, key, e, box)), 0)
  }

  /** The four bits that each of the first S-boxes yields. */
  function Substituted(r: Bits, key: Bits, e: seq<Half>, boxes: nat): (b: Bits)
    requires Keyed(r, key, e) && boxes <= 8
    ensures |b| == 4 * boxes
  {
    if boxes == 0 then [] else Substituted(r, key, e, boxes - 1) + Nibble(Boxed(r, key, e, boxes - 1))
  }

  function Scrambled(i: nat): Half {
    At(PERM, i, 0)
  }

  /** The round function. */
  function Mixed(r: Bits, key: Bits, e: seq<Half>): (b: Bits)
    requires Keyed(r, key, e)
    ensures |b| == 32
  {
    seq(32, i requires 0 <= i < 32 => Substituted(r, key, e, 8)[Scrambled(i)])
  }

  ghost predicate Schedule(keys: seq<Bits>) {
    forall k :: k in keys ==> |k| == 48
  }

  datatype Pair = Pair(l: Bits, r: Bits)

  /** Rounds of the cipher: each changes one half by the other and a key. */
  function Rounds(p: Pair, keys: seq<Bits>, e: seq<Half>): (q: Pair)
    requires |p.l| == 32 && |p.r| == 32 && |e| == 48 && Schedule(keys)
    ensures |q.l| == 32 && |q.r| == 32
    decreases |keys|
  {
    if keys == [] then p else Rounds(Pair(p.r, Xor(p.l, Mixed(p.r, keys[0], e))), keys[1..], e)
  }

  function Reversed<T>(s: seq<T>): (t: seq<T>)
    ensures |t| == |s|
    ensures forall i :: 0 <= i < |s| ==> t[i] == s[|s| - 1 - i]
  {
    if s == [] then [] else Reversed(s[1..]) + [s[0]]
  }

  lemma {:induction false} RoundsConcat(p: Pair, a: seq<Bits>, b: seq<Bits>, e: seq<Half>)
    requires |p.l| == 32 && |p.r| == 32 && |e| == 48 && Schedule(a) && Schedule(b)
    ensures Schedule(a + b) && Rounds(p, a + b, e) == Rounds(Rounds(p, a, e), b, e)
    decreases |a|
  {
    hide Mixed, Xor;
    if a == [] {
      assert a + b == b;
    } else {
      assert (a + b)[1..] == a[1..] + b;
      RoundsConcat(Pair(p.r, Xor(p.l, Mixed(p.r, a[0], e))), a[1..], b, e);
    }
  }

  lemma XorTwice(a: Bits, b: Bits)
    requires |a| == |b|
    ensures Xor(Xor(a, b), b) == a
  {
  }

  /** The same rounds in reverse order, on exchanged halves, undo them. */
  lemma {:induction false} RoundsUndone(p: Pair, keys: seq<Bits>, e: seq<Half>)
    requires |p.l| == 32 && |p.r| == 32 && |e| == 48 && Schedule(keys)
    ensures Schedule(Reversed(keys))
    ensures var q := Rounds(p, keys, e); Rounds(Pair(q.r, q.l), Reversed(keys), e) == Pair(p.r, p.l)
    decreases |keys|
  {
    hide Mixed, Xor;
    if keys != [] {
      var m := Mixed(p.r, keys[0], e);
      RoundsUndone(Pair(p.r, Xor(p.l, m)), keys[1..], e);
      var q := Rounds(p, keys, e);
      RoundsConcat(Pair(q.r, q.l), Reversed(keys[1..]), [keys[0]], e);
      XorTwice(p.l, m);
    }
  }

  // --- Blocks ---

  function Permuted(a: Bits, p: nat -> Position): (b: Bits)
    requires |a| == 64
    ensures |b| == 64
  {
    seq(64, i requires 0 <= i < 64 => a[p(i)])
  }

  function Halves(t: Bits): Pair
    requires |t| == 64
  {
    Pair(t[..32], t[32..])
  }

  /** A block through the initial permutation, the rounds and the final one. */
  function Enciphered(block: Bits, keys: seq<Bits>, e: seq<Half>): (b: Bits)
    requires |block| == 64 && |e| == 48 && Schedule(keys)
    ensures |b| == 64
  {
    var q := Rounds(Halves(Permuted(block, Initial)), keys, e);
    Permuted(q.l + q.r, Final)
  }

  lemma ExchangedBetween(t: Bits)
    requires |t| == 64
    ensures Permuted(Permuted(t, Final), Initial) == t[32..] + t[..32]
  {
    hide Initial, Final;
    var u := Permuted(Permuted(t, Final), Initial);
    forall i | 0 <= i < 64 ensures u[i] == (t[32..] + t[..32])[i] {
      HalvesExchanged(i);
    }
  }

  lemma ExchangedAround(b: Bits)
    requires |b| == 64
    ensures var t := Permuted(b, Initial); Permuted(t[32..] + t[..32], Final) == b
  {
    hide Initial, Final;
    var t := Permuted(b, Initial);
    var u := Permuted(t[32..] + t[..32], Final);
    forall i | 0 <= i < 64 ensures u[i] == b[i] {
      HalvesExchanged(i);
      assert (t[32..] + t[..32])[Final(i)] == t[(Final(i) + 32) % 64];
    }
  }

  /** Deciphering undoes enciphering, for every key schedule and expansion. */
  lemma Deciphered(block: Bits, keys: seq<Bits>, e: seq<Half>)
    requires |block| == 64 && |e| == 48 && Schedule(keys)
    ensures Schedule(Reversed(keys)) && Enciphered(Enciphered(block, keys, e), Reversed(keys), e) == block
  {
    var t := Permuted(block, Initial);
    var p := Halves(t);
    var q := Rounds(p, keys, e);
    RoundsUndone(p, keys, e);
    ExchangedBetween(q.l + q.r);
    ExchangedAround(block);
    hide Permuted, Rounds;
    assert (q.l + q.r)[32..] + (q.l + q.r)[..32] == q.r + q.l;
    assert Halves(q.r + q.l) == Pair(q.r, q.l);
  }

  // --- The key schedule ---

  /** By how much the halves of the key rotate before each round. */
  const SHIFTS: Table<nat> := [
    [1, 1, 2, 2, 2, 2, 2, 2],
    [1, 2, 2, 2, 2, 2, 2, 1]]

  function RotatedLeft(b: Bits, n: nat): (c: Bits)
    requires |b| == 28
    ensures |c| == 28
  {
    seq(28, i requires 0 <= i < 28 => b[(i + n) % 28])
  }

  /** A half of the key after some rotations. */
  function KeyHalf(b: Bits, rounds: nat): (c: Bits)
    requires |b| == 28
    ensures |c| == 28
  {
    if rounds == 0 then b else RotatedLeft(KeyHalf(b, rounds - 1), At(SHIFTS, rounds - 1, 0))
  }

  function Reduced56(key: Bits): (b: Bits)
    requires |key| == 64
    ensures |b| == 56
  {
    seq(56, j requires 0 <= j < 56 => key[At(PC1, j, 0)])
  }

  /** The key of a round: both rotated halves, thinned out. */
  function RoundKey(key: Bits, round: nat): (b: Bits)
    requires |key| == 64
    ensures |b| == 48
  {
    var k := Reduced56(key);
    var halves := KeyHalf(k[..28], round + 1) + KeyHalf(k[28..], round + 1);
    seq(48, j requires 0 <= j < 48 => halves[Thinned(j)])
  }

  function KeySchedule(key: Bits): seq<Bits>
    requires |key| == 64
  {
    seq(16, i requires 0 <= i < 16 => RoundKey(key, i))
  }

  function TotalShift(rounds: nat): nat {
    if rounds == 0 then 0 else TotalShift(rounds - 1) + At(SHIFTS, rounds - 1, 0)
  }

  lemma SumModulo(x: nat, t: nat)
    ensures (x % 28 + t) % 28 == (x + t) % 28
  {
    var y := x % 28 + t;
    assert x + t == 28 * (x / 28 + y / 28) + y % 28;
    Quotient(28, x / 28 + y / 28, y % 28);
  }

  /** Rotating again and again is rotating once by the sum. */
  lemma {:induction false} RotatedAtOnce(b: Bits, rounds: nat, i: nat)
    requires |b| == 28 && i < 28
    ensures KeyHalf(b, rounds)[i] == b[(i + TotalShift(rounds)) % 28]
    decreases rounds
  {
    hide At;
    if rounds > 0 {
      var n := At(SHIFTS, rounds - 1, 0);
      RotatedAtOnce(b, rounds - 1, (i + n) % 28);
      SumModulo(i + n, TotalShift(rounds - 1));
    }
  }

  /** The place in the unrotated key that a bit of a round key comes from. */
  function KeyPlace(p: nat, shift: nat): nat {
    if p < 28 then (p + shift) % 28 else 28 + (p - 28 + shift) % 28
  }

  function Thinned(j: nat): Reduced {
    At(PC2, j, 0)
  }

  lemma RoundKeyAt(key: Bits, round: nat, j: nat)
    requires |key| == 64 && j < 48
    ensures KeyPlace(Thinned(j), TotalShift(round + 1)) < 56
    ensures RoundKey(key, round)[j] == Reduced56(key)[KeyPlace(Thinned(j), TotalShift(round + 1))]
  {
    hide Thinned, TotalShift, KeyHalf, Reduced56;
    var k, p := Reduced56(key), Thinned(j);
    if p < 28 {
      RotatedAtOnce(k[..28], round + 1, p);
    } else {
      RotatedAtOnce(k[28..], round + 1, p - 28);
    }
  }

  lemma ShiftedValues()
    ensures Shifted(0x7efc, 0) == 32508 && Shifted(0x7efc, 1) == 16254 && Shifted(0x7efc, 2) == 8127
    ensures Shifted(0x7efc, 3) == 4063 && Shifted(0x7efc, 4) == 2031 && Shifted(0x7efc, 5) == 1015
    ensures Shifted(0x7efc, 6) == 507 && Shifted(0x7efc, 7) == 253 && Shifted(0x7efc, 8) == 126
    ensures Shifted(0x7efc, 9) == 63 && Shifted(0x7efc, 10) == 31 && Shifted(0x7efc, 11) == 15
    ensures Shifted(0x7efc, 12) == 7 && Shifted(0x7efc, 13) == 3 && Shifted(0x7efc, 14) == 1 && Shifted(0x7efc, 15) == 0
  {
  }

  /** The bits of a constant tell the rotations. */
  lemma ShiftBits(i: nat)
    requires i < 16
    ensures 1 + Shifted(0x7efc, i) % 2 == At(SHIFTS, i, 0)
  {
    ShiftedValues();
    hide Shifted;
  }

  // --- The cipher on arrays ---

  method Perm(target: array<bool>, source: Bits, p: nat -> Position)
    requires |source| == 64 && target.Length == 64
    modifies target
    ensures target[..] == Permuted(source, p)
  {
    for n := 0 to 64
      invariant forall i :: 0 <= i < n ==> target[i] == source[p(i)]
    {
      target[n] := source[p(n)];
    }
  }

  /** The six bits that select from an S-box, gathered into a number. */
  method Gather(r: Bits, key: Bits, e: seq<Half>, box: nat) returns (sbval: nat)
    requires Keyed(r, key, e) && box < 8
    ensures sbval == Number(Selector(r, key, e, box))
  {
    hide Number;
    sbval := 0;
    NumberNone();
    ghost var s := Selector(r, key, e, box);
    for j := 0 to 6
      invariant sbval == Number(s[..j])
    {
      assert s[..j + 1] == s[..j] + [s[j]];
      NumberStep(s[..j], s[j]);
      sbval := 2 * sbval + (if r[e[6 * box + j]] != key[6 * box + j] then 1 else 0);
    }
    assert s[..6] == s;
  }

  /** Writes the four bits of a box value, last bit first. */
  method Scatter(tmp: array<bool>, at: nat, value: nat)
    requires at + 4 <= tmp.Length
    modifies tmp
    ensures tmp[..] == old(tmp[..at]) + Nibble(value) + old(tmp[at + 4..])
  {
    ghost var was, nibble := tmp[..], Nibble(value);
    NibbleBits(value);
    hide Nibble, Shifted;
    var sbval := value;
    var j := 4;
    while j > 0
      invariant 0 <= j <= 4 && sbval == Shifted(value, 4 - j)
      invariant forall k :: 0 <= k < tmp.Length ==> tmp[k] == if at + j <= k < at + 4 then nibble[k - at] else was[k]
    {
      j := j - 1;
      ShiftedNext(value, 3 - j);
      tmp[at + j] := sbval % 2 == 1;
      sbval := sbval / 2;
    }
    Scattered(tmp[..], was, at, nibble);
  }

  lemma NibbleBits(value: nat)
    ensures forall j :: 0 <= j < 4 ==> Nibble(value)[j] == (Shifted(value, 3 - j) % 2 == 1)
  {
  }

  lemma ShiftedNext(value: nat, n: nat)
    ensures Shifted(value, n + 1) == Shifted(value, n) / 2 && Shifted(value, 0) == value
  {
  }

  lemma Scattered(t: Bits, was: Bits, at: nat, nibble: Bits)
    requires at + |nibble| <= |t| == |was|
    requires forall k :: 0 <= k < |t| ==> t[k] == if at <= k < at + |nibble| then nibble[k - at] else was[k]
    ensures t == was[..at] + nibble + was[at + |nibble|..]
  {
  }

  /** Changes a half of the block by the permuted bits. */
  method XorPermuted(t: array<bool>, l: nat, tmp: array<bool>, ghost m: Bits)
    requires l + 32 <= t.Length && tmp.Length == 48 && t != tmp && |m| == 32
    requires forall i :: 0 <= i < 32 ==> m[i] == tmp[Scrambled(i)]
    modifies t
    ensures t[..] == old(t[..l]) + Xor(old(t[l..l + 32]), m) + old(t[l + 32..])
  {
    hide Scrambled;
    ghost var was := t[..];
    for i := 0 to 32
      invariant forall k :: 0 <= k < t.Length ==> t[k] == if l <= k < l + i then was[k] != m[k - l] else was[k]
    {
      assert m[i] == tmp[Scrambled(i)];
      t[l + i] := t[l + i] != tmp[Scrambled(i)];
    }
    Changed(t[..], was, l, m);
  }

  lemma Changed(t: Bits, was: Bits, l: nat, m: Bits)
    requires l + |m| <= |t| == |was|
    requires forall k :: 0 <= k < |t| ==> t[k] == if l <= k < l + |m| then was[k] != m[k - l] else was[k]
    ensures t == was[..l] + Xor(was[l..l + |m|], m) + was[l + |m|..]
  {
    var x := Xor(was[l..l + |m|], m);
    assert forall k :: 0 <= k < |m| ==> x[k] == (was[l + k] != m[k]);
  }

  method Substitute(half: Bits, key: Bits, e: seq<Half>) returns (tmp: array<bool>)
    requires Keyed(half, key, e)
    ensures fresh(tmp) && tmp.Length == 48 && tmp[..32] == Substituted(half, key, e, 8)
  {
    hide Nibble, Selector, Number;
    tmp := new bool[48];
    for i := 0 to 8
      invariant tmp[..4 * i] == Substituted(half, key, e, i)
    {
      var sbval := Gather(half, key, e, i);
      sbval := At(S_BOX[i], sbval, 0);
      Scatter(tmp, 4 * i, sbval);
      assert tmp[..4 * i + 4] == Substituted(half, key, e, i) + Nibble(sbval);
    }
  }

  /** One round: changes one half of the block in place. */
  method CryptMain(t: array<bool>, l: nat, r: nat, key: Bits, e: seq<Half>)
    requires t.Length == 64 && ((l == 0 && r == 32) || (l == 32 && r == 0)) && |key| == 48 && |e| == 48
    modifies t
    ensures t[l..l + 32] == Xor(old(t[l..l + 32]), Mixed(old(t[r..r + 32]), key, e))
    ensures t[r..r + 32] == old(t[r..r + 32])
  {
    hide Xor, Substituted;
    var half := t[r..r + 32];
    var tmp := Substitute(half, key, e);
    XorPermuted(t, l, tmp, Mixed(half, key, e));
  }

  /** The keys in the order in which they are used. */
  function UsedKeys(schedule: seq<Bits>, decr: bool): (keys: seq<Bits>)
    requires Schedule(schedule)
    ensures Schedule(keys) && |keys| == |schedule|
  {
    if decr then Reversed(schedule) else schedule
  }

  /** Either direction of the cipher undoes the other. */
  lemma CipherInverts(block: Bits, schedule: seq<Bits>, e: seq<Half>, decr: bool)
    requires |block| == 64 && |e| == 48 && Schedule(schedule)
    ensures Enciphered(Enciphered(block, UsedKeys(schedule, decr), e), UsedKeys(schedule, !decr), e) == block
  {
    hide Enciphered, Reversed;
    Deciphered(block, UsedKeys(schedule, decr), e);
    ReversedTwice(schedule);
  }

  lemma ReversedTwice<T>(s: seq<T>)
    ensures Reversed(Reversed(s)) == s
  {
  }

  lemma TwoRounds(p: Pair, keys: seq<Bits>, e: seq<Half>, n: nat)
    requires |p.l| == 32 && |p.r| == 32 && |e| == 48 && Schedule(keys) && n + 2 <= |keys|
    ensures var q := Rounds(p, keys[..n], e);
      var l := Xor(q.l, Mixed(q.r, keys[n], e));
      var r := Xor(q.r, Mixed(l, keys[n + 1], e));
      Rounds(p, keys[..n + 2], e) == Pair(l, r)
  {
    hide Mixed, Xor;
    assert keys[..n + 2] == keys[..n] + [keys[n], keys[n + 1]];
    RoundsConcat(p, keys[..n], [keys[n], keys[n + 1]], e);
    var q := Rounds(p, keys[..n], e);
    var l := Xor(q.l, Mixed(q.r, keys[n], e));
    assert [keys[n], keys[n + 1]][1..] == [keys[n + 1]];
    assert Rounds(q, [keys[n], keys[n + 1]], e) == Rounds(Pair(q.r, l), [keys[n + 1]], e);
    assert [keys[n + 1]][1..] == [];
  }

  class Cipher {
    var schedule: seq<Bits>
    var e: seq<Half>

    ghost predicate Valid()
      reads this
    {
      |schedule| == 16 && Schedule(schedule) && |e| == 48
    }

    /** Two rounds in place, so that both halves are back in their places. */
    method DoubleRound(tmp: array<bool>, key0: Bits, key1: Bits)
      requires tmp.Length == 64 && |key0| == |key1| == 48 && |e| == 48
      modifies tmp
      ensures var q := old(Halves(tmp[..]));
        var l := Xor(q.l, Mixed(q.r, key0, e));
        Halves(tmp[..]) == Pair(l, Xor(q.r, Mixed(l, key1, e)))
    {
      hide Mixed, Xor;
      assert tmp[..][..32] == tmp[0..32] && tmp[..][32..] == tmp[32..64];
      CryptMain(tmp, 0, 32, key0, e);
      CryptMain(tmp, 32, 0, key1, e);
      assert tmp[..][..32] == tmp[0..32] && tmp[..][32..] == tmp[32..64];
    }

    /** Enciphers a block in place, or deciphers it by using the keys backwards. */
    method Encrypt(block: array<bool>, decr: bool)
      requires Valid() && block.Length == 64
      modifies block
      ensures block[..] == Enciphered(old(block[..]), UsedKeys(schedule, decr), e)
    {
      hide Mixed, Xor, Permuted, Rounds;
      ghost var keys := UsedKeys(schedule, decr);
      var tmp := new bool[64];
      Perm(tmp, block[..], Initial);
      ghost var start := Halves(tmp[..]);
      var schl := if decr then 15 else 0;
      NoRounds(start, e);
      for i := 0 to 8
        invariant tmp.Length == 64 && fresh(tmp) && block[..] == old(block[..])
        invariant schl == if decr then 15 - 2 * i else 2 * i
        invariant Halves(tmp[..]) == Rounds(start, keys[..2 * i], e)
      {
        TwoRounds(start, keys, e, 2 * i);
        var next := if decr then schl - 1 else schl + 1;
        DoubleRound(tmp, schedule[schl], schedule[next]);
        schl := if decr then next - 1 else next + 1;
      }
      assert keys[..16] == keys;
      assert tmp[..] == tmp[..][..32] + tmp[..][32..];
      Perm(block, tmp[..], Final);
    }

    /** Fills the key schedule from a key. */
    method SetKey(key: Bits)
      requires |key| == 64
      modifies this
      ensures Valid() && schedule == KeySchedule(key) && e == Expansion()
    {
      hide Shifted, RoundKey, At;
      e := Expansion();
      var tmp1 := Reduced56(key);
      var ls: nat, shval: nat := 0x7efc, 0;
      schedule := [];
      NotShifted();
      for i := 0 to 16
        invariant ls == Shifted(0x7efc, i) && shval == TotalShift(i) && e == Expansion()
        invariant schedule == KeySchedule(key)[..i]
      {
        ShiftBits(i);
        HalvedAgain(i);
        shval := shval + 1 + ls % 2;
        var row := SetRoundKey(tmp1, shval, key, i);
        schedule := schedule + [row];
        ls := ls / 2;
      }
      assert KeySchedule(key)[..16] == KeySchedule(key);
    }
  }

  /** The round key taken from the key by index arithmetic. */
  method SetRoundKey(tmp1: Bits, shval: nat, ghost key: Bits, ghost round: nat) returns (row: Bits)
    requires |key| == 64 && tmp1 == Reduced56(key) && shval == TotalShift(round + 1)
    ensures row == RoundKey(key, round)
  {
    hide RoundKey, Reduced56, TotalShift, Thinned;
    row := [];
    for j := 0 to 48
      invariant row == RoundKey(key, round)[..j]
    {
      RoundKeyAt(key, round, j);
      var k: nat := Thinned(j);
      if k >= 28 {
        k := k + shval;
        if k >= 56 {
          k := (k - 28) % 28 + 28;
        }
      } else {
        k := k + shval;
        if k >= 28 {
          k := k % 28;
        }
      }
      assert k == KeyPlace(Thinned(j), shval);
      row := row + [tmp1[k]];
    }
    assert RoundKey(key, round)[..48] == RoundKey(key, round);
  }

  /** The expansion table before any salt is applied. */
  function Expansion(): (e: seq<Half>)
    ensures |e| == 48
  {
    seq(48, j requires 0 <= j < 48 => At(E0, j, 0))
  }

  lemma NotShifted()
    ensures Shifted(0x7efc, 0) == 0x7efc
  {
  }

  lemma HalvedAgain(i: nat)
    ensures Shifted(0x7efc, i + 1) == Shifted(0x7efc, i) / 2
  {
  }

  lemma NoRounds(p: Pair, e: seq<Half>)
    requires |p.l| == 32 && |p.r| == 32 && |e| == 48
    ensures Rounds(p, [], e) == p
  {
  }
}
