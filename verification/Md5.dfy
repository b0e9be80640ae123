/** Buffering, counting and padding around a 64-byte block function. */
module Md5 {
  import opened Bytes
  import opened Division
  import opened Sequences

  const TWO32: nat := 0x1_0000_0000
  const TWO64: nat := 0x1_0000_0000_0000_0000

  // --- What a digest is (sections 3.1 to 3.4 of RFC 1321) ---

  /** The block function folded over the whole blocks of a message. */
  function Fold<S>(transform: (S, seq<byte>) -> S, s: S, m: seq<byte>): S {
    if |m| < 64 then s else Fold(transform, transform(s, m[..64]), m[64..])
  }

  function Zeros(n: nat): seq<byte> {
    seq(n, _ => 0 as byte)
  }

  /** Little-endian bytes of the low bits of a number. */
  function LittleEndian(x: nat, n: nat): (b: seq<byte>)
    ensures |b| == n
  {
    if n == 0 then [] else [(x % 256) as byte] + LittleEndian(x / 256, n - 1)
  }

  /** One bit, then zero bits up to 56 bytes modulo 64, then the low 64 bits of
    * the length in bits. */
  function Padded(m: seq<byte>): seq<byte> {
    m + [0x80 as byte] + Zeros((55 - |m|) % 64) + LittleEndian(8 * |m|, 8)
  }

  lemma PaddedInBlocks(m: seq<byte>)
    ensures |Padded(m)| % 64 == 0 && |m| + 9 <= |Padded(m)| < |m| + 73
  {
    hide Zeros, LittleEndian;
    var k, pad := (55 - |m|) / 64, (55 - |m|) % 64;
    assert |Zeros(pad)| == pad by { ZerosLength(pad); }
    assert |Padded(m)| == 64 * (1 - k);
    Quotient(64, 1 - k, 0);
  }

  lemma ZerosLength(n: nat)
    ensures |Zeros(n)| == n
  {
  }

  lemma {:induction false} FoldConcat<S>(transform: (S, seq<byte>) -> S, s: S, a: seq<byte>, b: seq<byte>)
    requires |a| % 64 == 0
    ensures Fold(transform, s, a + b) == Fold(transform, Fold(transform, s, a), b)
    decreases |a|
  {
    if a == [] {
      assert a + b == b;
    } else {
      FoldConcat(transform, transform(s, a[..64]), a[64..], b);
      assert (a + b)[..64] == a[..64] && (a + b)[64..] == a[64..] + b;
    }
  }

  /** Only the low bits matter. */
  lemma {:induction false} LowBits(x: nat, y: nat, n: nat)
    requires x % Power(n) == y % Power(n)
    ensures LittleEndian(x, n) == LittleEndian(y, n)
  {
    if n > 0 {
      DropByte(x, Power(n - 1));
      DropByte(y, Power(n - 1));
      LowBits(x / 256, y / 256, n - 1);
    }
  }

  function Power(n: nat): (p: nat)
    ensures p > 0
  {
    if n == 0 then 1 else 256 * Power(n - 1)
  }

  lemma DropByte(x: nat, p: nat)
    requires p > 0
    ensures x % 256 == (x % (256 * p)) % 256 && (x / 256) % p == (x % (256 * p)) / 256
  {
    var q, r := x / (256 * p), x % (256 * p);
    var t, b := r / 256, r % 256;
    assert x == 256 * p * q + r;
    assert x == 256 * (p * q + t) + b;
    Quotient(256, p * q + t, b);
    assert t < p;
    Quotient(p, q, t);
  }

  function Shift(x: nat, k: nat): nat {
    if k == 0 then x else Shift(x / 256, k - 1)
  }

  lemma {:induction false} SplitEndian(x: nat, k: nat, n: nat)
    requires k <= n
    ensures LittleEndian(x, n) == LittleEndian(x, k) + LittleEndian(Shift(x, k), n - k)
  {
    if k > 0 {
      SplitEndian(x / 256, k - 1, n - 1);
    } else {
      assert [] + LittleEndian(x, n) == LittleEndian(x, n);
    }
  }

  lemma ShiftWord(x: nat)
    ensures Shift(x, 4) == x / TWO32
  {
    var x2 := x / 256 / 256;
    assert x2 == x / 65536;
    assert x2 / 256 / 256 == x2 / 65536;
    assert Shift(x, 4) == Shift(x / 256, 3) == Shift(x2, 2);
    assert Shift(x2, 2) == Shift(x2 / 256, 1) == Shift(x2 / 256 / 256, 0);
  }

  lemma Powers()
    ensures Power(4) == TWO32 && Power(8) == TWO64
  {
    assert Power(2) == 65536;
    assert Power(4) == 65536 * Power(2);
    assert Power(6) == 65536 * Power(4);
  }

  const TWO29: nat := 0x2000_0000

  /** The two words of the length in bits, as computed from the byte count. */
  function LowWord(low: nat): nat {
    8 * low % TWO32
  }

  function HighWord(low: nat, high: nat): nat {
    8 * high % TWO32 + low / TWO29
  }

  lemma TimesEight(x: nat)
    ensures 8 * x % TWO32 == 8 * (x % TWO29) && 8 * x / TWO32 == x / TWO29
  {
    assert x == TWO29 * (x / TWO29) + x % TWO29;
    Unique(TWO32, 8 * x / TWO32, 8 * x % TWO32, x / TWO29, 8 * (x % TWO29));
  }

  /** Two words count a number modulo 2 to the 64. */
  ghost predicate Counts(n: nat, low: nat, high: nat) {
    low < TWO32 && high < TWO32 && n % TWO64 == high * TWO32 + low
  }

  lemma BitLength(n: nat, low: nat, high: nat)
    requires Counts(n, low, high)
    ensures 8 * n % TWO64 == TWO32 * HighWord(low, high) + LowWord(low)
    ensures HighWord(low, high) < TWO32 && LowWord(low) < TWO32
  {
    TimesEight(low);
    TimesEight(high);
    var word, l := HighWord(low, high), LowWord(low);
    var k := 8 * (n / TWO64) + high / TWO29;
    assert word == 8 * (high % TWO29) + low / TWO29 && l == 8 * (low % TWO29);
    assert low == TWO29 * (low / TWO29) + low % TWO29;
    assert high == TWO29 * (high / TWO29) + high % TWO29;
    assert n == TWO64 * (n / TWO64) + (high * TWO32 + low);
    assert 8 * n == TWO64 * k + (TWO32 * word + l);
    Unique(TWO64, 8 * n / TWO64, 8 * n % TWO64, k, TWO32 * word + l);
  }

  lemma Halves(x: nat, high: nat, low: nat)
    requires x == TWO32 * high + low && low < TWO32
    ensures x / TWO32 == high && x % TWO32 == low
  {
    Unique(TWO32, x / TWO32, x % TWO32, high, low);
  }

  /** The length in bits, made of a two-word count of bytes. */
  lemma LengthWords(n: nat, low: nat, high: nat)
    requires Counts(n, low, high)
    ensures LittleEndian(8 * n, 8) == LittleEndian(LowWord(low), 4) + LittleEndian(HighWord(low, high), 4)
  {
    hide LowWord, HighWord;
    var x := 8 * n % TWO64;
    Powers();
    BitLength(n, low, high);
    Halves(x, HighWord(low, high), LowWord(low));
    Reduced(8 * n, TWO64);
    LowBits(8 * n, x, 8);
    SplitEndian(x, 4, 8);
    ShiftWord(x);
    Reduced(x, TWO32);
    LowBits(x, LowWord(low), 4);
  }

  lemma Reduced(x: nat, p: nat)
    requires p > 0
    ensures x % p % p == x % p
  {
  }

  lemma {:induction false} EndianInjective(x: nat, y: nat, n: nat)
    requires x < Power(n) && y < Power(n) && LittleEndian(x, n) == LittleEndian(y, n)
    ensures x == y
  {
    if n > 0 {
      var a, b := LittleEndian(x, n), LittleEndian(y, n);
      assert a[0] == b[0] && a[1..] == LittleEndian(x / 256, n - 1) && b[1..] == LittleEndian(y / 256, n - 1);
      EndianInjective(x / 256, y / 256, n - 1);
    }
  }

  /** Different messages never share their padded form. */
  lemma PaddingInjective(a: seq<byte>, b: seq<byte>)
    requires Padded(a) == Padded(b)
    ensures a == b
  {
    hide LittleEndian, Zeros;
    var p, m, n := Padded(a), |a|, |b|;
    PaddedInBlocks(a);
    PaddedInBlocks(b);
    assert p[|p| - 8..] == LittleEndian(8 * m, 8) && p[|p| - 8..] == LittleEndian(8 * n, 8);
    SameLengthField(m, n);
    assert p[..m] == a && p[..n] == b;
  }

  /** The length field tells lengths apart that differ by less than a block. */
  lemma SameLengthField(m: nat, n: nat)
    requires LittleEndian(8 * m, 8) == LittleEndian(8 * n, 8) && -64 < m - n < 64
    ensures m == n
  {
    hide LittleEndian;
    Powers();
    var x, y := 8 * m % TWO64, 8 * n % TWO64;
    Reduced(8 * m, TWO64);
    Reduced(8 * n, TWO64);
    LowBits(8 * m, x, 8);
    LowBits(8 * n, y, 8);
    EndianInjective(x, y, 8);
    assert 8 * m - 8 * n == TWO64 * (8 * m / TWO64 - 8 * n / TWO64);
  }

  // --- The context ---

  method CopyInto(target: array<byte>, at: nat, source: seq<byte>)
    requires at + |source| <= target.Length
    modifies target
    ensures target[..] == old(target[..at]) + source + old(target[at + |source|..])
  {
    ghost var was := target[..];
    var i := 0;
    while i < |source|
      invariant 0 <= i <= |source|
      invariant forall k :: 0 <= k < target.Length ==> target[k] == if at <= k < at + i then source[k - at] else was[k]
    {
      target[at + i] := source[i];
      i := i + 1;
    }
    Copied(target[..], was, at, source);
  }

  lemma Copied(t: seq<byte>, was: seq<byte>, at: nat, source: seq<byte>)
    requires at + |source| <= |t| == |was|
    requires forall k :: 0 <= k < |t| ==> t[k] == if at <= k < at + |source| then source[k - at] else was[k]
    ensures t == was[..at] + source + was[at + |source|..]
  {
  }

  /** A sum smaller than its first part tells of a carry. */
  lemma Carried(low: nat, high: nat, len: nat)
    requires len < TWO32 && low < TWO32 && high < TWO32
    ensures var low' := (low + len) % TWO32;
            var high' := if low' < low then (high + 1) % TWO32 else high;
            high' * TWO32 + low' == (high * TWO32 + low + len) % TWO64
  {
    var x, sum := high * TWO32 + low + len, low + len;
    if sum < TWO32 {
      Unique(TWO64, x / TWO64, x % TWO64, 0, x);
    } else {
      Unique(TWO32, sum / TWO32, sum % TWO32, 1, sum - TWO32);
      if high + 1 < TWO32 {
        Unique(TWO64, x / TWO64, x % TWO64, 0, x);
      } else {
        Unique(TWO64, x / TWO64, x % TWO64, 1, x - TWO64);
      }
    }
  }

  class Context<S> {
    const transform: (S, seq<byte>) -> S
    const start: S
    var buf: S
    var bytes0: nat
    var bytes1: nat
    const block: array<byte>
    ghost var message: seq<byte>

    /** Whole blocks are digested, the rest is buffered, and the count is the
      * length modulo 2 to the 64. */
    ghost predicate Valid()
      reads this, block
    {
      && block.Length == 64
      && Counts(|message|, bytes0, bytes1)
      && Buffered(block[..], buf, message)
    }

    ghost predicate Buffered(block: seq<byte>, buf: S, m: seq<byte>)
      requires |block| == 64
    {
      var rest := |m| % 64;
      block[..rest] == m[|m| - rest..] && buf == Fold(transform, start, m[..|m| - rest])
    }

    constructor (transform: (S, seq<byte>) -> S, start: S)
      ensures Valid() && message == [] && fresh(block) && this.transform == transform && this.start == start
    {
      this.transform, this.start, buf := transform, start, start;
      bytes0, bytes1, message := 0, 0, [];
      block := new byte[64](_ => 0);
    }

    method Count(len: nat)
      requires len < TWO32 && bytes0 < TWO32 && bytes1 < TWO32
      modifies this`bytes0, this`bytes1
      ensures bytes0 < TWO32 && bytes1 < TWO32
      ensures bytes1 * TWO32 + bytes0 == (old(bytes1 * TWO32 + bytes0) + len) % TWO64
    {
      Carried(bytes0, bytes1, len);
      var t := bytes0;
      bytes0 := (t + len) % TWO32;
      if bytes0 < t {
        bytes1 := (bytes1 + 1) % TWO32;
      }
    }

    lemma Tail(done: seq<byte>, rest: seq<byte>)
      requires |done| % 64 == 0 && |rest| < 64
      ensures |done + rest| % 64 == |rest|
    {
    }

    lemma BufferedAt(block: seq<byte>, buf: S, done: seq<byte>, rest: seq<byte>)
      requires |block| == 64 && |done| % 64 == 0 && |rest| < 64
      requires buf == Fold(transform, start, done) && block[..|rest|] == rest
      ensures Buffered(block, buf, done + rest)
    {
      hide Fold;
      var m := done + rest;
      Tail(done, rest);
      assert m[|m| - |rest|..] == rest && m[..|m| - |rest|] == done;
    }

    lemma BufferedParts(block: seq<byte>, buf: S, m: seq<byte>) returns (done: seq<byte>, rest: seq<byte>)
      requires |block| == 64 && Buffered(block, buf, m)
      ensures m == done + rest && |done| % 64 == 0 && |rest| == |m| % 64
      ensures buf == Fold(transform, start, done) && block[..|rest|] == rest
    {
      var r := |m| % 64;
      done, rest := m[..|m| - r], m[|m| - r..];
    }

    /** Digests a full block. */
    method Absorb(ghost done: seq<byte>)
      requires block.Length == 64 && |done| % 64 == 0 && buf == Fold(transform, start, done)
      modifies this`buf
      ensures |done + block[..]| % 64 == 0 && buf == Fold(transform, start, done + block[..])
    {
      ghost var b := block[..];
      FoldConcat(transform, start, done, b);
      assert b[..64] == b && b[64..] == [];
      buf := transform(buf, block[..]);
    }

    /** Appends data to the message. */
    method Update(data: seq<byte>)
      requires Valid() && |data| < TWO32
      modifies this`buf, this`bytes0, this`bytes1, this`message, block
      ensures Valid() && message == old(message) + data
    {
      hide Fold, Buffered;
      CountsOn(|message|, |data|, bytes0, bytes1);
      LowSixBits(|message|, bytes0, bytes1);
      var t := 64 - bytes0 % 64;
      ghost var done, tail := BufferedParts(block[..], buf, message);
      Count(|data|);
      message := message + data;
      Store(data, t, done, tail);
    }

    method Store(data: seq<byte>, t: nat, ghost done: seq<byte>, ghost tail: seq<byte>)
      requires block.Length == 64 && |done| % 64 == 0 && |tail| == 64 - t && 0 < t
      requires buf == Fold(transform, start, done) && block[..|tail|] == tail
      modifies this`buf, block
      ensures Buffered(block[..], buf, done + tail + data)
    {
      hide Buffered, Fold;
      if t > |data| {
        CopyInto(block, 64 - t, data);
        BufferedAt(block[..], buf, done, tail + data);
        assert done + tail + data == done + (tail + data);
        return;
      }
      CopyInto(block, 64 - t, data[..t]);
      assert block[..] == tail + data[..t];
      Absorb(done);
      Resplit(done, tail, data, t);
      StoreBlocks(data[t..], done + block[..]);
    }

    method StoreBlocks(data: seq<byte>, ghost done: seq<byte>)
      requires block.Length == 64 && |done| % 64 == 0 && buf == Fold(transform, start, done)
      modifies this`buf, block
      ensures Buffered(block[..], buf, done + data)
    {
      hide Buffered, Fold;
      var rest := data;
      ghost var full := done;
      while |rest| >= 64
        invariant |full| % 64 == 0 && buf == Fold(transform, start, full) && full + rest == done + data
      {
        CopyInto(block, 0, rest[..64]);
        assert block[..] == rest[..64];
        Absorb(full);
        assert full + block[..] + rest[64..] == full + rest;
        full := full + block[..];
        rest := rest[64..];
      }
      CopyInto(block, 0, rest);
      BufferedAt(block[..], buf, full, rest);
    }

    /** Writes the first padding byte and, if the length does not fit behind it,
      * digests a block; leaves 56 bytes ready in the buffer. */
    method Pad(ghost done: seq<byte>, ghost tail: seq<byte>) returns (ghost full: seq<byte>)
      requires block.Length == 64 && |done| % 64 == 0 && |tail| == bytes0 % 64
      requires buf == Fold(transform, start, done) && block[..|tail|] == tail
      modifies this`buf, block
      ensures |full| % 64 == 0 && buf == Fold(transform, start, full)
      ensures full + block[..56] == done + tail + [0x80 as byte] + Zeros((55 - |done + tail|) % 64)
    {
      hide Fold;
      var count := bytes0 % 64;
      block[count] := 0x80;
      var p := count + 1;
      count := 56 - 1 - count;
      full := done;
      ghost var head := tail + [0x80 as byte];
      assert block[..p] == head;
      if count < 0 {
        CopyInto(block, p, Zeros(count + 8));
        assert block[..] == head + Zeros(count + 8);
        Absorb(done);
        full := done + block[..];
        p, count, head := 0, 56, [];
      }
      ghost var was := block[..p];
      CopyInto(block, p, Zeros(count));
      assert block[..56] == head + Zeros(count);
      PadLength(done, tail);
    }

    /** Writes the length in bits behind the padding. */
    method PutLength(ghost n: nat)
      requires block.Length == 64 && Counts(n, bytes0, bytes1)
      modifies block
      ensures block[..] == old(block[..56]) + LittleEndian(8 * n, 8)
    {
      LengthWords(n, bytes0, bytes1);
      hide LittleEndian, LowWord, HighWord, Counts;
      ghost var was := block[..];
      CopyInto(block, 56, LittleEndian(LowWord(bytes0), 4));
      ghost var half := block[..];
      CopyInto(block, 60, LittleEndian(HighWord(bytes0, bytes1), 4));
      LengthPut(was, half, block[..], LittleEndian(LowWord(bytes0), 4), LittleEndian(HighWord(bytes0, bytes1), 4));
    }

    static lemma LengthPut(was: seq<byte>, half: seq<byte>, now: seq<byte>, low: seq<byte>, high: seq<byte>)
      requires |was| == 64 && |low| == |high| == 4
      requires half == was[..56] + low + was[60..] && now == half[..60] + high + half[64..]
      ensures now == was[..56] + (low + high)
    {
      assert half[..60] == was[..56] + low;
    }

    /** The digest of everything appended; the context is cleared. */
    method Final(zero: S) returns (digest: S)
      requires Valid()
      modifies this`buf, this`bytes0, this`bytes1, block
      ensures digest == Fold(transform, start, Padded(message))
      ensures buf == zero && bytes0 == bytes1 == 0 && block[..] == Zeros(64)
    {
      hide Fold, Buffered, Padded, LittleEndian;
      LowSixBits(|message|, bytes0, bytes1);
      ghost var done, tail := BufferedParts(block[..], buf, message);
      ghost var full := Pad(done, tail);
      ghost var ready := block[..56];
      PutLength(|message|);
      PaddedIs(full, ready, message);
      Absorb(full);
      digest := buf;
      buf, bytes0, bytes1 := zero, 0, 0;
      CopyInto(block, 0, Zeros(64));
    }
  }

  lemma Resplit<T>(a: seq<T>, b: seq<T>, c: seq<T>, t: nat)
    requires t <= |c|
    ensures a + (b + c[..t]) + c[t..] == a + b + c
  {
  }

  lemma PaddedIs(full: seq<byte>, ready: seq<byte>, m: seq<byte>)
    requires full + ready == m + [0x80 as byte] + Zeros((55 - |m|) % 64)
    ensures full + (ready + LittleEndian(8 * |m|, 8)) == Padded(m)
  {
    hide LittleEndian;
  }

  lemma PadLength(done: seq<byte>, tail: seq<byte>)
    requires |done| % 64 == 0 && |tail| < 64
    ensures var c := 55 - |tail|;
      (55 - |done + tail|) % 64 == if c < 0 then c + 64 else c
  {
  }

  /** Any way of splitting a message into updates gives its digest. */
  method Digest<S>(transform: (S, seq<byte>) -> S, start: S, zero: S, chunks: seq<seq<byte>>) returns (digest: S)
    requires forall c :: c in chunks ==> |c| < TWO32
    ensures digest == Fold(transform, start, Padded(Concat(chunks)))
  {
    var context := new Context(transform, start);
    var i := 0;
    while i < |chunks|
      invariant 0 <= i <= |chunks| && context.Valid() && fresh(context) && fresh(context.block)
      invariant context.transform == transform && context.start == start
      invariant context.message == Concat(chunks[..i])
    {
      assert chunks[..i + 1][..i] == chunks[..i];
      context.Update(chunks[i]);
      i := i + 1;
    }
    assert chunks[..i] == chunks;
    digest := context.Final(zero);
  }

  lemma CountsOn(m: nat, len: nat, low: nat, high: nat)
    requires Counts(m, low, high)
    ensures (m + len) % TWO64 == (high * TWO32 + low + len) % TWO64
  {
    var c := high * TWO32 + low + len;
    assert m + len == TWO64 * (m / TWO64 + c / TWO64) + c % TWO64;
    Unique(TWO64, (m + len) / TWO64, (m + len) % TWO64, m / TWO64 + c / TWO64, c % TWO64);
  }

  lemma LowSixBits(m: nat, low: nat, high: nat)
    requires Counts(m, low, high)
    ensures m % 64 == low % 64
  {
    var k := 0x400_0000_0000_0000 * (m / TWO64) + 0x400_0000 * high + low / 64;
    assert m == TWO64 * (m / TWO64) + high * TWO32 + low;
    assert m == 64 * k + low % 64;
    Unique(64, m / 64, m % 64, k, low % 64);
  }
}
