/** The base 64 encoding of section 4 of RFC 4648. */
module Base64 {
  import opened Bytes
  import opened Division
  import opened Sequences

  const PAD: byte := 61

  // --- The alphabet ---

  function Letter(v: nat): byte {
    var i := v % 64;
    if i < 26 then (65 + i) as byte
    else if i < 52 then (71 + i) as byte
    else if i < 62 then (i - 4) as byte
    else if i == 62 then 43
    else 47
  }

  datatype Symbol = Data(value: nat) | Invalid | Space | End

  /** What the decoding table says of a character. */
  function Lookup(c: byte): Symbol {
    if 65 <= c <= 90 then Data(c as nat - 65)
    else if 97 <= c <= 122 then Data(c as nat - 71)
    else if 48 <= c <= 57 then Data(c as nat + 4)
    else if c == 43 then Data(62)
    else if c == 47 then Data(63)
    else if c == 61 then End
    else if 9 <= c <= 13 || c == 32 then Space
    else Invalid
  }

  lemma LetterLookup(v: nat, c: byte)
    ensures Lookup(c) == Data(v) ==> v < 64 && c == Letter(v)
    ensures v < 64 ==> Lookup(Letter(v)) == Data(v)
  {
  }

  // --- Encoding in one go ---

  /** Groups of three bytes become four letters; a last group of one or two
    * bytes is completed with padding. */
  function Encode(b: seq<byte>): seq<byte> {
    if |b| == 0 then []
    else if |b| < 3 then LastGroup(b)
    else Group(b) + Encode(b[3..])
  }

  function Sextet0(b: seq<byte>): nat
    requires |b| >= 1
  {
    b[0] as nat / 4
  }

  function Sextet1(b: seq<byte>): nat
    requires |b| >= 2
  {
    b[0] as nat % 4 * 16 + b[1] as nat / 16
  }

  function Sextet2(b: seq<byte>): nat
    requires |b| >= 3
  {
    b[1] as nat % 16 * 4 + b[2] as nat / 64
  }

  function Group(b: seq<byte>): (g: seq<byte>)
    requires |b| >= 3
    ensures |g| == 4
  {
    [Letter(Sextet0(b)), Letter(Sextet1(b)), Letter(Sextet2(b)), Letter(b[2] as nat % 64)]
  }

  function LastGroup(b: seq<byte>): (g: seq<byte>)
    requires 0 < |b| < 3
    ensures |g| == 4
  {
    if |b| == 1 then [Letter(Sextet0(b)), Letter(b[0] as nat % 4 * 16), PAD, PAD]
    else [Letter(Sextet0(b)), Letter(Sextet1(b)), Letter(b[1] as nat % 16 * 4), PAD]
  }

  function RawLength(n: nat): nat {
    (n + 2) / 3 * 4
  }

  lemma RawSteps(n: nat)
    ensures RawLength(0) == 0
    ensures n % 3 != 0 ==> RawLength(n) == RawLength(n - n % 3) + 4
    ensures n >= 3 ==> RawLength(n) == RawLength(n - 3) + 4
  {
  }

  lemma {:induction false} EncodedLength(b: seq<byte>)
    ensures |Encode(b)| == RawLength(|b|)
  {
    hide Letter, Group, LastGroup;
    if |b| >= 3 {
      EncodedLength(b[3..]);
      assert Encode(b) == Group(b) + Encode(b[3..]);
    }
  }

  lemma SameGroup(a: seq<byte>, b: seq<byte>)
    requires |a| >= 3
    ensures Group(a + b) == Group(a)
  {
    hide Letter;
  }

  lemma {:induction false} EncodeConcat(a: seq<byte>, b: seq<byte>)
    requires |a| % 3 == 0
    ensures Encode(a + b) == Encode(a) + Encode(b)
  {
    hide Letter, Group, LastGroup;
    if a == [] {
      assert a + b == b;
    } else {
      EncodeConcat(a[3..], b);
      assert (a + b)[3..] == a[3..] + b;
      SameGroup(a, b);
    }
  }

  lemma SameLetter(x: nat, y: nat, k: nat)
    requires x == y + 64 * k
    ensures Letter(x) == Letter(y)
  {
    assert x % 64 == y % 64;
  }

  /** Only the low six bits choose a letter, so higher bits need no masking. */
  lemma HighBitsIgnored(a: nat, b: nat)
    ensures Letter(a * 16 + b) == Letter(a % 4 * 16 + b)
    ensures Letter(a * 4 + b) == Letter(a % 16 * 4 + b)
    ensures Letter(a) == Letter(a % 64)
  {
    hide Letter;
    SameLetter(a * 16 + b, a % 4 * 16 + b, a / 4);
    SameLetter(a * 4 + b, a % 16 * 4 + b, a / 16);
    SameLetter(a, a % 64, a / 64);
  }

  method PutGroup(target: array<byte>, out: nat, b: seq<byte>)
    requires |b| >= 3 && 4 <= out <= target.Length
    modifies target
    ensures target[..] == old(target[..out - 4]) + Group(b) + old(target[out..])
  {
    GroupLetters(b);
    hide Letter, Group;
    PutFour(target, out, Letter(Sextet0(b)), Letter(b[0] as nat * 16 + b[1] as nat / 16),
            Letter(b[1] as nat * 4 + b[2] as nat / 64), Letter(b[2] as nat));
  }

  /** Four characters, the last one first. */
  method PutFour(target: array<byte>, out: nat, c0: byte, c1: byte, c2: byte, c3: byte)
    requires 4 <= out <= target.Length
    modifies target
    ensures target[..] == old(target[..out - 4]) + [c0, c1, c2, c3] + old(target[out..])
  {
    target[out - 1] := c3;
    target[out - 2] := c2;
    target[out - 3] := c1;
    target[out - 4] := c0;
  }

  lemma GroupLetters(b: seq<byte>)
    requires |b| >= 3
    ensures Group(b) == [Letter(Sextet0(b)), Letter(b[0] as nat * 16 + b[1] as nat / 16),
                         Letter(b[1] as nat * 4 + b[2] as nat / 64), Letter(b[2] as nat)]
  {
    HighBitsIgnored(b[0] as nat, b[1] as nat / 16);
    HighBitsIgnored(b[1] as nat, b[2] as nat / 64);
    HighBitsIgnored(b[2] as nat, 0);
    hide Letter;
  }

  lemma LastGroupLetters(b: seq<byte>)
    requires 0 < |b| < 3
    ensures |b| == 1 ==> LastGroup(b) == [Letter(Sextet0(b)), Letter(b[0] as nat * 16), PAD, PAD]
    ensures |b| == 2 ==> LastGroup(b) == [Letter(Sextet0(b)), Letter(b[0] as nat * 16 + b[1] as nat / 16),
                                          Letter(b[1] as nat * 4), PAD]
  {
    if |b| == 1 {
      HighBitsIgnored(b[0] as nat, 0);
    } else {
      HighBitsIgnored(b[0] as nat, b[1] as nat / 16);
      HighBitsIgnored(b[1] as nat, 0);
    }
    hide Letter;
  }

  method PutLastGroup(target: array<byte>, out: nat, b: seq<byte>)
    requires 0 < |b| < 3 && 4 <= out <= target.Length
    modifies target
    ensures target[..] == old(target[..out - 4]) + LastGroup(b) + old(target[out..])
  {
    LastGroupLetters(b);
    hide Letter, LastGroup;
    if |b| == 1 {
      PutFour(target, out, Letter(Sextet0(b)), Letter(b[0] as nat * 16), PAD, PAD);
    } else {
      PutFour(target, out, Letter(Sextet0(b)), Letter(b[0] as nat * 16 + b[1] as nat / 16),
              Letter(b[1] as nat * 4), PAD);
    }
  }

  /** Writes the encoding of whole groups, from their end backwards. */
  method PutGroups(target: array<byte>, at: nat, source: seq<byte>)
    requires |source| % 3 == 0 && at + RawLength(|source|) <= target.Length
    modifies target
    ensures target[..] == old(target[..at]) + Encode(source) + old(target[at + RawLength(|source|)..])
  {
    hide Group, LastGroup, RawLength;
    var i, out := |source|, at + RawLength(|source|);
    RawSteps(0);
    assert source[i..] == [];
    ghost var before, end := target[..], out;
    while i > 0
      invariant 0 <= i <= |source| && i % 3 == 0 && out == at + RawLength(i) <= end <= target.Length
      invariant target[..] == before[..out] + Encode(source[i..]) + before[end..]
    {
      RawSteps(i);
      ghost var was := target[..];
      PutGroup(target, out, source[i - 3..i]);
      EncodeStep(source, i - 3);
      Shifted(was, before, out, Encode(source[i..]), end, Group(source[i - 3..i]));
      i, out := i - 3, out - 4;
    }
    assert source[0..] == source;
  }

  lemma EncodeStep(s: seq<byte>, i: nat)
    requires i + 3 <= |s|
    ensures Encode(s[i..]) == Group(s[i..i + 3]) + Encode(s[i + 3..])
  {
    hide Letter, Group, LastGroup;
    assert s[i..] == s[i..i + 3] + s[i + 3..];
    SameGroup(s[i..i + 3], s[i + 3..]);
    assert s[i..][3..] == s[i + 3..];
  }

  lemma Shifted<T>(was: seq<T>, before: seq<T>, out: nat, code: seq<T>, end: nat, group: seq<T>)
    requires |group| == 4 <= out <= end <= |before| && was == before[..out] + code + before[end..]
    ensures was[..out - 4] + group + was[out..] == before[..out - 4] + (group + code) + before[end..]
  {
    assert was[..out - 4] == before[..out - 4];
    assert was[out..] == code + before[end..];
  }

  /** Writes the encoding into the target, from its end backwards. */
  method EncodeRaw(target: array<byte>, at: nat, source: seq<byte>)
    requires at + RawLength(|source|) <= target.Length
    modifies target
    ensures target[..] == old(target[..at]) + Encode(source) + old(target[at + RawLength(|source|)..])
  {
    hide Group, LastGroup, RawLength;
    var n := |source|;
    RawSteps(n);
    var leftOver := n % 3;
    var out := at + RawLength(n);
    if leftOver != 0 {
      n := n - leftOver;
      PutLastGroup(target, out, source[n..]);
      assert source == source[..n] + source[n..];
      EncodeConcat(source[..n], source[n..]);
    } else {
      assert source[..n] == source;
    }
    PutGroups(target, at, source[..n]);
  }

  // --- Encoding piece by piece ---

  /** How many bytes of the current group there are. */
  function Phase(m: seq<byte>): nat {
    |m| % 3
  }

  lemma Phases(m: seq<byte>, x: byte)
    ensures Phase(m + [x]) == if Phase(m) == 2 then 0 else Phase(m) + 1
    ensures Phase(m) > 0 ==> m != []
  {
  }

  function LastOf(m: seq<byte>): nat {
    if m == [] then 0 else m[|m| - 1] as nat
  }

  /** The letters that one more byte completes. */
  function Completed(m: seq<byte>, x: byte): seq<byte> {
    var v := x as nat;
    if Phase(m) == 0 then [Letter(v / 4)]
    else if Phase(m) == 1 then [Letter(LastOf(m) % 4 * 16 + v / 16)]
    else [Letter(LastOf(m) % 16 * 4 + v / 64), Letter(v % 64)]
  }

  /** The letters complete after a message. */
  function Emitted(m: seq<byte>): seq<byte> {
    if m == [] then [] else Emitted(m[..|m| - 1]) + Completed(m[..|m| - 1], m[|m| - 1])
  }

  /** What is left to write at the end of a message. */
  function Finish(m: seq<byte>): seq<byte> {
    if Phase(m) == 0 then []
    else if Phase(m) == 1 then [Letter(LastOf(m) % 4 * 16), PAD, PAD]
    else [Letter(LastOf(m) % 16 * 4), PAD]
  }

  lemma {:induction false} EmittedLength(m: seq<byte>)
    ensures |Emitted(m)| == 4 * (|m| / 3) + |m| % 3
  {
    hide Letter;
    if m != [] {
      EmittedLength(m[..|m| - 1]);
    }
  }

  lemma EmittedStep(m: seq<byte>, x: byte)
    ensures Emitted(m + [x]) == Emitted(m) + Completed(m, x)
  {
    hide Letter, Completed;
    assert (m + [x])[..|m|] == m;
  }

  /** The letters completed by the first bytes of a group. */
  lemma GroupCompleted(m: seq<byte>, b: seq<byte>)
    requires Phase(m) == 0
    ensures |b| >= 1 ==> Completed(m, b[0]) == [Letter(Sextet0(b))]
    ensures |b| >= 2 ==> Completed(m + [b[0]], b[1]) == [Letter(Sextet1(b))]
    ensures |b| >= 3 ==> Completed(m + [b[0]] + [b[1]], b[2]) == [Letter(Sextet2(b)), Letter(b[2] as nat % 64)]
  {
    if |b| >= 1 {
      Phases(m, b[0]);
    }
    if |b| >= 2 {
      Phases(m + [b[0]], b[1]);
    }
    hide Phase, Letter;
  }

  lemma EmittedGroup(m: seq<byte>, b: seq<byte>)
    requires |m| % 3 == 0 && |b| == 3
    ensures Emitted(m + b) == Emitted(m) + Group(b)
  {
    hide Letter, Emitted, Completed, Sextet0, Sextet1, Sextet2;
    GroupCompleted(m, b);
    hide Phase;
    EmittedStep(m, b[0]);
    EmittedStep(m + [b[0]], b[1]);
    EmittedStep(m + [b[0]] + [b[1]], b[2]);
    assert m + b == m + [b[0]] + [b[1]] + [b[2]];
  }

  lemma {:induction false} EmittedBulk(m: seq<byte>, b: seq<byte>)
    requires |m| % 3 == 0 && |b| % 3 == 0
    ensures Emitted(m + b) == Emitted(m) + Encode(b)
    decreases |b|
  {
    hide Letter, Group, Emitted;
    if b == [] {
      assert m + b == m;
    } else {
      EmittedGroup(m, b[..3]);
      assert b[0..] == b;
      EncodeStep(b, 0);
      assert m + b[..3] + b[3..] == m + b;
      EmittedBulk(m + b[..3], b[3..]);
    }
  }

  /** Piecewise output followed by the final letters is the whole encoding. */
  lemma EmittedAll(m: seq<byte>)
    ensures Emitted(m) + Finish(m) == Encode(m)
  {
    hide Emitted, Encode, Finish;
    var k := |m| - |m| % 3;
    var a, b := m[..k], m[k..];
    assert m == a + b;
    EncodeConcat(a, b);
    EmittedBulk([], a);
    NothingEmitted();
    assert [] + a == a;
    LastEmitted(a, b);
  }

  lemma NothingEmitted()
    ensures Emitted([]) == []
  {
  }

  lemma LastEmitted(a: seq<byte>, b: seq<byte>)
    requires |a| % 3 == 0 && |b| < 3
    ensures Emitted(a + b) + Finish(a + b) == Emitted(a) + Encode(b)
  {
    hide Letter, Emitted, Completed, Finish, Sextet0, Sextet1;
    GroupCompleted(a, b);
    FinishIs(a, b);
    hide Phase;
    if |b| == 0 {
      assert a + b == a;
    } else {
      EmittedStep(a, b[0]);
      if |b| == 1 {
        assert a + b == a + [b[0]];
      } else {
        EmittedStep(a + [b[0]], b[1]);
        assert a + b == a + [b[0]] + [b[1]];
      }
    }
  }

  lemma FinishIs(a: seq<byte>, b: seq<byte>)
    requires Phase(a) == 0 && |b| < 3
    ensures |b| == 0 ==> Finish(a + b) == []
    ensures |b| == 1 ==> Finish(a + b) == [Letter(b[0] as nat % 4 * 16), PAD, PAD]
    ensures |b| == 2 ==> Finish(a + b) == [Letter(b[1] as nat % 16 * 4), PAD]
  {
  }

  function Pow2(n: nat): (p: nat)
    ensures p > 0
  {
    if n == 0 then 1 else 2 * Pow2(n - 1)
  }

  /** The most letters that an update of the given size can write. */
  function UpdateLength(n: nat): nat {
    (n * 8 + 4) / 6
  }

  function Shr(w: nat, b: nat): nat {
    if b == 0 then w else Shr(w / 2, b - 1)
  }

  /** The low bits of a word are those of a message that no letter shows yet. */
  ghost predicate Holds(word: nat, bits: nat, m: seq<byte>) {
    word < 0x1_0000 && bits == 2 * Phase(m) && word % Pow2(bits) == LastOf(m) % Pow2(bits)
  }

  function Letters(w: nat, b: nat): (s: seq<byte>)
    ensures |s| == b / 6
  {
    if b < 6 then [] else [Letter(Shr(w, b - 6))] + Letters(w, b - 6)
  }

  method PutLetters(target: array<byte>, at: nat, word: nat, bits: nat) returns (b: nat, done: nat)
    requires at + bits / 6 <= target.Length
    modifies target
    ensures done == bits / 6 && b == bits % 6
    ensures target[..] == old(target[..at]) + Letters(word, bits) + old(target[at + done..])
  {
    hide Letter, Shr;
    b, done := bits, 0;
    while b >= 6
      invariant b == bits - 6 * done && at + done <= target.Length
      invariant target[..at + done] + Letters(word, b) == old(target[..at]) + Letters(word, bits)
      invariant target[at + done..] == old(target[at + done..])
    {
      b := b - 6;
      target[at + done] := Letter(Shr(word, b));
      done := done + 1;
    }
  }

  /** A buffer holds, from a position on, the letters that became complete from
    * one message to a longer one; the rest of it is as it was. */
  ghost predicate Written(t: seq<byte>, was: seq<byte>, at: nat, done: nat, before: seq<byte>, m: seq<byte>) {
    && at + done <= |t| == |was|
    && t[..at] == was[..at] && t[at + done..] == was[at + done..]
    && Emitted(m) == Emitted(before) + t[at..at + done]
  }

  lemma NothingWritten(t: seq<byte>, at: nat, m: seq<byte>)
    requires at <= |t|
    ensures Written(t, t, at, 0, m, m)
  {
    hide Emitted;
    assert t[at..at] == [];
  }

  lemma WrittenLength(t: seq<byte>, was: seq<byte>, at: nat, done: nat, before: seq<byte>, m: seq<byte>)
    requires Written(t, was, at, done, before, m)
    ensures |Emitted(m)| == |Emitted(before)| + done
  {
  }

  lemma WrittenMore(t: seq<byte>, was: seq<byte>, at: nat, have: nat, before: seq<byte>,
                    m: seq<byte>, m': seq<byte>, code: seq<byte>)
    requires Written(t, was, at, have, before, m) && Emitted(m') == Emitted(m) + code
    requires at + |Emitted(m')| - |Emitted(before)| <= |t|
    ensures at + have + |code| <= |t|
    ensures Written(t[..at + have] + code + t[at + have + |code|..], was, at, have + |code|, before, m')
  {
    hide Emitted;
    var t' := t[..at + have] + code + t[at + have + |code|..];
    assert t'[at..at + have + |code|] == t[at..at + have] + code;
  }

  class Encoder {
    var word: nat
    var bits: nat
    ghost var message: seq<byte>

    ghost predicate Valid()
      reads this
    {
      Holds(word, bits, message)
    }

    constructor ()
      ensures Valid() && message == []
    {
      word, bits, message := 0, 0, [];
    }

    method EncodeSingle(target: array<byte>, at: nat, source: byte) returns (done: nat)
      requires Valid() && at + |Completed(message, source)| <= target.Length
      modifies this, target
      ensures Valid() && message == old(message) + [source] && done == |Completed(old(message), source)|
      ensures target[..] == old(target[..at]) + Completed(old(message), source) + old(target[at + done..])
    {
      hide Completed, Holds;
      WordBits(word, bits, message, source);
      var w := word * 256 + source as nat;
      var b;
      b, done := PutLetters(target, at, w, bits + 8);
      bits, word, message := b, w % 0x1_0000, message + [source];
    }

    method PutSingle(target: array<byte>, at: nat, have: nat, source: byte, ghost was: seq<byte>, ghost before: seq<byte>)
      returns (done: nat)
      requires Valid() && Written(target[..], was, at, have, before, message)
      requires at + |Emitted(message + [source])| - |Emitted(before)| <= target.Length
      modifies this, target
      ensures Valid() && message == old(message) + [source] && Written(target[..], was, at, done, before, message)
    {
      hide Completed, Emitted, Written, Holds, Letter;
      EmittedStep(message, source);
      WrittenMore(target[..], was, at, have, before, message, message + [source], Completed(message, source));
      var n := EncodeSingle(target, at + have, source);
      done := have + n;
    }

    /** Encodes whole groups at once when no bits are left over. */
    method PutBulk(target: array<byte>, at: nat, have: nat, bulk: seq<byte>, ghost was: seq<byte>, ghost before: seq<byte>)
      returns (done: nat)
      requires Valid() && bits == 0 && |bulk| % 3 == 0 && Written(target[..], was, at, have, before, message)
      requires at + |Emitted(message + bulk)| - |Emitted(before)| <= target.Length
      modifies this`message, target
      ensures Valid() && message == old(message) + bulk && Written(target[..], was, at, done, before, message)
    {
      hide Encode, Emitted, RawLength, Holds, Written, Phase, Letter;
      StillHolds(word, message, bulk);
      EmittedBulk(message, bulk);
      EncodedLength(bulk);
      WrittenMore(target[..], was, at, have, before, message, message + bulk, Encode(bulk));
      EncodeRaw(target, at + have, bulk);
      done := have + RawLength(|bulk|);
      message := message + bulk;
    }

    /** Encodes more of a message, using the bulk form where it can. */
    method EncodeUpdate(target: array<byte>, at: nat, source: seq<byte>) returns (done: nat)
      requires Valid() && at + UpdateLength(|source|) <= target.Length
      modifies this, target
      ensures Valid() && message == old(message) + source && done <= UpdateLength(|source|)
      ensures Written(target[..], old(target[..]), at, done, old(message), message)
    {
      hide Emitted, UpdateLength, Holds, Written, Letter;
      ghost var was, before := target[..], message;
      NothingWritten(was, at, before);
      done := 0;
      var k := 0;
      assert message == before + source[..k];
      while bits != 0 && k < |source|
        invariant k <= |source| && Valid() && message == before + source[..k]
        invariant Written(target[..], was, at, done, before, message)
        decreases |source| - k
      {
        Fits(before, source, k + 1);
        assert before + source[..k + 1] == message + [source[k]];
        done := PutSingle(target, at, done, source[k], was, before);
        k := k + 1;
      }
      var left := |source| - k;
      var bulk := left - left % 3;
      if bulk != 0 {
        Fits(before, source, k + bulk);
        assert before + source[..k + bulk] == message + source[k..k + bulk];
        done := PutBulk(target, at, done, source[k..k + bulk], was, before);
        k := k + bulk;
      }
      while k < |source|
        invariant k <= |source| && Valid() && message == before + source[..k]
        invariant Written(target[..], was, at, done, before, message)
      {
        Fits(before, source, k + 1);
        assert before + source[..k + 1] == message + [source[k]];
        done := PutSingle(target, at, done, source[k], was, before);
        k := k + 1;
      }
      assert source[..k] == source;
      Fits(before, source, k);
      WrittenLength(target[..], was, at, done, before, message);
    }

    /** Writes the last letter and the padding. */
    method EncodeFinal(target: array<byte>, at: nat) returns (done: nat)
      requires Valid() && at + 3 <= target.Length
      modifies this, target
      ensures bits == 0 && done == |Finish(old(message))| <= 3
      ensures target[..] == old(target[..at]) + Finish(old(message)) + old(target[at + done..])
    {
      FinishBits(word, bits, message);
      hide Finish, Holds, Letter, Pow2;
      ghost var last := Finish(message);
      done := 0;
      var b := bits;
      if b != 0 {
        target[at] := Letter(word * Pow2(6 - bits));
        done := 1;
        while b < 6
          invariant 0 < b <= 6 && b == bits + 2 * (done - 1) && bits == old(bits) && message == old(message)
          invariant forall i :: 0 <= i < done ==> target[at + i] == last[i]
          invariant target[..at] == old(target[..at]) && target[at + done..] == old(target[at + done..])
        {
          target[at + done] := PAD;
          done, b := done + 1, b + 2;
        }
        bits := 0;
      }
    }
  }

  lemma StillHolds(word: nat, m: seq<byte>, bulk: seq<byte>)
    requires Holds(word, 0, m) && |bulk| % 3 == 0
    ensures |m| % 3 == 0 && Holds(word, 0, m + bulk)
  {
    assert Pow2(0) == 1;
  }

  lemma FinishBits(word: nat, bits: nat, m: seq<byte>)
    requires Holds(word, bits, m)
    ensures bits == 0 || bits == 2 || bits == 4
    ensures |Finish(m)| == (if bits == 0 then 0 else 4 - bits / 2)
    ensures bits != 0 ==> Finish(m)[0] == Letter(word * Pow2(6 - bits))
    ensures forall i :: 1 <= i < |Finish(m)| ==> Finish(m)[i] == PAD
  {
    Powers();
    HighBitsIgnored(word, 0);
    hide Letter, Pow2;
  }

  lemma Fits(before: seq<byte>, source: seq<byte>, k: nat)
    requires k <= |source|
    ensures |Emitted(before + source[..k])| - |Emitted(before)| <= UpdateLength(|source|)
  {
    UpdateFits(before, source[..k]);
  }

  lemma Powers()
    ensures Pow2(0) == 1 && Pow2(2) == 4 && Pow2(4) == 16 && Pow2(6) == 64
  {
    assert Pow2(2) == 4 * Pow2(0);
    assert Pow2(4) == 4 * Pow2(2);
    assert Pow2(6) == 4 * Pow2(4);
  }

  lemma WordShifts(word: nat, x: nat)
    ensures Letter((word * 256 + x) / 4) == Letter(x / 4)
    ensures Letter((word * 256 + x) / 16) == Letter(word % 4 * 16 + x / 16)
    ensures Letter((word * 256 + x) / 64) == Letter(word % 16 * 4 + x / 64)
    ensures Letter(word * 256 + x) == Letter(x % 64)
  {
    hide Letter;
    assert (word * 256 + x) / 4 == word * 64 + x / 4;
    assert (word * 256 + x) / 16 == word * 16 + x / 16;
    assert (word * 256 + x) / 64 == word * 4 + x / 64;
    SameLetter(word * 64 + x / 4, x / 4, word);
    HighBitsIgnored(word, x / 16);
    HighBitsIgnored(word, x / 64);
    SameLetter(word * 256 + x, x % 64, word * 4 + x / 64);
  }

  lemma WordRest(word: nat, x: nat)
    ensures (word * 256 + x) % 0x1_0000 % 4 == x % 4
    ensures (word * 256 + x) % 0x1_0000 % 16 == x % 16
  {
    var y := word * 256 + x;
    var q, r := y / 0x1_0000, y % 0x1_0000;
    assert y == 0x1_0000 * q + r;
    var k4, k16 := 64 * word + x / 4 - 0x4000 * q, 16 * word + x / 16 - 0x1000 * q;
    assert r == 4 * k4 + x % 4 && r == 16 * k16 + x % 16;
    Unique(4, r / 4, r % 4, k4, x % 4);
    Unique(16, r / 16, r % 16, k16, x % 16);
  }

  /** What the word yields after one more byte. */
  lemma WordBits(word: nat, bits: nat, m: seq<byte>, x: byte)
    requires Holds(word, bits, m)
    ensures bits == 0 || bits == 2 || bits == 4
    ensures var w, letters := word * 256 + x as nat, Completed(m, x);
      && letters == Letters(w, bits + 8)
      && Holds(w % 0x1_0000, (bits + 8) % 6, m + [x])
  {
    Powers();
    Shifts(word * 256 + x as nat);
    WordShifts(word, x as nat);
    WordRest(word, x as nat);
    Phases(m, x);
    assert Phase(m) < 3;
    LettersOf(word * 256 + x as nat);
    hide Letter, Pow2, Phase, Shr, Letters;
  }

  lemma LettersOf(w: nat)
    ensures Letters(w, 8) == [Letter(Shr(w, 2))] && Letters(w, 10) == [Letter(Shr(w, 4))]
    ensures Letters(w, 12) == [Letter(Shr(w, 6)), Letter(Shr(w, 0))]
  {
    hide Letter, Shr;
    assert Letters(w, 6) == [Letter(Shr(w, 0))] + Letters(w, 0);
  }

  lemma Shifts(w: nat)
    ensures Shr(w, 0) == w && Shr(w, 2) == w / 4 && Shr(w, 4) == w / 16 && Shr(w, 6) == w / 64
  {
    var w2 := w / 4;
    var w4 := w2 / 4;
    assert Shr(w4, 2) == Shr(w4 / 2, 1) == Shr(w4 / 2 / 2, 0) == w4 / 4;
    assert Shr(w2, 4) == Shr(w2 / 2, 3) == Shr(w4, 2);
    assert Shr(w2, 2) == Shr(w2 / 2, 1) == Shr(w4, 0) == w4;
    assert Shr(w, 6) == Shr(w / 2, 5) == Shr(w2, 4);
    assert Shr(w, 4) == Shr(w / 2, 3) == Shr(w2, 2);
    assert Shr(w, 2) == Shr(w / 2, 1) == Shr(w2, 0) == w2;
  }

  /** How much an update adds to the letters written. */
  lemma UpdateFits(m: seq<byte>, source: seq<byte>)
    ensures |Emitted(m)| <= |Emitted(m + source)| <= |Emitted(m)| + UpdateLength(|source|)
  {
    EmittedLength(m);
    EmittedLength(m + source);
  }

  /** Any way of splitting a message into updates gives its one-shot encoding. */
  method EncodeChunks(chunks: seq<seq<byte>>) returns (text: seq<byte>)
    ensures text == Encode(Concat(chunks))
  {
    hide Emitted, Encode, Finish, UpdateLength;
    var encoder := new Encoder();
    text := [];
    NothingEmitted();
    for i := 0 to |chunks|
      invariant fresh(encoder) && encoder.Valid() && encoder.message == Concat(chunks[..i])
      invariant text == Emitted(encoder.message)
    {
      assert chunks[..i + 1][..i] == chunks[..i];
      var buffer := new byte[UpdateLength(|chunks[i]|)];
      var done := encoder.EncodeUpdate(buffer, 0, chunks[i]);
      text := text + buffer[..done];
    }
    assert chunks[..|chunks|] == chunks;
    EmittedAll(encoder.message);
    var buffer := new byte[3];
    var done := encoder.EncodeFinal(buffer, 0);
    text := text + buffer[..done];
  }
}
