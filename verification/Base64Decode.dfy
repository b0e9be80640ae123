/** Decoding base 64, character by character. */
module Base64Decode {
  import opened Bytes
  import opened Base64
  import opened Division
  import opened Wrappers
  import opened Sequences

  /** Bits not yet part of a byte, their value, and the padding seen. */
  datatype State = State(bits: nat, left: nat, padding: nat)

  datatype Outcome = Fail | Next(state: State, out: seq<byte>)

  ghost predicate Sound(s: State) {
    (s.bits == 0 || s.bits == 2 || s.bits == 4 || s.bits == 6) && s.left < Size(s.bits)
  }

  /** How many values some bits can have. */
  function Size(bits: nat): (n: nat)
    ensures n > 0
  {
    if bits == 0 then 1 else if bits == 2 then 4 else if bits == 4 then 16 else 64
  }

  const START := State(0, 0, 0)

  function Step(s: State, c: byte): Outcome
    requires Sound(s)
  {
    match Lookup(c)
    case Invalid => Fail
    case Space => Next(s, [])
    case Data(v) =>
      if s.padding > 0 then Fail
      else if s.bits == 0 then Next(State(6, v, 0), [])
      else
        var rest := Size(s.bits - 2);
        Next(State(s.bits - 2, (s.left * 64 + v) % rest, 0), [((s.left * 64 + v) / rest % 256) as byte])
    case End =>
      if s.bits == 0 || s.padding > 2 || s.left != 0 then Fail
      else Next(State(s.bits - 2, 0, s.padding + 1), [])
  }

  lemma StepSound(s: State, c: byte)
    requires Sound(s)
    ensures Step(s, c).Next? ==> Sound(Step(s, c).state)
    ensures Step(s, c).Next? ==> |Step(s, c).out| <= 1 && 8 * |Step(s, c).out| + Step(s, c).state.bits <= s.bits + 6
  {
  }

  function Then(o: Outcome, p: Outcome): Outcome {
    if o.Fail? || p.Fail? then Fail else Next(p.state, o.out + p.out)
  }

  function Run(s: State, text: seq<byte>): Outcome
    requires Sound(s)
    decreases |text|
  {
    if text == [] then Next(s, [])
    else
      var o := Step(s, text[0]);
      StepSound(s, text[0]);
      if o.Fail? then Fail else Then(o, Run(o.state, text[1..]))
  }

  lemma {:induction false} RunSound(s: State, text: seq<byte>)
    requires Sound(s)
    ensures Run(s, text).Next? ==> Sound(Run(s, text).state)
    ensures Run(s, text).Next? ==> 8 * |Run(s, text).out| + Run(s, text).state.bits <= s.bits + 6 * |text|
    decreases |text|
  {
    hide Step;
    if text != [] {
      StepSound(s, text[0]);
      if Step(s, text[0]).Next? {
        RunSound(Step(s, text[0]).state, text[1..]);
      }
    }
  }

  /** Decoding can be cut anywhere. */
  lemma {:induction false} RunConcat(s: State, a: seq<byte>, b: seq<byte>)
    requires Sound(s)
    ensures Run(s, a).Fail? ==> Run(s, a + b).Fail?
    ensures Run(s, a).Next? ==> Sound(Run(s, a).state) && Run(s, a + b) == Then(Run(s, a), Run(Run(s, a).state, b))
    decreases |a|
  {
    hide Step;
    RunSound(s, a);
    if a == [] {
      assert a + b == b;
    } else {
      StepSound(s, a[0]);
      assert (a + b)[1..] == a[1..] + b;
      if Step(s, a[0]).Next? {
        RunConcat(Step(s, a[0]).state, a[1..], b);
      }
    }
  }

  // --- White space ---

  function Stripped(text: seq<byte>): seq<byte> {
    if text == [] then []
    else if Lookup(text[0]).Space? then Stripped(text[1..])
    else [text[0]] + Stripped(text[1..])
  }

  lemma {:induction false} SpaceIgnored(s: State, text: seq<byte>)
    requires Sound(s)
    ensures Run(s, Stripped(text)) == Run(s, text)
    decreases |text|
  {
    hide Lookup;
    if text != [] {
      StepSound(s, text[0]);
      if Lookup(text[0]).Space? {
        SpaceIgnored(s, text[1..]);
        assert Step(s, text[0]) == Next(s, []);
        NothingFirst(s, Run(s, text[1..]));
      } else {
        assert Stripped(text)[1..] == Stripped(text[1..]);
        if Step(s, text[0]).Next? {
          SpaceIgnored(Step(s, text[0]).state, text[1..]);
        }
      }
    }
  }

  lemma NothingFirst(s: State, o: Outcome)
    ensures Then(Next(s, []), o) == o
  {
    if o.Next? {
      assert [] + o.out == o.out;
    }
  }

  ghost predicate NoSpace(u: seq<byte>) {
    forall c :: c in u ==> !Lookup(c).Space?
  }

  lemma {:induction false} StrippedNoSpace(text: seq<byte>)
    ensures NoSpace(Stripped(text))
  {
    hide Lookup;
    if text != [] {
      StrippedNoSpace(text[1..]);
    }
  }

  // --- What is accepted ---

  /** A complete text is accepted and yields these bytes. */
  ghost predicate Accepted(o: Outcome, out: seq<byte>) {
    o.Next? && o.state.bits == 0 && o.out == out
  }

  function Pads(n: nat): seq<byte> {
    seq(n, _ => PAD)
  }

  lemma PadLookup()
    ensures Lookup(PAD) == End
    ensures forall c :: Lookup(c) == End ==> c == PAD
  {
  }

  /** Once no more data can follow, padding must use up the bits left over,
    * and these must be zero. */
  lemma {:induction false} PadsOnly(s: State, u: seq<byte>, out: seq<byte>)
    requires Sound(s) && NoSpace(u) && s.padding + s.bits / 2 <= 3
    requires s.padding > 0 || u == [] || !Lookup(u[0]).Data?
    ensures Accepted(Run(s, u), out) <==> s.left == 0 && u == Pads(s.bits / 2) && out == []
    decreases |u|
  {
    hide Lookup;
    PadLookup();
    if u != [] {
      StepSound(s, u[0]);
      var o := Step(s, u[0]);
      if o.Next? {
        PadsOnly(o.state, u[1..], out);
        NothingFirst(s, Run(o.state, u[1..]));
        assert u == Pads(s.bits / 2) <==> u[0] == PAD && u[1..] == Pads(s.bits / 2 - 1);
      } else {
        assert u[0] == PAD && u == Pads(s.bits / 2) ==> s.bits > 0;
      }
    }
  }

  // --- Runs over data ---

  function Byte0(v0: nat, v1: nat): byte
    requires v0 < 64 && v1 < 64
  {
    (v0 * 4 + v1 / 16) as byte
  }

  function Byte1(v1: nat, v2: nat): byte
    requires v1 < 64 && v2 < 64
  {
    (v1 % 16 * 16 + v2 / 4) as byte
  }

  function Byte2(v2: nat, v3: nat): byte
    requires v2 < 64 && v3 < 64
  {
    (v2 % 4 * 64 + v3) as byte
  }

  /** The value of a data character. */
  function Value(c: byte): (v: nat)
    requires Lookup(c).Data?
    ensures v < 64 && c == Letter(v)
  {
    Lookup(c).value
  }

  /** The first characters are data. */
  ghost predicate Leads(u: seq<byte>, n: nat) {
    n <= |u| && forall i :: 0 <= i < n ==> Lookup(u[i]).Data?
  }

  lemma Parts(q: nat, r: nat)
    ensures r < 64 ==> (q * 64 + r) / 64 == q && (q * 64 + r) % 64 == r
    ensures r < 16 ==> (q * 16 + r) / 16 == q && (q * 16 + r) % 16 == r
    ensures r < 4 ==> (q * 4 + r) / 4 == q && (q * 4 + r) % 4 == r
  {
  }

  lemma FirstData(c: byte)
    requires Lookup(c).Data?
    ensures Step(START, c) == Next(State(6, Value(c), 0), [])
  {
    hide Lookup;
  }

  /** A data character after another one: quotient and remainder of the bits. */
  lemma MoreData(s: State, c: byte, rest: nat, q: nat, r: nat)
    requires Sound(s) && Lookup(c).Data? && s.padding == 0 && s.bits > 0 && rest == Size(s.bits - 2)
    requires s.left * 64 + Value(c) == rest * q + r && r < rest && q < 256
    ensures Step(s, c) == Next(State(s.bits - 2, r, 0), [q as byte])
  {
    hide Lookup, Size;
    Quotient(rest, q, r);
  }

  lemma SecondData(l: nat, c: byte)
    requires Lookup(c).Data? && l < 64
    ensures Step(State(6, l, 0), c) == Next(State(4, Value(c) % 16, 0), [Byte0(l, Value(c))])
  {
    hide Lookup, Step;
    var v := Value(c);
    MoreData(State(6, l, 0), c, 16, l * 4 + v / 16, v % 16);
  }

  lemma ThirdData(w: nat, c: byte)
    requires Lookup(c).Data? && w < 64
    ensures Step(State(4, w % 16, 0), c) == Next(State(2, Value(c) % 4, 0), [Byte1(w, Value(c))])
  {
    hide Lookup, Step;
    var v := Value(c);
    MoreData(State(4, w % 16, 0), c, 4, w % 16 * 16 + v / 4, v % 4);
  }

  lemma FourthData(w: nat, c: byte)
    requires Lookup(c).Data? && w < 64
    ensures Step(State(2, w % 4, 0), c) == Next(START, [Byte2(w, Value(c))])
  {
    hide Lookup, Step;
    MoreData(State(2, w % 4, 0), c, 1, w % 4 * 64 + Value(c), 0);
  }

  lemma ThenNext(s: State, a: seq<byte>, t: State, b: seq<byte>, o: Outcome)
    ensures Then(Next(s, a), Then(Next(t, b), o)) == Then(Next(t, a + b), o)
  {
    if o.Next? {
      assert a + (b + o.out) == a + b + o.out;
    }
  }

  lemma OneData(u: seq<byte>)
    requires Leads(u, 1)
    ensures Run(START, u) == Run(State(6, Value(u[0]), 0), u[1..])
  {
    hide Lookup, Step;
    FirstData(u[0]);
    NothingFirst(State(6, Value(u[0]), 0), Run(State(6, Value(u[0]), 0), u[1..]));
  }

  lemma TwoData(u: seq<byte>)
    requires Leads(u, 2)
    ensures var s := State(4, Value(u[1]) % 16, 0);
      Run(START, u) == Then(Next(s, [Byte0(Value(u[0]), Value(u[1]))]), Run(s, u[2..]))
  {
    hide Lookup, Step, Byte0;
    OneData(u);
    SecondData(Value(u[0]), u[1]);
    assert u[1..][0] == u[1] && u[1..][1..] == u[2..];
  }

  lemma RunStep(s: State, u: seq<byte>, n: nat)
    requires Sound(s) && n < |u| && Step(s, u[n]).Next? && Sound(Step(s, u[n]).state)
    ensures Run(s, u[n..]) == Then(Step(s, u[n]), Run(Step(s, u[n]).state, u[n + 1..]))
  {
    hide Step, Then;
    assert u[n..][0] == u[n] && u[n..][1..] == u[n + 1..];
  }

  lemma ThreeData(u: seq<byte>)
    requires Leads(u, 3)
    ensures var s, v0, v1, v2 := State(2, Value(u[2]) % 4, 0), Value(u[0]), Value(u[1]), Value(u[2]);
      Run(START, u) == Then(Next(s, [Byte0(v0, v1), Byte1(v1, v2)]), Run(s, u[3..]))
  {
    hide Lookup, Step, Byte0, Byte1, Value, Run, Then, Sound;
    var v0, v1, v2 := Value(u[0]), Value(u[1]), Value(u[2]);
    SoundRests(v1, v2);
    TwoData(u);
    ThirdData(v1, u[2]);
    var s, t := State(4, v1 % 16, 0), State(2, v2 % 4, 0);
    RunStep(s, u, 2);
    ThenNext(s, [Byte0(v0, v1)], t, [Byte1(v1, v2)], Run(t, u[3..]));
    assert [Byte0(v0, v1)] + [Byte1(v1, v2)] == [Byte0(v0, v1), Byte1(v1, v2)];
  }

  lemma SoundRests(v1: nat, v2: nat)
    ensures Sound(START) && Sound(State(4, v1 % 16, 0)) && Sound(State(2, v2 % 4, 0))
  {
  }

  /** Four data characters are three bytes. */
  function Bytes3(u: seq<byte>): (b: seq<byte>)
    requires Leads(u, 4)
    ensures |b| == 3
  {
    [Byte0(Value(u[0]), Value(u[1])), Byte1(Value(u[1]), Value(u[2])), Byte2(Value(u[2]), Value(u[3]))]
  }

  lemma FourData(u: seq<byte>)
    requires Leads(u, 4)
    ensures Run(START, u) == Then(Next(START, Bytes3(u)), Run(START, u[4..]))
  {
    hide Lookup, Step, Byte0, Byte1, Byte2;
    ThreeData(u);
    FourthData(Value(u[2]), u[3]);
    var v0, v1, v2, v3 := Value(u[0]), Value(u[1]), Value(u[2]), Value(u[3]);
    assert u[3..][0] == u[3] && u[3..][1..] == u[4..];
    ThenNext(State(2, v2 % 4, 0), [Byte0(v0, v1), Byte1(v1, v2)], START, [Byte2(v2, v3)], Run(START, u[4..]));
  }

  // --- Accepted texts are encodings ---

  lemma Rejoined0(a: nat, b: nat)
    requires a < 256 && b < 256
    ensures Byte0(a / 4, a % 4 * 16 + b / 16) as nat == a
  {
    Parts(a % 4, b / 16);
  }

  lemma Rejoined1(a: nat, b: nat, c: nat)
    requires a < 256 && b < 256 && c < 256
    ensures Byte1(a % 4 * 16 + b / 16, b % 16 * 4 + c / 64) as nat == b
  {
    Parts(a % 4, b / 16);
    Parts(b % 16, c / 64);
  }

  lemma Rejoined2(b: nat, c: nat)
    requires b < 256 && c < 256
    ensures Byte2(b % 16 * 4 + c / 64, c % 64) as nat == c
  {
    Parts(b % 16, c / 64);
  }

  lemma LetterValue(v: nat)
    requires v < 64
    ensures Lookup(Letter(v)).Data? && Value(Letter(v)) == v
  {
    LetterLookup(v, 0);
  }

  lemma GroupBytes(b: seq<byte>)
    requires |b| == 3
    ensures Leads(Group(b), 4) && Bytes3(Group(b)) == b
  {
    LetterValue(Sextet0(b));
    LetterValue(Sextet1(b));
    LetterValue(Sextet2(b));
    LetterValue(b[2] as nat % 64);
    Rejoined0(b[0] as nat, b[1] as nat);
    Rejoined1(b[0] as nat, b[1] as nat, b[2] as nat);
    Rejoined2(b[1] as nat, b[2] as nat);
    hide Letter, Lookup, Byte0, Byte1, Byte2;
  }

  lemma BytesGroup(u: seq<byte>)
    requires Leads(u, 4)
    ensures Group(Bytes3(u)) == u[..4]
  {
    hide Letter, Lookup, Byte0, Byte1, Byte2, Value, Bytes3, Group;
    LeadLetters(u);
    Sextets(u);
    GroupOf(Bytes3(u), Value(u[0]), Value(u[1]), Value(u[2]), Value(u[3]));
  }

  lemma LeadLetters(u: seq<byte>)
    requires Leads(u, 4)
    ensures u[..4] == [Letter(Value(u[0])), Letter(Value(u[1])), Letter(Value(u[2])), Letter(Value(u[3]))]
  {
    hide Letter, Lookup, Value;
    assert u[..4] == [u[0], u[1], u[2], u[3]];
  }

  lemma Sextets(u: seq<byte>)
    requires Leads(u, 4)
    ensures var b := Bytes3(u);
      && Sextet0(b) == Value(u[0]) && Sextet1(b) == Value(u[1]) && Sextet2(b) == Value(u[2])
      && b[2] as nat % 64 == Value(u[3])
  {
    hide Letter, Lookup, Byte0, Byte1, Byte2, Value;
    Separated(Value(u[0]), Value(u[1]), Value(u[2]), Value(u[3]));
  }

  lemma GroupOf(b: seq<byte>, v0: nat, v1: nat, v2: nat, v3: nat)
    requires |b| >= 3 && Sextet0(b) == v0 && Sextet1(b) == v1 && Sextet2(b) == v2 && b[2] as nat % 64 == v3
    ensures Group(b) == [Letter(v0), Letter(v1), Letter(v2), Letter(v3)]
  {
    hide Letter, Sextet0, Sextet1, Sextet2;
  }

  /** The four values can be read off the three bytes. */
  lemma Separated(v0: nat, v1: nat, v2: nat, v3: nat)
    requires v0 < 64 && v1 < 64 && v2 < 64 && v3 < 64
    ensures var b0, b1, b2 := Byte0(v0, v1) as nat, Byte1(v1, v2) as nat, Byte2(v2, v3) as nat;
      b0 / 4 == v0 && b0 % 4 * 16 + b1 / 16 == v1 && b1 % 16 * 4 + b2 / 64 == v2 && b2 % 64 == v3
  {
    Parts(v0, v1 / 16);
    Parts(v1 % 16, v2 / 4);
    Parts(v2 % 4, v3);
  }

  lemma LastOne(u: seq<byte>)
    requires Leads(u, 2) && Value(u[1]) % 16 == 0 && u[2..] == Pads(2)
    ensures u == LastGroup([Byte0(Value(u[0]), Value(u[1]))])
  {
    var v0, v1 := Value(u[0]), Value(u[1]);
    Parts(v0, v1 / 16);
    hide Letter, Lookup;
    assert u == [u[0], u[1]] + u[2..];
  }

  lemma OneLast(b: byte)
    ensures var u := LastGroup([b]);
      && Leads(u, 2) && !Leads(u, 3) && Value(u[1]) % 16 == 0 && u[2..] == Pads(2)
      && Byte0(Value(u[0]), Value(u[1])) == b
  {
    LetterValue(Sextet0([b]));
    LetterValue(b as nat % 4 * 16);
    Rejoined0(b as nat, 0);
    PadLookup();
    hide Letter, Lookup, Byte0;
    assert !Lookup(LastGroup([b])[2]).Data?;
  }

  lemma LastTwo(u: seq<byte>)
    requires Leads(u, 3) && Value(u[2]) % 4 == 0 && u[3..] == Pads(1)
    ensures u == LastGroup([Byte0(Value(u[0]), Value(u[1])), Byte1(Value(u[1]), Value(u[2]))])
  {
    hide Letter, Lookup, Byte0, Byte1, Value, LastGroup;
    var v0, v1, v2 := Value(u[0]), Value(u[1]), Value(u[2]);
    SeparatedTwo(v0, v1, v2);
    LastGroupOf([Byte0(v0, v1), Byte1(v1, v2)], v0, v1, v2);
    assert u == [u[0], u[1], u[2]] + u[3..];
  }

  lemma SeparatedTwo(v0: nat, v1: nat, v2: nat)
    requires v0 < 64 && v1 < 64 && v2 < 64 && v2 % 4 == 0
    ensures var b0, b1 := Byte0(v0, v1) as nat, Byte1(v1, v2) as nat;
      b0 / 4 == v0 && b0 % 4 * 16 + b1 / 16 == v1 && b1 % 16 * 4 == v2
  {
    Parts(v0, v1 / 16);
    Parts(v1 % 16, v2 / 4);
  }

  lemma LastGroupOf(b: seq<byte>, v0: nat, v1: nat, v2: nat)
    requires |b| == 2 && Sextet0(b) == v0 && Sextet1(b) == v1 && b[1] as nat % 16 * 4 == v2
    ensures LastGroup(b) == [Letter(v0), Letter(v1), Letter(v2), PAD]
  {
    hide Letter, Sextet0, Sextet1;
  }

  lemma TwoLast(b: seq<byte>)
    requires |b| == 2
    ensures var u := LastGroup(b);
      && Leads(u, 3) && !Leads(u, 4) && Value(u[2]) % 4 == 0 && u[3..] == Pads(1)
      && b == [Byte0(Value(u[0]), Value(u[1])), Byte1(Value(u[1]), Value(u[2]))]
  {
    var v0, v1, v2 := Sextet0(b), Sextet1(b), b[1] as nat % 16 * 4;
    RejoinedTwo(b, v0, v1, v2);
    LetterValue(v0);
    LetterValue(v1);
    LetterValue(v2);
    LastGroupOf(b, v0, v1, v2);
    PadLookup();
    hide Letter, Lookup, Byte0, Byte1, Value, Sextet0, Sextet1, LastGroup;
    var u := LastGroup(b);
    assert u[0] == Letter(v0) && u[1] == Letter(v1) && u[2] == Letter(v2) && u[3] == PAD;
    assert u[3..] == Pads(1);
  }

  lemma RejoinedTwo(b: seq<byte>, v0: nat, v1: nat, v2: nat)
    requires |b| == 2 && v0 == Sextet0(b) && v1 == Sextet1(b) && v2 == b[1] as nat % 16 * 4
    ensures v0 < 64 && v1 < 64 && v2 < 64 && v2 % 4 == 0
    ensures b == [Byte0(v0, v1), Byte1(v1, v2)]
  {
    hide Byte0, Byte1;
    RejoinedPair(b[0] as nat, b[1] as nat, v0, v1, v2);
    assert b == [b[0], b[1]];
  }

  lemma RejoinedPair(a: nat, b: nat, v0: nat, v1: nat, v2: nat)
    requires a < 256 && b < 256 && v0 == a / 4 && v1 == a % 4 * 16 + b / 16 && v2 == b % 16 * 4
    ensures v0 < 64 && v1 < 64 && v2 < 64 && v2 % 4 == 0
    ensures Byte0(v0, v1) as nat == a && Byte1(v1, v2) as nat == b
  {
    hide Byte0, Byte1;
    SextetsTwo(a, b);
    Rejoined0(a, b);
    Rejoined1(a, b, 0);
    assert b % 16 * 4 + 0 / 64 == v2;
  }

  lemma SextetsTwo(a: nat, b: nat)
    requires a < 256 && b < 256
    ensures a / 4 < 64 && a % 4 * 16 + b / 16 < 64 && b % 16 * 4 < 64 && b % 16 * 4 % 4 == 0
  {
  }

  lemma ThenAccepted(s: State, a: seq<byte>, o: Outcome, out: seq<byte>)
    ensures Accepted(Then(Next(s, a), o), out) <==> |a| <= |out| && out[..|a|] == a && Accepted(o, out[|a|..])
  {
    if o.Next? && |a| <= |out| && out[..|a|] == a {
      assert out == a + out[|a|..];
    }
  }

  /** A whole group of padding behind a letter that stands for zero bits. */
  const TRIPLE: seq<byte> := [65, PAD, PAD, PAD]

  /** The accepted endings of a text. */
  ghost predicate Ending(u: seq<byte>, out: seq<byte>) {
    || (u == [] && out == [])
    || (u == TRIPLE && out == [])
    || (0 < |out| < 3 && u == LastGroup(out))
  }

  lemma EndingNone(u: seq<byte>, out: seq<byte>)
    requires NoSpace(u) && !Leads(u, 1)
    ensures Accepted(Run(START, u), out) <==> Ending(u, out)
  {
    PadsOnly(START, u, out);
    assert Lookup(65).Data?;
    EndingLeads(u, out);
    hide Lookup, Run, LastGroup;
  }

  lemma EndingOne(u: seq<byte>, out: seq<byte>)
    requires NoSpace(u) && Leads(u, 1) && !Leads(u, 2)
    ensures Accepted(Run(START, u), out) <==> Ending(u, out)
  {
    OneData(u);
    var s := State(6, Value(u[0]), 0);
    PadsOnly(s, u[1..], out);
    EndingLeads(u, out);
    LetterValue(0);
    assert Letter(0) == 65;
    hide Lookup, Run, LastGroup, Letter;
    assert u == [u[0]] + u[1..];
    assert u == TRIPLE <==> u[0] == 65 && u[1..] == Pads(3);
  }

  lemma EndingTwo(u: seq<byte>, out: seq<byte>)
    requires NoSpace(u) && Leads(u, 2) && !Leads(u, 3)
    ensures Accepted(Run(START, u), out) <==> Ending(u, out)
  {
    hide Lookup, Run, LastGroup, Letter, Byte0;
    TwoData(u);
    var s, a := State(4, Value(u[1]) % 16, 0), [Byte0(Value(u[0]), Value(u[1]))];
    ThenAccepted(s, a, Run(s, u[2..]), out);
    if |out| >= 1 {
      PadsOnly(s, u[2..], out[1..]);
    }
    EndingLeads(u, out);
    if |out| == 1 {
      OneLast(out[0]);
      assert out == [out[0]];
    }
    if s.left == 0 && u[2..] == Pads(2) {
      LastOne(u);
    }
  }

  lemma EndingThree(u: seq<byte>, out: seq<byte>)
    requires NoSpace(u) && Leads(u, 3) && !Leads(u, 4)
    ensures Accepted(Run(START, u), out) <==> Ending(u, out)
  {
    hide Lookup, Run, LastGroup, Letter, Byte0, Byte1;
    ThreeData(u);
    var v0, v1, v2 := Value(u[0]), Value(u[1]), Value(u[2]);
    var s, a := State(2, v2 % 4, 0), [Byte0(v0, v1), Byte1(v1, v2)];
    ThenAccepted(s, a, Run(s, u[3..]), out);
    if |out| >= 2 {
      PadsOnly(s, u[3..], out[2..]);
    }
    EndingLeads(u, out);
    if |out| == 2 {
      TwoLast(out);
    }
    if s.left == 0 && u[3..] == Pads(1) {
      LastTwo(u);
    }
    assert |out| == 2 ==> out[..2] == out;
  }

  /** How much data an ending begins with. */
  lemma EndingLeads(u: seq<byte>, out: seq<byte>)
    ensures Ending(u, out) ==> !Leads(u, 4)
    ensures Ending(u, out) && |out| == 1 ==> Leads(u, 2) && !Leads(u, 3)
    ensures Ending(u, out) && |out| == 2 ==> Leads(u, 3)
    ensures Ending(u, out) && |out| == 0 && u != [] ==> Leads(u, 1) && !Leads(u, 2)
  {
    PadLookup();
    assert Lookup(65).Data?;
    if |out| == 1 {
      OneLast(out[0]);
      assert out == [out[0]];
    }
    if |out| == 2 {
      TwoLast(out);
    }
    hide Lookup, LastGroup;
    assert !Lookup(TRIPLE[1]).Data?;
  }

  /** The encoding of some bytes, or that of whole groups followed by a group
    * with three padding characters. */
  ghost predicate Canonical(u: seq<byte>, out: seq<byte>) {
    u == Encode(out) || (|out| % 3 == 0 && u == Encode(out) + TRIPLE)
  }

  lemma LeadsOn(g: seq<byte>, e: seq<byte>)
    requires |g| == 4 && Leads(g, 4)
    ensures Leads(g + e, 4)
  {
    hide Lookup;
  }

  lemma EncodeGroup(out: seq<byte>)
    requires |out| >= 3
    ensures Encode(out) == Group(out[..3]) + Encode(out[3..]) && Leads(Encode(out), 4)
  {
    hide Lookup, Group, Letter, LastGroup, Bytes3, Leads;
    assert out == out[..3] + out[3..];
    SameGroup(out[..3], out[3..]);
    GroupBytes(out[..3]);
    LeadsOn(Group(out[..3]), Encode(out[3..]));
  }

  lemma CanonicalEnding(u: seq<byte>, out: seq<byte>)
    requires !Leads(u, 4)
    ensures Canonical(u, out) <==> Ending(u, out)
  {
    if |out| >= 3 {
      EncodeGroup(out);
      hide Lookup, Encode, LastGroup;
      assert forall i :: 0 <= i < 4 ==> (Encode(out) + TRIPLE)[i] == Encode(out)[i];
    } else {
      assert [] + TRIPLE == TRIPLE;
      hide Lookup, LastGroup;
    }
  }

  lemma SplitFour(u: seq<byte>, g: seq<byte>, rest: seq<byte>)
    requires |g| == 4 <= |u|
    ensures u == g + rest <==> u[..4] == g && u[4..] == rest
  {
    assert u == u[..4] + u[4..];
  }

  lemma SameBytes(u: seq<byte>, b: seq<byte>)
    requires Leads(u, 4) && |b| == 3
    ensures u[..4] == Group(b) <==> Bytes3(u) == b
  {
    BytesGroup(u);
    GroupBytes(b);
    hide Lookup, Group, Byte0, Byte1, Byte2;
    if u[..4] == Group(b) {
      assert u[0] == Group(b)[0] && u[1] == Group(b)[1] && u[2] == Group(b)[2] && u[3] == Group(b)[3];
    }
  }

  lemma CanonicalGroup(u: seq<byte>, out: seq<byte>)
    requires Leads(u, 4)
    ensures Canonical(u, out) <==> |out| >= 3 && out[..3] == Bytes3(u) && Canonical(u[4..], out[3..])
  {
    hide Lookup, Encode, Group, Bytes3;
    if |out| >= 3 {
      EncodeGroup(out);
      SameBytes(u, out[..3]);
      var g, e := Group(out[..3]), Encode(out[3..]);
      SplitFour(u, g, e);
      SplitFour(u, g, e + TRIPLE);
      assert g + e + TRIPLE == g + (e + TRIPLE);
    } else {
      ShortEncode(u, out);
    }
  }

  lemma ShortEncode(u: seq<byte>, out: seq<byte>)
    requires |out| < 3
    ensures Canonical(u, out) ==> !Leads(u, 4)
  {
    hide Lookup, LastGroup;
    assert [] + TRIPLE == TRIPLE;
    EndingLeads(u, out);
  }

  /** A text without white space is accepted exactly when it is canonical. */
  lemma {:induction false} AcceptedExactly(u: seq<byte>, out: seq<byte>)
    requires NoSpace(u)
    ensures Accepted(Run(START, u), out) <==> Canonical(u, out)
    decreases |u|
  {
    hide Lookup, Run, Canonical, Ending, Bytes3;
    if !Leads(u, 4) {
      CanonicalEnding(u, out);
      if !Leads(u, 1) {
        EndingNone(u, out);
      } else if !Leads(u, 2) {
        EndingOne(u, out);
      } else if !Leads(u, 3) {
        EndingTwo(u, out);
      } else {
        EndingThree(u, out);
      }
    } else {
      CanonicalGroup(u, out);
      FourData(u);
      ThenAccepted(START, Bytes3(u), Run(START, u[4..]), out);
      if |out| >= 3 {
        AcceptedExactly(u[4..], out[3..]);
      }
    }
  }

  /** White space anywhere changes nothing. */
  lemma DecodesExactly(text: seq<byte>, out: seq<byte>)
    ensures Accepted(Run(START, text), out) <==>
      Stripped(text) == Encode(out) || (|out| % 3 == 0 && Stripped(text) == Encode(out) + TRIPLE)
  {
    SpaceIgnored(START, text);
    StrippedNoSpace(text);
    AcceptedExactly(Stripped(text), out);
  }

  // --- The decoder ---

  /** The most bytes that an update of the given size can yield. */
  function DecodeLength(n: nat): nat {
    (n + 1) * 6 / 8
  }

  /** A buffer holds, from a position on, the bytes that a text yields; the rest
    * of it is as it was. */
  ghost predicate Decoded(t: seq<byte>, was: seq<byte>, at: nat, done: nat, start: State, text: seq<byte>, s: State)
    requires Sound(start)
  {
    && at + done <= |t| == |was|
    && t[..at] == was[..at] && t[at + done..] == was[at + done..]
    && Run(start, text) == Next(s, t[at..at + done])
  }

  lemma NothingDecoded(t: seq<byte>, at: nat, s: State)
    requires Sound(s) && at <= |t|
    ensures Decoded(t, t, at, 0, s, [], s)
  {
    assert t[at..at] == [];
  }

  lemma DecodedLength(t: seq<byte>, was: seq<byte>, at: nat, done: nat, start: State, text: seq<byte>, s: State)
    requires Sound(start) && Decoded(t, was, at, done, start, text, s)
    ensures done <= DecodeLength(|text|) && Run(start, text).Next?
  {
    RunSound(start, text);
  }

  lemma DecodedMore(t: seq<byte>, was: seq<byte>, at: nat, done: nat, start: State, text: seq<byte>, i: nat, s: State)
    requires Sound(start) && i < |text| && Decoded(t, was, at, done, start, text[..i], s)
    requires at + DecodeLength(|text|) <= |t|
    ensures Sound(s) && at + done <= |t|
    ensures Step(s, text[i]).Fail? ==> Run(start, text).Fail?
    ensures Step(s, text[i]).Next? ==>
      var o := Step(s, text[i]);
      && at + done + |o.out| <= |t|
      && Decoded(t[..at + done] + o.out + t[at + done + |o.out|..], was, at, done + |o.out|, start, text[..i + 1], o.state)
  {
    hide Run, Step;
    RunOneMore(start, text, i);
    if Step(s, text[i]).Fail? {
      RunFails(start, text, i + 1);
    } else {
      RoomFor(start, text, i + 1);
      var o := Step(s, text[i]);
      var t' := t[..at + done] + o.out + t[at + done + |o.out|..];
      assert t'[at..at + done + |o.out|] == t[at..at + done] + o.out;
    }
  }

  class Decoder {
    var word: nat
    var bits: nat
    var padding: nat

    /** What matters of the context: the word only through its low bits. */
    ghost function Abstract(): State
      reads this
    {
      State(bits, word % Size(bits), padding)
    }

    ghost predicate Valid()
      reads this
    {
      word < 0x1_0000 && (bits == 0 || bits == 2 || bits == 4 || bits == 6)
    }

    constructor ()
      ensures Valid() && Abstract() == START
    {
      word, bits, padding := 0, 0, 0;
    }

    /** Decodes one character: the number of bytes written, or -1 on errors. */
    method DecodeSingle(target: array<byte>, at: nat, source: byte) returns (r: int)
      requires Valid() && (Step(Abstract(), source).Next? ==> at + |Step(Abstract(), source).out| <= target.Length)
      modifies this, target
      ensures Valid() && (r == -1 <==> Step(old(Abstract()), source).Fail?)
      ensures r == -1 ==> Abstract() == old(Abstract()) && target[..] == old(target[..])
      ensures r != -1 ==> Step(old(Abstract()), source).state == Abstract() && r == |Step(old(Abstract()), source).out|
      ensures r != -1 ==> target[..] == old(target[..at]) + Step(old(Abstract()), source).out + old(target[at + r..])
    {
      hide Lookup;
      match Lookup(source)
      case Data(value) =>
        if padding != 0 {
          return -1;
        }
        ShiftedIn(word, bits, Value(source));
        word := (word * 64 + value) % 0x1_0000;
        bits := bits + 6;
        if bits >= 8 {
          bits := bits - 8;
          target[at] := (word / Size(bits) % 256) as byte;
          return 1;
        }
        return 0;
      case Invalid =>
        return -1;
      case Space =>
        return 0;
      case End =>
        if bits == 0 || padding > 2 {
          return -1;
        }
        if word % Size(bits) != 0 {
          return -1;
        }
        Divided(word, bits);
        padding := padding + 1;
        bits := bits - 2;
        return 0;
    }

    /** Decodes more of a text. */
    method DecodeUpdate(target: array<byte>, at: nat, source: seq<byte>) returns (ok: bool, done: nat)
      requires Valid() && at + DecodeLength(|source|) <= target.Length
      modifies this, target
      ensures Valid() && ok == Run(old(Abstract()), source).Next?
      ensures ok ==> done <= DecodeLength(|source|)
      ensures ok ==> Decoded(target[..], old(target[..]), at, done, old(Abstract()), source, Abstract())
    {
      hide Run, Step, Decoded, DecodeLength;
      ghost var start, was := Abstract(), target[..];
      done := 0;
      NothingDecoded(was, at, start);
      var i := 0;
      assert source[..i] == [];
      while i < |source|
        invariant 0 <= i <= |source| && Valid()
        invariant Decoded(target[..], was, at, done, start, source[..i], Abstract())
      {
        DecodedMore(target[..], was, at, done, start, source, i, Abstract());
        var r := DecodeSingle(target, at + done, source[i]);
        if r == -1 {
          return false, 0;
        }
        done := done + r;
        i := i + 1;
      }
      assert source[..i] == source;
      DecodedLength(target[..], was, at, done, start, source, Abstract());
      ok := true;
    }

    /** Nothing is left over. */
    method DecodeFinal() returns (ok: bool)
      ensures ok <==> Abstract().bits == 0
    {
      ok := bits == 0;
    }
  }

  lemma RunNothing(s: State)
    requires Sound(s)
    ensures Run(s, []) == Next(s, [])
  {
  }

  lemma RunOneMore(s: State, text: seq<byte>, i: nat)
    requires Sound(s) && i < |text| && Run(s, text[..i]).Next?
    ensures Sound(Run(s, text[..i]).state)
    ensures Run(s, text[..i + 1]) == Then(Run(s, text[..i]), Step(Run(s, text[..i]).state, text[i]))
  {
    hide Step;
    RunConcat(s, text[..i], [text[i]]);
    assert text[..i + 1] == text[..i] + [text[i]];
    var t := Run(s, text[..i]).state;
    StepSound(t, text[i]);
    if Step(t, text[i]).Next? {
      RunNothing(Step(t, text[i]).state);
    }
  }

  lemma RunFails(s: State, text: seq<byte>, i: nat)
    requires Sound(s) && i <= |text| && Run(s, text[..i]).Fail?
    ensures Run(s, text).Fail?
  {
    RunConcat(s, text[..i], text[i..]);
    assert text == text[..i] + text[i..];
  }

  lemma RoomFor(s: State, text: seq<byte>, i: nat)
    requires Sound(s) && i <= |text|
    ensures Run(s, text[..i]).Next? ==> |Run(s, text[..i]).out| <= DecodeLength(|text|)
  {
    RunSound(s, text[..i]);
  }

  lemma Divided(word: nat, bits: nat)
    requires (bits == 2 || bits == 4 || bits == 6) && word % Size(bits) == 0
    ensures word % Size(bits - 2) == 0
  {
    if bits == 4 {
      Parts(4 * (word / 16), 0);
    } else if bits == 6 {
      Parts(4 * (word / 64), 0);
    }
  }

  /** Keeping 16 bits of a shifted word keeps the bits that matter. */
  lemma LowWord64(word: nat, v: nat)
    requires v < 64
    ensures (word * 64 + v) % 0x1_0000 == 4096 * (word / 64 % 16) + (word % 64 * 64 + v)
  {
    var q := word / 64;
    var r := 4096 * (q % 16) + (word % 64 * 64 + v);
    assert word * 64 + v == 0x1_0000 * (q / 16) + r;
    Quotient(0x1_0000, q / 16, r);
  }

  lemma LowWord16(word: nat, v: nat)
    requires v < 64
    ensures (word * 64 + v) % 0x1_0000 == 1024 * (word / 16 % 64) + (word % 16 * 64 + v)
  {
    var q := word / 16;
    var r := 1024 * (q % 64) + (word % 16 * 64 + v);
    assert word * 64 + v == 0x1_0000 * (q / 64) + r;
    Quotient(0x1_0000, q / 64, r);
  }

  lemma LowWord4(word: nat, v: nat)
    requires v < 64
    ensures (word * 64 + v) % 0x1_0000 == 256 * (word / 4 % 256) + (word % 4 * 64 + v)
  {
    var q := word / 4;
    var r := 256 * (q % 256) + (word % 4 * 64 + v);
    assert word * 64 + v == 0x1_0000 * (q / 256) + r;
    Quotient(0x1_0000, q / 256, r);
  }

  lemma WithSix(word: nat, v: nat)
    requires v < 64
    ensures var w, y := (word * 64 + v) % 0x1_0000, word % 64 * 64 + v;
      w % 16 == y % 16 && w / 16 % 256 == y / 16 % 256
  {
    LowWord64(word, v);
    var k, y := word / 64 % 16, word % 64 * 64 + v;
    Parts(256 * k + y / 16, y % 16);
    Quotient(256, k, y / 16);
  }

  lemma WithFour(word: nat, v: nat)
    requires v < 64
    ensures var w, y := (word * 64 + v) % 0x1_0000, word % 16 * 64 + v;
      w % 4 == y % 4 && w / 4 % 256 == y / 4 % 256
  {
    LowWord16(word, v);
    var k, y := word / 16 % 64, word % 16 * 64 + v;
    Parts(256 * k + y / 4, y % 4);
    Quotient(256, k, y / 4);
  }

  lemma WithTwo(word: nat, v: nat)
    requires v < 64
    ensures (word * 64 + v) % 0x1_0000 % 256 == (word % 4 * 64 + v) % 256
  {
    LowWord4(word, v);
    Quotient(256, word / 4 % 256, word % 4 * 64 + v);
  }

  lemma WithNone(word: nat, v: nat)
    requires v < 64
    ensures (word * 64 + v) % 0x1_0000 % 64 == v
  {
    LowWord4(word, v);
    Parts(4 * (word / 4 % 256) + word % 4, v);
  }

  lemma ShiftedIn(word: nat, bits: nat, v: nat)
    requires v < 64 && (bits == 0 || bits == 2 || bits == 4 || bits == 6)
    ensures var w, y := (word * 64 + v) % 0x1_0000, word % Size(bits) * 64 + v;
      && (bits == 0 ==> w % 64 == v)
      && (bits > 0 ==> w % Size(bits - 2) == y % Size(bits - 2))
      && (bits > 0 ==> w / Size(bits - 2) % 256 == y / Size(bits - 2) % 256)
  {
    if bits == 6 {
      WithSix(word, v);
    } else if bits == 4 {
      WithFour(word, v);
    } else if bits == 2 {
      WithTwo(word, v);
    } else {
      WithNone(word, v);
    }
  }

  /** Decodes a text given in any pieces. */
  method DecodeChunks(chunks: seq<seq<byte>>) returns (r: Option<seq<byte>>)
    ensures forall out :: r == Some(out) <==> Accepted(Run(START, Concat(chunks)), out)
  {
    hide Run, DecodeLength, Accepted;
    var decoder := new Decoder();
    var out := [];
    RunNothing(START);
    for i := 0 to |chunks|
      invariant fresh(decoder) && decoder.Valid()
      invariant Run(START, Concat(chunks[..i])) == Next(decoder.Abstract(), out)
    {
      PieceAfter(chunks, i, decoder.Abstract(), out);
      var buffer := new byte[DecodeLength(|chunks[i]|)];
      var ok, done := decoder.DecodeUpdate(buffer, 0, chunks[i]);
      if !ok {
        NeverAccepted(Concat(chunks));
        return None;
      }
      out := out + buffer[..done];
    }
    assert chunks[..|chunks|] == chunks;
    OnlyThis(Run(START, Concat(chunks)), out);
    var ok := decoder.DecodeFinal();
    r := if ok then Some(out) else None;
  }

  lemma NeverAccepted(text: seq<byte>)
    ensures Run(START, text).Fail? ==> forall out :: !Accepted(Run(START, text), out)
  {
  }

  lemma OnlyThis(o: Outcome, out: seq<byte>)
    requires o.Next? && o.out == out
    ensures forall x :: Accepted(o, x) <==> o.state.bits == 0 && x == out
  {
  }

  lemma {:induction false} FailsBefore(chunks: seq<seq<byte>>, i: nat)
    requires i <= |chunks| && Run(START, Concat(chunks[..i])).Fail?
    ensures Run(START, Concat(chunks)).Fail?
    decreases |chunks|
  {
    if i == |chunks| {
      assert chunks[..i] == chunks;
    } else {
      var front := chunks[..|chunks| - 1];
      assert front[..i] == chunks[..i];
      FailsBefore(front, i);
      RunConcat(START, Concat(front), chunks[|chunks| - 1]);
    }
  }

  lemma PieceAfter(chunks: seq<seq<byte>>, i: nat, s: State, out: seq<byte>)
    requires i < |chunks| && Run(START, Concat(chunks[..i])) == Next(s, out)
    ensures Sound(s)
    ensures Run(s, chunks[i]).Fail? ==> Run(START, Concat(chunks)).Fail?
    ensures Run(s, chunks[i]).Next? ==> Run(START, Concat(chunks[..i + 1])) == Then(Next(s, out), Run(s, chunks[i]))
  {
    hide Run;
    assert chunks[..i + 1][..i] == chunks[..i];
    RunConcat(START, Concat(chunks[..i]), chunks[i]);
    if Run(s, chunks[i]).Fail? {
      FailsBefore(chunks, i + 1);
    }
  }

  /** Decoding undoes encoding, with white space anywhere. */
  lemma RoundTrip(b: seq<byte>, text: seq<byte>)
    requires Stripped(text) == Encode(b)
    ensures Accepted(Run(START, text), b)
  {
    DecodesExactly(text, b);
  }

  /** One letter with three padding characters is accepted and yields nothing. */
  lemma TripleAccepted()
    ensures Accepted(Run(START, TRIPLE), [])
  {
    AcceptedExactly(TRIPLE, []);
    assert [] + TRIPLE == TRIPLE;
  }
}
