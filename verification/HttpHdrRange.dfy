/** Byte ranges of a Range header, once the length of the object is known. */
module HttpHdrRange {
  import opened Sequences

  /** An offset and a length; the unknown one of them is negative. */
  datatype Span = Span(offset: int, length: int)

  const UNKNOWN := -1

  predicate Known(x: int) {
    x > UNKNOWN
  }

  /** What parsing yields: a range, a trailer without length, or a suffix
    * without offset. */
  ghost predicate Parsed(s: Span) {
    Known(s.offset) || Known(s.length)
  }

  /** The bytes that a request for a range means, of an object of some length. */
  ghost predicate Wants(s: Span, clen: int, b: int) {
    0 <= b < clen &&
    if !Known(s.offset) then clen - s.length <= b
    else if !Known(s.length) then s.offset <= b
    else s.offset <= b < s.offset + s.length
  }

  ghost predicate Has(s: Span, b: int) {
    s.offset <= b < s.offset + s.length
  }

  ghost predicate Canonical(s: Span, clen: int) {
    0 <= s.offset && 0 < s.length && s.offset + s.length <= clen
  }

  ghost predicate AllCanonical(ss: seq<Span>, clen: int) {
    forall s :: s in ss ==> Canonical(s, clen)
  }

  ghost predicate SomeHas(ss: seq<Span>, b: int) {
    exists s :: s in ss && Has(s, b)
  }

  ghost predicate SomeWants(ss: seq<Span>, clen: int, b: int) {
    exists s :: s in ss && Wants(s, clen, b)
  }

  /** A range has exactly the bytes that another one wants. */
  ghost predicate Cut(s: Span, wish: Span, clen: int) {
    forall b :: Has(s, b) <==> Wants(wish, clen, b)
  }

  /** Some ranges have exactly the bytes that others want. */
  ghost predicate Satisfied(ss: seq<Span>, wishes: seq<Span>, clen: int) {
    forall b :: SomeHas(ss, b) <==> SomeWants(wishes, clen, b)
  }

  /** Two sets of ranges have the same bytes. */
  ghost predicate SameBytes(ss: seq<Span>, ts: seq<Span>) {
    forall b :: SomeHas(ss, b) <==> SomeHas(ts, b)
  }

  function Max(a: int, b: int): int {
    if a < b then b else a
  }

  function Min(a: int, b: int): int {
    if a < b then a else b
  }

  /** The size of the intersection of two intervals. */
  function Overlap(start0: int, end0: int, start1: int, end1: int): nat {
    Max(0, Min(end0, end1) - Max(start0, start1))
  }

  class RangeSpec {
    var offset: int
    var length: int

    constructor (offset: int, length: int)
      ensures this.offset == offset && this.length == length
    {
      this.offset, this.length := offset, length;
    }

    ghost function Value(): Span
      reads this
    {
      Span(offset, length)
    }

    /** Fills in the unknown part and cuts the range to the object. */
    method Canonize(clen: int) returns (valid: bool)
      requires Parsed(Value())
      modifies this
      ensures Cut(Value(), old(Value()), clen)
      ensures valid <==> exists b :: Wants(old(Value()), clen, b)
      ensures valid ==> Canonical(Value(), clen)
    {
      if !Known(offset) {
        offset := Max(0, clen - length);
      } else if !Known(length) {
        length := Overlap(0, clen, offset, clen);
      }
      length := Overlap(0, clen, offset, offset + length);
      valid := length > 0;
      assert valid ==> Has(Value(), offset);
    }

    /** Takes over an overlapping or adjacent range, where merging is enabled. */
    method MergeWith(donor: RangeSpec, merging: bool) returns (merged: bool)
      requires this != donor && 0 <= offset && 0 < length && 0 <= donor.offset && 0 < donor.length
      modifies this
      ensures merged ==> 0 <= offset && 0 < length
      ensures merged ==> offset == Min(old(offset), donor.offset)
      ensures merged ==> offset + length == Max(old(offset + length), donor.offset + donor.length)
      ensures merged ==> forall b :: Has(Value(), b) <==> Has(old(Value()), b) || Has(donor.Value(), b)
      ensures !merged ==> Value() == old(Value())
      ensures merged <==> merging && Touching(old(Value()), donor.Value())
    {
      merged := false;
      if !merging {
        return;
      }
      var rhs := offset + length;
      var donorRhs := donor.offset + donor.length;
      var start := offset;
      if donor.offset < offset <= donorRhs {
        offset := donor.offset;
        merged := true;
      }
      if donor.offset <= rhs < donorRhs {
        rhs := donorRhs;
        merged := true;
      }
      if merged {
        length := rhs - offset;
      } else {
        merged := offset <= donor.offset < rhs;
      }
    }
  }

  /** Two ranges overlap or one begins where the other ends. */
  ghost predicate Touching(s: Span, d: Span) {
    d.offset <= s.offset + s.length && s.offset <= d.offset + d.length
  }

  // --- Sets of ranges ---

  ghost function Values(specs: seq<RangeSpec>): (ss: seq<Span>)
    reads SetOf(specs)
    ensures |ss| == |specs|
    ensures forall i :: 0 <= i < |specs| ==> ss[i] == specs[i].Value()
  {
    if specs == [] then [] else Values(specs[..|specs| - 1]) + [specs[|specs| - 1].Value()]
  }

  /** Ranges in the order of their bytes, without overlap. */
  ghost predicate Ascending(ss: seq<Span>) {
    forall i, j :: 0 <= i < j < |ss| ==> ss[i].offset + ss[i].length <= ss[j].offset
  }

  class HttpHdrRange {
    var specs: seq<RangeSpec>
    var clen: int

    ghost predicate Distinct()
      reads this
    {
      NoRepeats(specs)
    }

    /** Whether some ranges are not in strictly ascending order. */
    method IsComplex() returns (complex: bool)
      requires AllCanonical(Values(specs), clen)
      ensures complex <==> !Ascending(Values(specs))
    {
      ghost var ss := Values(specs);
      assert forall s :: s in ss ==> 0 < s.length && 0 <= s.offset;
      hide Values, Ascending, AllCanonical;
      assert Ascending([]) by { NothingAscending(); }
      var offset := 0;
      var i := 0;
      while i < |specs|
        invariant 0 <= i <= |specs| && Values(specs) == ss
        invariant Ascending(ss[..i]) && EndsAt(ss[..i], offset)
      {
        assert ss[i] == specs[i].Value() && ss[i] in ss;
        AscendingStep(ss, i, offset);
        if specs[i].offset < offset {
          return true;
        }
        offset := specs[i].offset + specs[i].length;
        i := i + 1;
      }
      assert ss[..i] == ss;
      return false;
    }

    /** Canonizes each range and keeps the valid ones. */
    method GetCanonizedSpecs() returns (goods: seq<RangeSpec>)
      requires Distinct() && forall s :: s in Values(specs) ==> Parsed(s)
      modifies SetOf(specs)
      ensures goods == Selected(specs, old(Values(specs)), clen)
      ensures forall i :: 0 <= i < |specs| ==> Cut(specs[i].Value(), old(Values(specs))[i], clen)
      ensures NoRepeats(goods) && SetOf(goods) <= SetOf(specs) && AllCanonical(Values(goods), clen)
      ensures Satisfied(Values(goods), old(Values(specs)), clen)
    {
      hide Canonizing, Selected, Satisfied, AllCanonical, NoRepeats, Values;
      goods := [];
      ghost var ss, vs: seq<Span> := Values(specs), [];
      CanonizingStarts(specs, ss, clen);
      for i := 0 to |specs|
        invariant specs == old(specs) && clen == old(clen) && goods == Selected(specs[..i], ss[..i], clen)
        invariant Canonizing(specs, i, goods, ss, vs, clen)
        invariant AllCanonical(vs, clen) && Satisfied(vs, ss[..i], clen)
      {
        SelectedStep(specs, ss, i, clen);
        var valid := CanonizeNext(i, goods, ss, vs);
        WantedStep(vs, ss, i, clen, specs[i].Value());
        if valid {
          CanonicalStep(vs, specs[i].Value(), clen);
          vs := vs + [specs[i].Value()];
          goods := goods + [specs[i]];
        }
      }
      CanonizingEnds(specs, goods, ss, vs, clen);
    }

    method CanonizeNext(i: nat, ghost goods: seq<RangeSpec>, ghost ss: seq<Span>, ghost vs: seq<Span>) returns (valid: bool)
      requires NoRepeats(specs) && i < |specs| && Canonizing(specs, i, goods, ss, vs, clen)
      modifies specs[i]
      ensures i < |ss| && Cut(specs[i].Value(), ss[i], clen)
      ensures valid <==> exists b :: Wants(ss[i], clen, b)
      ensures valid ==> Canonical(specs[i].Value(), clen)
      ensures valid ==> Canonizing(specs, i + 1, goods + [specs[i]], ss, vs + [specs[i].Value()], clen)
      ensures !valid ==> Canonizing(specs, i + 1, goods, ss, vs, clen)
    {
      hide Cut, Wants;
      Unused(specs, goods, i);
      Unused(specs, [], i);
      assert forall j :: 0 <= j < i ==> specs[j] != specs[i];
      valid := specs[i].Canonize(clen);
    }

    /** Merges each range with the one before as often as they touch. */
    method Merge(basis: seq<RangeSpec>, merging: bool)
      requires NoRepeats(basis) && AllCanonical(Values(basis), clen)
      modifies this`specs, SetOf(basis)
      ensures SetOf(specs) <= SetOf(basis) && NoRepeats(specs) && AllCanonical(Values(specs), clen)
      ensures SameBytes(Values(specs), old(Values(basis)))
      ensures merging ==> Separate(Values(specs))
      ensures !merging ==> specs == basis && Values(specs) == old(Values(basis))
    {
      hide Merging, Progress, Touching, NoRepeats, Values, Has, Canonical;
      specs := [];
      ghost var bs := Values(basis);
      ghost var vs: seq<Span>, ts := [], bs;
      MergingStarts(basis, bs, merging, clen);
      var i := 0;
      while i < |basis|
        invariant i <= |basis| && Merging(specs, basis, i, vs, ts) && Progress(vs, ts, bs, merging, clen)
        invariant !merging ==> specs == basis[..i]
        decreases |basis| - i, |specs|
      {
        MergingSizes(specs, basis, i, vs, ts, bs, merging, clen);
        var merged := MergeBack(basis, i, merging, vs, ts);
        if merged {
          Merged(vs, ts, bs, merging, basis[i].Value(), clen);
          vs, ts := vs[..|vs| - 1], [basis[i].Value()] + ts[1..];
          continue;
        }
        Pushed(vs, ts, bs, merging, clen);
        Push(basis, i, vs, ts);
        vs, ts := vs + [ts[0]], ts[1..];
        i := i + 1;
      }
      MergingEnds(specs, basis, vs, ts, bs, merging, clen);
    }

    /** Makes the ranges fit an object: together they then have exactly the
      * bytes of the object that were asked for. */
    method Canonize(newClen: int, merging: bool) returns (valid: bool)
      requires Distinct() && forall s :: s in Values(specs) ==> Parsed(s)
      modifies this, SetOf(specs)
      ensures Distinct() && AllCanonical(Values(specs), clen) && clen == newClen
      ensures Satisfied(Values(specs), old(Values(specs)), newClen)
      ensures if merging then Separate(Values(specs)) else specs == Selected(old(specs), old(Values(specs)), newClen)
      ensures valid <==> exists b :: SomeWants(old(Values(specs)), newClen, b)
    {
      hide Satisfied, SameBytes, AllCanonical, Separate, SomeWants, Selected;
      clen := newClen;
      ghost var wishes := Values(specs);
      var goods := GetCanonizedSpecs();
      ghost var ss := Values(goods);
      Merge(goods, merging);
      SatisfiedSame(ss, Values(specs), wishes, newClen);
      NothingLeft(Values(specs), wishes, newClen);
      valid := |specs| > 0;
    }

    method Push(basis: seq<RangeSpec>, i: nat, ghost vs: seq<Span>, ghost ts: seq<Span>)
      requires NoRepeats(basis) && i < |basis| && Merging(specs, basis, i, vs, ts)
      modifies this`specs
      ensures specs == old(specs) + [basis[i]]
      ensures ts != [] && Merging(specs, basis, i + 1, vs + [ts[0]], ts[1..])
    {
      Unused(basis, specs, i);
      specs := specs + [basis[i]];
    }

    /** Lets the range at a position take over the last one kept. */
    method MergeBack(basis: seq<RangeSpec>, i: nat, merging: bool, ghost vs: seq<Span>, ghost ts: seq<Span>)
      returns (merged: bool)
      requires NoRepeats(basis) && i < |basis| && Merging(specs, basis, i, vs, ts)
      requires AllCanonical(vs, clen) && AllCanonical(ts, clen)
      modifies this`specs, basis[i]
      ensures merged ==> merging && vs != [] && ts != [] && specs == old(specs[..|specs| - 1])
      ensures merged ==> 0 <= basis[i].offset && 0 < basis[i].length
      ensures merged ==> forall b :: Has(basis[i].Value(), b) <==> Has(ts[0], b) || Has(vs[|vs| - 1], b)
      ensures merged ==> Merging(specs, basis, i, vs[..|vs| - 1], [basis[i].Value()] + ts[1..])
      ensures !merged ==> specs == old(specs) && Merging(specs, basis, i, vs, ts)
      ensures !merged && merging && vs != [] ==> !Touching(ts[0], vs[|vs| - 1])
    {
      hide AllCanonical;
      var n := |specs|;
      if n == 0 {
        return false;
      }
      Firsts(vs, ts, clen);
      Unused(basis, specs, i);
      assert basis[i].Value() == ts[0] && specs[n - 1].Value() == vs[n - 1];
      merged := basis[i].MergeWith(specs[n - 1], merging);
      if merged {
        specs := specs[..n - 1];
      }
    }
  }

  /** Some ranges are kept from the first part of a list; the values of all. */
  ghost predicate Merging(specs: seq<RangeSpec>, basis: seq<RangeSpec>, i: nat, vs: seq<Span>, ts: seq<Span>)
    requires i <= |basis|
    reads SetOf(specs), SetOf(basis)
  {
    && NoRepeats(specs) && (forall s :: s in specs ==> s in basis[..i])
    && |vs| == |specs| && (forall j :: 0 <= j < |specs| ==> specs[j].Value() == vs[j])
    && |ts| == |basis| - i && (forall j :: i <= j < |basis| ==> basis[j].Value() == ts[j - i])
  }

  /** Kept and remaining ranges together have the bytes there were. */
  ghost predicate Progress(vs: seq<Span>, ts: seq<Span>, bs: seq<Span>, merging: bool, clen: int) {
    && AllCanonical(vs, clen) && AllCanonical(ts, clen) && SameBytes(vs + ts, bs)
    && if merging then Separate(vs) else vs + ts == bs
  }

  lemma MergingStarts(basis: seq<RangeSpec>, bs: seq<Span>, merging: bool, clen: int)
    requires Values(basis) == bs && AllCanonical(bs, clen)
    ensures Merging([], basis, 0, [], bs) && Progress([], bs, bs, merging, clen)
  {
    hide SomeHas;
    assert [] + bs == bs;
  }

  lemma MergingSizes(specs: seq<RangeSpec>, basis: seq<RangeSpec>, i: nat, vs: seq<Span>, ts: seq<Span>,
                     bs: seq<Span>, merging: bool, clen: int)
    requires i < |basis| && Merging(specs, basis, i, vs, ts) && Progress(vs, ts, bs, merging, clen)
    ensures |vs| == |specs| && |ts| == |basis| - i && basis[i] in SetOf(basis)
    ensures AllCanonical(vs, clen) && AllCanonical(ts, clen)
  {
  }

  lemma MergingEnds(specs: seq<RangeSpec>, basis: seq<RangeSpec>, vs: seq<Span>, ts: seq<Span>,
                    bs: seq<Span>, merging: bool, clen: int)
    requires Merging(specs, basis, |basis|, vs, ts) && Progress(vs, ts, bs, merging, clen)
    ensures Values(specs) == vs && NoRepeats(specs) && SetOf(specs) <= SetOf(basis)
    ensures AllCanonical(vs, clen) && SameBytes(vs, bs) && (if merging then Separate(vs) else vs == bs)
    ensures basis[..|basis|] == basis
  {
    hide SomeHas;
    assert vs + ts == vs;
  }

  lemma Firsts(vs: seq<Span>, ts: seq<Span>, clen: int)
    requires vs != [] && ts != [] && AllCanonical(vs, clen) && AllCanonical(ts, clen)
    ensures Canonical(ts[0], clen) && Canonical(vs[|vs| - 1], clen)
  {
  }

  lemma SomeConcat(a: seq<Span>, b: seq<Span>, x: int)
    ensures SomeHas(a + b, x) <==> SomeHas(a, x) || SomeHas(b, x)
  {
    hide Has;
    assert forall s :: s in a + b <==> s in a || s in b;
  }

  lemma SomeOne(s: Span, x: int)
    ensures SomeHas([s], x) <==> Has(s, x)
  {
    hide Has;
    assert s in [s];
  }

  /** A range that has the bytes of two can stand for both. */
  lemma Merged(vs: seq<Span>, ts: seq<Span>, bs: seq<Span>, merging: bool, c: Span, clen: int)
    requires merging && vs != [] && ts != [] && Progress(vs, ts, bs, merging, clen)
    requires forall b :: Has(c, b) <==> Has(ts[0], b) || Has(vs[|vs| - 1], b)
    requires 0 <= c.offset && 0 < c.length
    ensures Progress(vs[..|vs| - 1], [c] + ts[1..], bs, merging, clen)
  {
    var front, d, rest := vs[..|vs| - 1], vs[|vs| - 1], ts[1..];
    assert Has(c, c.offset + c.length - 1) && d in vs && ts[0] in ts;
    forall b ensures SomeHas(front + ([c] + rest), b) <==> SomeHas(bs, b) {
      hide SomeHas, Has;
      assert vs + ts == (front + [d]) + ([ts[0]] + rest);
      SomeConcat(front + [d], [ts[0]] + rest, b);
      SomeConcat(front, [d], b);
      SomeConcat([ts[0]], rest, b);
      SomeConcat(front, [c] + rest, b);
      SomeConcat([c], rest, b);
      SomeOne(c, b);
      SomeOne(d, b);
      SomeOne(ts[0], b);
    }
  }

  lemma Pushed(vs: seq<Span>, ts: seq<Span>, bs: seq<Span>, merging: bool, clen: int)
    requires ts != [] && Progress(vs, ts, bs, merging, clen)
    requires merging && vs != [] ==> !Touching(ts[0], vs[|vs| - 1])
    ensures Progress(vs + [ts[0]], ts[1..], bs, merging, clen)
  {
    hide SomeHas;
    assert vs + [ts[0]] + ts[1..] == vs + ts;
  }

  lemma {:induction false} NothingLeft(ss: seq<Span>, wishes: seq<Span>, clen: int)
    requires AllCanonical(ss, clen) && Satisfied(ss, wishes, clen)
    ensures ss == [] <==> forall b :: !SomeWants(wishes, clen, b)
  {
    if ss != [] {
      assert ss[0] in ss && Has(ss[0], ss[0].offset);
      assert SomeHas(ss, ss[0].offset);
    }
  }

  lemma SatisfiedSame(ss: seq<Span>, ts: seq<Span>, wishes: seq<Span>, clen: int)
    requires Satisfied(ss, wishes, clen) && SameBytes(ts, ss)
    ensures Satisfied(ts, wishes, clen)
  {
    hide SomeHas, SomeWants;
  }

  /** No range touches the next one. */
  ghost predicate Separate(ss: seq<Span>) {
    forall i :: 0 < i < |ss| ==> !Touching(ss[i], ss[i - 1])
  }

  /** The first ranges are canonized, some of them good; the others are as
    * they were. */
  ghost predicate Canonizing(specs: seq<RangeSpec>, i: nat, goods: seq<RangeSpec>, ss: seq<Span>, vs: seq<Span>, clen: int)
    requires i <= |specs|
    reads SetOf(specs), SetOf(goods)
  {
    && NoRepeats(goods) && (forall g :: g in goods ==> g in specs[..i])
    && |vs| == |goods| && (forall j :: 0 <= j < |goods| ==> goods[j].Value() == vs[j])
    && |ss| == |specs| && (forall j :: i <= j < |specs| ==> specs[j].Value() == ss[j])
    && (forall j :: 0 <= j < i ==> Cut(specs[j].Value(), ss[j], clen))
    && (forall s :: s in ss ==> Parsed(s))
  }

  lemma CanonizingStarts(specs: seq<RangeSpec>, ss: seq<Span>, clen: int)
    requires Values(specs) == ss && forall s :: s in ss ==> Parsed(s)
    ensures Canonizing(specs, 0, [], ss, [], clen) && AllCanonical([], clen) && Satisfied([], ss[..0], clen)
    ensures Selected(specs[..0], ss[..0], clen) == []
  {
  }

  lemma CanonizingEnds(specs: seq<RangeSpec>, goods: seq<RangeSpec>, ss: seq<Span>, vs: seq<Span>, clen: int)
    requires Canonizing(specs, |specs|, goods, ss, vs, clen)
    ensures Values(goods) == vs && NoRepeats(goods) && SetOf(goods) <= SetOf(specs)
    ensures |ss| == |specs| && forall j :: 0 <= j < |specs| ==> Cut(specs[j].Value(), ss[j], clen)
    ensures ss[..|specs|] == ss && specs[..|specs|] == specs
  {
  }

  lemma Unused<T>(s: seq<T>, t: seq<T>, i: nat)
    requires NoRepeats(s) && i < |s| && forall x :: x in t ==> x in s[..i]
    ensures s[i] !in t && s[i] in SetOf(s)
    ensures forall j :: i < j < |s| ==> s[j] != s[i]
  {
  }

  /** The ranges, in their order, of which the object has a byte. */
  ghost function Selected(specs: seq<RangeSpec>, wishes: seq<Span>, clen: int): seq<RangeSpec>
    requires |specs| == |wishes|
  {
    if specs == [] then []
    else
      var n := |specs| - 1;
      var rest := Selected(specs[..n], wishes[..n], clen);
      if exists b :: Wants(wishes[n], clen, b) then rest + [specs[n]] else rest
  }

  lemma SelectedStep(specs: seq<RangeSpec>, wishes: seq<Span>, i: nat, clen: int)
    requires |specs| == |wishes| && i < |specs|
    ensures var rest := Selected(specs[..i], wishes[..i], clen);
      Selected(specs[..i + 1], wishes[..i + 1], clen)
      == if exists b :: Wants(wishes[i], clen, b) then rest + [specs[i]] else rest
  {
    assert specs[..i + 1][..i] == specs[..i] && wishes[..i + 1][..i] == wishes[..i];
  }

  lemma CanonicalStep(ss: seq<Span>, s: Span, clen: int)
    requires AllCanonical(ss, clen) && Canonical(s, clen)
    ensures AllCanonical(ss + [s], clen)
  {
  }

  lemma SomeStep(ss: seq<Span>, s: Span, clen: int, b: int)
    ensures SomeHas(ss + [s], b) <==> SomeHas(ss, b) || Has(s, b)
    ensures SomeWants(ss + [s], clen, b) <==> SomeWants(ss, clen, b) || Wants(s, clen, b)
  {
    hide Has, Wants;
    assert s in ss + [s];
    assert forall x :: x in ss ==> x in ss + [s];
  }

  lemma WantedStep(gs: seq<Span>, ss: seq<Span>, i: nat, clen: int, s: Span)
    requires i < |ss| && Satisfied(gs, ss[..i], clen) && Cut(s, ss[i], clen)
    ensures Satisfied(gs + [s], ss[..i + 1], clen)
    ensures !(exists b :: Wants(ss[i], clen, b)) ==> Satisfied(gs, ss[..i + 1], clen)
  {
    hide SomeHas, SomeWants, Has, Wants;
    assert ss[..i + 1] == ss[..i] + [ss[i]];
    forall b ensures SomeHas(gs + [s], b) <==> SomeWants(ss[..i + 1], clen, b) {
      SomeStep(gs, s, clen, b);
      SomeStep(ss[..i], ss[i], clen, b);
    }
    forall b | !Wants(ss[i], clen, b) ensures SomeHas(gs, b) <==> SomeWants(ss[..i + 1], clen, b) {
      SomeStep(ss[..i], ss[i], clen, b);
    }
  }

  /** Where the last of some ranges ends. */
  ghost predicate EndsAt(ss: seq<Span>, offset: int) {
    offset == if ss == [] then 0 else ss[|ss| - 1].offset + ss[|ss| - 1].length
  }

  lemma NothingAscending()
    ensures Ascending([])
  {
  }

  lemma AscendingStep(ss: seq<Span>, i: nat, offset: int)
    requires i < |ss| && Ascending(ss[..i]) && EndsAt(ss[..i], offset) && 0 <= ss[i].offset
    requires forall s :: s in ss ==> 0 < s.length
    ensures ss[i].offset >= offset ==> Ascending(ss[..i + 1])
    ensures ss[i].offset < offset ==> !Ascending(ss)
  {
    if i > 0 {
      var last := ss[i - 1];
      assert last == ss[..i][i - 1];
      forall k | 0 <= k < i ensures ss[k].offset + ss[k].length <= offset {
        assert ss[..i][k] == ss[k] && ss[i - 1] in ss;
      }
    }
  }
}
