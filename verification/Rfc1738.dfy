/** Escaping of URLs as in section 2.2 of RFC 1738. */
module Rfc1738 {
  import opened Bytes

  datatype Flags = Flags(ctrls: bool, unsafe: bool, reserved: bool, noSpace: bool, noPercent: bool)

  const PERCENT: byte := 0x25

  const UNSAFE_CHARS: set<byte> :=
    {0x3C, 0x3E, 0x22, 0x23, 0x7B, 0x7D, 0x7C, 0x5C, 0x5E, 0x7E, 0x5B, 0x5D, 0x60, 0x27}

  const RESERVED_CHARS: set<byte> := {0x3B, 0x2F, 0x3F, 0x3A, 0x40, 0x3D, 0x26}

  predicate Alphanumeric(c: byte) {
    0x61 <= c <= 0x7A || 0x41 <= c <= 0x5A || 0x30 <= c <= 0x39
  }

  /** Compared as a signed character, so that non-ASCII ones are below it too. */
  predicate AtMostSpace(c: byte) {
    c <= 0x20 || c >= 0x80
  }

  predicate Escapes(f: Flags, c: byte) {
    && !Alphanumeric(c)
    && (|| (f.unsafe && (c in UNSAFE_CHARS || (!f.noPercent && c == PERCENT) || (!f.noSpace && AtMostSpace(c))))
        || (f.reserved && c in RESERVED_CHARS)
        || (f.ctrls && (c <= 0x1F || c >= 0x7F)))
  }

  /** An uppercase hexadecimal digit. */
  function Digit(v: nat): byte
    requires v < 16
  {
    if v < 10 then (0x30 + v) as byte else (0x37 + v) as byte
  }

  function FromHex(c: byte): int {
    if 0x30 <= c <= 0x39 then c as int - 0x30
    else if 0x61 <= c <= 0x66 then c as int - 0x61 + 10
    else if 0x41 <= c <= 0x46 then c as int - 0x41 + 10
    else -1
  }

  function EscapedOne(f: Flags, c: byte): (s: seq<byte>)
    ensures 1 <= |s| <= 3
  {
    if Escapes(f, c) then [PERCENT, Digit(c as nat / 16), Digit(c as nat % 16)] else [c]
  }

  function Escaped(f: Flags, s: seq<byte>): seq<byte> {
    if s == [] then [] else EscapedOne(f, s[0]) + Escaped(f, s[1..])
  }

  /** Converts escapes back; anything that is not an escape stays. */
  function Unescaped(s: seq<byte>): seq<byte> {
    if s == [] then []
    else if s[0] != PERCENT then [s[0]] + Unescaped(s[1..])
    else if |s| >= 2 && s[1] == PERCENT then [PERCENT] + Unescaped(s[2..])
    else if IsEscape(s) then [EscapeValue(s)] + Unescaped(s[3..])
    else [PERCENT] + Unescaped(s[1..])
  }

  /** Two hexadecimal digits follow that are not both zero. */
  predicate IsEscape(s: seq<byte>) {
    |s| >= 3 && FromHex(s[1]) >= 0 && FromHex(s[2]) >= 0 && FromHex(s[1]) * 16 + FromHex(s[2]) > 0
  }

  function EscapeValue(s: seq<byte>): byte
    requires IsEscape(s)
  {
    (FromHex(s[1]) * 16 + FromHex(s[2])) as byte
  }

  ghost predicate NulFree(s: seq<byte>) {
    0 !in s
  }

  lemma Digits(c: byte)
    ensures FromHex(Digit(c as nat / 16)) == c as int / 16 && FromHex(Digit(c as nat % 16)) == c as int % 16
    ensures Digit(c as nat / 16) != PERCENT && Alphanumeric(Digit(c as nat / 16)) && Alphanumeric(Digit(c as nat % 16))
  {
  }

  /** The escape character is itself escaped. */
  predicate EscapesPercent(f: Flags) {
    f.unsafe && !f.noPercent
  }

  lemma PercentEscaped(f: Flags)
    ensures Escapes(f, PERCENT) <==> EscapesPercent(f)
  {
  }

  lemma UnescapedOne(f: Flags, c: byte, rest: seq<byte>)
    requires c != 0 && EscapesPercent(f)
    ensures Unescaped(EscapedOne(f, c) + rest) == [c] + Unescaped(rest)
  {
    PercentEscaped(f);
    Digits(c);
    hide Escapes, FromHex, Digit;
    var s := EscapedOne(f, c) + rest;
    if Escapes(f, c) {
      assert s[3..] == rest;
    } else {
      assert s[1..] == rest;
    }
  }

  lemma {:induction false} UnescapeUndoes(f: Flags, s: seq<byte>)
    requires NulFree(s) && EscapesPercent(f)
    ensures Unescaped(Escaped(f, s)) == s
  {
    if s != [] {
      UnescapedOne(f, s[0], Escaped(f, s[1..]));
      UnescapeUndoes(f, s[1..]);
    }
  }

  /** Unescaping undoes escaping on all texts exactly if percent is escaped. */
  lemma RoundTripExactly(f: Flags)
    ensures (forall s :: NulFree(s) ==> Unescaped(Escaped(f, s)) == s) <==> EscapesPercent(f)
  {
    if EscapesPercent(f) {
      forall s | NulFree(s) ensures Unescaped(Escaped(f, s)) == s {
        UnescapeUndoes(f, s);
      }
    } else {
      PercentEscaped(f);
      var s: seq<byte> := [PERCENT, 0x34, 0x31];
      Unchanged(f, s);
      assert Unescaped(s) == [0x41] + Unescaped(s[3..]);
      assert NulFree(s) && Unescaped(Escaped(f, s)) != s;
    }
  }

  lemma {:induction false} Unchanged(f: Flags, s: seq<byte>)
    requires forall c :: c in s ==> !Escapes(f, c)
    ensures Escaped(f, s) == s
  {
    if s != [] {
      Unchanged(f, s[1..]);
    }
  }

  lemma {:induction false} NothingToEscape(f: Flags, s: seq<byte>)
    requires !EscapesPercent(f)
    ensures forall c :: c in Escaped(f, s) ==> !Escapes(f, c)
  {
    if s != [] {
      PercentEscaped(f);
      Digits(s[0]);
      NothingToEscape(f, s[1..]);
    }
  }

  /** Escaping twice is escaping once exactly if percent is not escaped. */
  lemma IdempotentExactly(f: Flags)
    ensures (forall s :: NulFree(s) ==> Escaped(f, Escaped(f, s)) == Escaped(f, s)) <==> !EscapesPercent(f)
  {
    if EscapesPercent(f) {
      PercentEscaped(f);
      var s := [PERCENT];
      assert Escaped(f, s) == EscapedOne(f, PERCENT) + [];
      var t := Escaped(f, s);
      assert |Escaped(f, t)| >= |EscapedOne(f, t[0])| + 2 by {
        LongerEscaped(f, t[1..]);
      }
      assert NulFree(s) && Escaped(f, t) != t;
    } else {
      forall s | NulFree(s) ensures Escaped(f, Escaped(f, s)) == Escaped(f, s) {
        NothingToEscape(f, s);
        Unchanged(f, Escaped(f, s));
      }
    }
  }

  lemma {:induction false} LongerEscaped(f: Flags, s: seq<byte>)
    ensures |s| <= |Escaped(f, s)| <= 3 * |s|
  {
    if s != [] {
      LongerEscaped(f, s[1..]);
    }
  }

  // --- The reused buffer ---

  class Escaper {
    var buf: array?<byte>

    /** The buffer is made for whole characters and a terminator. */
    ghost predicate Valid()
      reads this
    {
      buf != null ==> buf.Length % 3 == 1
    }

    constructor ()
      ensures Valid() && buf == null
    {
      buf := null;
    }

    /** Escapes a text into the buffer, which never cuts it off. */
    method DoEscape(url: seq<byte>, f: Flags) returns (length: nat)
      requires Valid() && NulFree(url)
      modifies this, buf
      ensures Valid() && buf != null && (buf == old(buf) || fresh(buf))
      ensures length < buf.Length && buf[..length] == Escaped(f, url) && buf[length] == 0
    {
      hide Escapes, EscapedOne, Escaped;
      assert url[0..] == url;
      if buf == null || |url| * 3 > buf.Length {
        buf := new byte[|url| * 3 + 1](_ => 0);
      }
      var src, dst := 0, 0;
      var bufsize := buf.Length;
      while src < |url| && dst < bufsize - 1
        invariant Valid() && buf != null && (buf == old(buf) || fresh(buf))
        invariant 0 <= src <= |url| && 0 <= dst <= 3 * src && bufsize == buf.Length && buf.Length >= 3 * |url| + 1
        invariant buf[..dst] + Escaped(f, url[src..]) == Escaped(f, url)
        decreases |url| - src
      {
        EscapedStep(f, url, src);
        Extend(buf[..dst], EscapedOne(f, url[src]), Escaped(f, url[src + 1..]), Escaped(f, url));
        Put(f, url[src], dst);
        dst := dst + |EscapedOne(f, url[src])|;
        src := src + 1;
      }
      EscapedNothing(f, url);
      buf[dst] := 0;
      length := dst;
    }

    /** Writes a character or its escape. */
    method Put(f: Flags, c: byte, dst: nat)
      requires buf != null && dst + 3 < buf.Length
      modifies buf
      ensures buf[..dst + |EscapedOne(f, c)|] == old(buf[..dst]) + EscapedOne(f, c)
    {
      if Escapes(f, c) {
        buf[dst] := PERCENT;
        buf[dst + 1] := Digit(c as nat / 16);
        buf[dst + 2] := Digit(c as nat % 16);
        buf[dst + 3] := 0;
      } else {
        buf[dst] := c;
      }
    }
  }

  lemma EscapedNothing(f: Flags, s: seq<byte>)
    ensures s[|s|..] == [] && Escaped(f, []) == []
  {
  }

  lemma Extend<T>(a: seq<T>, b: seq<T>, c: seq<T>, whole: seq<T>)
    requires a + (b + c) == whole
    ensures a + b + c == whole
  {
    assert a + b + c == a + (b + c);
  }

  lemma EscapedStep(f: Flags, s: seq<byte>, i: nat)
    requires i < |s|
    ensures Escaped(f, s[i..]) == EscapedOne(f, s[i]) + Escaped(f, s[i + 1..])
  {
    assert s[i..][1..] == s[i + 1..];
  }

  /** Unescapes a terminated text in place: the write position never passes the
    * read position. */
  method Unescape(s: array<byte>, ghost n: nat) returns (length: nat)
    requires n < s.Length && s[n] == 0 && NulFree(s[..n])
    modifies s
    ensures length <= n && s[..length] == Unescaped(old(s[..n])) && s[length] == 0
  {
    hide Unescaped, NulFree;
    var i, j := 0, 0;
    ghost var text := s[..n];
    assert text[0..] == text;
    while s[j] != 0
      invariant i <= j <= n && s[n] == 0 && forall k :: j <= k < n ==> s[k] == text[k]
      invariant s[..i] + Unescaped(text[j..]) == Unescaped(text)
      decreases n - j
    {
      ghost var was := s[..i];
      s[i] := s[j];
      var c, step := DecodeAt(s, j, text);
      Extend(was, [c], Unescaped(text[j + step..]), Unescaped(text));
      s[i] := c;
      assert s[..i + 1] == was + [c];
      i, j := i + 1, j + step;
    }
    Terminated(text, j);
    s[i] := 0;
    length := i;
  }

  /** The character that a position stands for, and how much of the text it
    * takes up. Reading stops at the terminator. */
  method DecodeAt(s: array<byte>, j: nat, ghost text: seq<byte>) returns (c: byte, step: nat)
    requires j < |text| < s.Length && s[|text|] == 0 && NulFree(text)
    requires forall k :: j <= k < |text| ==> s[k] == text[k]
    ensures 1 <= step <= |text| - j
    ensures Unescaped(text[j..]) == [c] + Unescaped(text[j + step..])
  {
    UnescapedStep(text, j);
    ghost var t := text[j..];
    assert forall k :: 0 <= k < |t| ==> t[k] == text[j + k];
    hide Unescaped;
    c, step := s[j], 1;
    if s[j] == PERCENT {
      if s[j + 1] == PERCENT {
        step := 2;
      } else {
        var v1 := FromHex(s[j + 1]);
        if v1 >= 0 {
          var v2 := FromHex(s[j + 2]);
          if v2 >= 0 && 0 < v1 * 16 + v2 <= 255 {
            c, step := (v1 * 16 + v2) as byte, 3;
          }
        }
      }
    }
  }

  lemma Terminated(text: seq<byte>, j: nat)
    requires j <= |text| && NulFree(text)
    ensures j == |text| ==> text[j..] == [] && Unescaped([]) == []
    ensures j < |text| ==> text[j] != 0
  {
  }

  lemma UnescapedStep(s: seq<byte>, j: nat)
    requires j < |s|
    ensures var t := s[j..];
      Unescaped(t) ==
        if s[j] != PERCENT then [s[j]] + Unescaped(s[j + 1..])
        else if j + 1 < |s| && s[j + 1] == PERCENT then [PERCENT] + Unescaped(s[j + 2..])
        else if IsEscape(t) then [EscapeValue(t)] + Unescaped(s[j + 3..])
        else [PERCENT] + Unescaped(s[j + 1..])
  {
    assert s[j..][1..] == s[j + 1..];
    if j + 2 <= |s| {
      assert s[j..][2..] == s[j + 2..];
    }
    if j + 3 <= |s| {
      assert s[j..][3..] == s[j + 3..];
    }
  }
}
