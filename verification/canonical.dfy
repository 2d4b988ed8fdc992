/**
  The form of a request that Upbit signs (internal/upbit/auth.go): the wire form with its percent escapes decoded.
  Escapes are those of section 2.1 of RFC 3986, and a space travels as a plus sign.
*/
module Canonical {
  import opened Wrappers

  type Byte = b: int | 0 <= b < 256

  type Bytes = seq<Byte>

  datatype Param = Param(key: Bytes, value: Bytes)

  const SPACE: Byte := 0x20
  const PERCENT: Byte := 0x25
  const AMPERSAND: Byte := 0x26
  const PLUS: Byte := 0x2B
  const EQUALS: Byte := 0x3D

  // ---------- The wire form ----------

  predicate IsDigit(b: Byte) {
    0x30 <= b <= 0x39
  }

  predicate IsLetter(b: Byte) {
    0x41 <= b <= 0x5A || 0x61 <= b <= 0x7A
  }

  /** Unreserved: letters, digits, and - _ . ~ */
  predicate Unreserved(b: Byte) {
    IsLetter(b) || IsDigit(b) || b == 0x2D || b == 0x5F || b == 0x2E || b == 0x7E
  }

  function HexDigit(n: int): Byte
    requires 0 <= n < 16
  {
    if n < 10 then 0x30 + n else 0x41 + n - 10
  }

  function EscapeByte(b: Byte): (e: Bytes)
    ensures e != []
  {
    if Unreserved(b) then [b] else if b == SPACE then [PLUS] else [PERCENT, HexDigit(b / 16), HexDigit(b % 16)]
  }

  /**
    Letters, digits and - . _ ~ travel as they are and a space as a plus; every other byte is a percent sign and its two
    hexadecimal digits, in capitals.
  */
  lemma EscapesAre(b: Byte)
    ensures var e := EscapeByte(b);
      if b == 0x20 then e == [0x2B]
      else if 0x30 <= b <= 0x39 || 0x41 <= b <= 0x5A || 0x61 <= b <= 0x7A || b in {0x2D, 0x2E, 0x5F, 0x7E} then e == [b]
      else
        |e| == 3 && e[0] == 0x25 && IsHexOf(e[1], b / 16) && IsHexOf(e[2], b % 16)
  {
  }

  /** The digit or capital letter that stands for a number below sixteen. */
  ghost predicate IsHexOf(digit: Byte, n: int) {
    (0x30 <= digit <= 0x39 && n == digit - 0x30) || (0x41 <= digit <= 0x46 && n == digit - 0x37)
  }

  function QueryEscape(s: Bytes): Bytes {
    if s == [] then [] else EscapeByte(s[0]) + QueryEscape(s[1..])
  }

  function EncodePair(p: Param): Bytes {
    QueryEscape(p.key) + [EQUALS] + QueryEscape(p.value)
  }

  /** Pairs in the order given, joined by ampersands. */
  function Encode(params: seq<Param>): Bytes {
    if params == [] then []
    else if |params| == 1 then EncodePair(params[0])
    else EncodePair(params[0]) + [AMPERSAND] + Encode(params[1..])
  }

  // ---------- Decoding ----------

  function HexValue(b: Byte): Option<int> {
    if IsDigit(b) then Some(b - 0x30)
    else if 0x41 <= b <= 0x46 then Some(b - 0x41 + 10)
    else if 0x61 <= b <= 0x66 then Some(b - 0x61 + 10)
    else None
  }

  /** The byte an escape at the front stands for, if there is one. */
  function Escaped(s: Bytes): (b: Option<Byte>)
    ensures b.Some? ==> 3 <= |s|
  {
    if 3 <= |s| && s[0] == PERCENT && HexValue(s[1]).Some? && HexValue(s[2]).Some?
    then Some(HexValue(s[1]).value * 16 + HexValue(s[2]).value)
    else None
  }

  /** Undoes the escapes from left to right and leaves every other byte as it is. */
  function DecodePercent(s: Bytes): Bytes {
    if s == [] then []
    else
      match Escaped(s)
      case Some(b) => [b] + DecodePercent(s[3..])
      case None => [s[0]] + DecodePercent(s[1..])
  }

  /** A hexadecimal digit, of either case, and the number it stands for. */
  ghost predicate IsHexDigit(digit: Byte, n: int) {
    || (0x30 <= digit <= 0x39 && n == digit - 0x30)
    || (0x41 <= digit <= 0x46 && n == digit - 0x37)
    || (0x61 <= digit <= 0x66 && n == digit - 0x57)
  }

  /** The text begins with a percent sign and the two digits of a byte. */
  ghost predicate BeginsWithEscape(s: Bytes, high: int, low: int) {
    3 <= |s| && s[0] == 0x25 && IsHexDigit(s[1], high) && IsHexDigit(s[2], low)
  }

  /** An escape is undone into the byte it spells. */
  lemma EscapeIsUndone(s: Bytes, high: int, low: int)
    requires BeginsWithEscape(s, high, low)
    ensures 0 <= 16 * high + low < 256 && DecodePercent(s) == [16 * high + low] + DecodePercent(s[3..])
  {
    HexValueIs(s[1]);
    HexValueIs(s[2]);
    hide HexValue;
  }

  /** Every other byte is kept, a percent sign without two digits too. */
  lemma OthersAreKept(s: Bytes)
    requires s != [] && forall high, low :: !BeginsWithEscape(s, high, low)
    ensures DecodePercent(s) == [s[0]] + DecodePercent(s[1..])
  {
    EscapedBegins(s);
  }

  lemma EscapedBegins(s: Bytes)
    ensures Escaped(s).Some? ==> exists high, low :: BeginsWithEscape(s, high, low)
  {
    if Escaped(s).Some? {
      HexValueIs(s[1]);
      HexValueIs(s[2]);
      assert BeginsWithEscape(s, HexValue(s[1]).value, HexValue(s[2]).value);
    }
  }

  lemma HexValueIs(digit: Byte)
    ensures HexValue(digit).Some? ==> IsHexDigit(digit, HexValue(digit).value)
    ensures forall n | IsHexDigit(digit, n) :: HexValue(digit) == Some(n)
  {
  }

  function CanonicalForm(params: seq<Param>): Bytes {
    DecodePercent(Encode(params))
  }

  // ---------- The loops of the source ----------

  method EscapeQuery(s: Bytes) returns (out: Bytes)
    ensures out == QueryEscape(s)
  {
    out := [];
    for i := 0 to |s|
      invariant out + QueryEscape(s[i..]) == QueryEscape(s)
    {
      assert s[i..][1..] == s[i + 1..];
      assert QueryEscape(s[i..]) == EscapeByte(s[i]) + QueryEscape(s[i + 1..]);
      hide QueryEscape, EscapeByte;
      Regroup(out, EscapeByte(s[i]), QueryEscape(s[i + 1..]));
      out := out + EscapeByte(s[i]);
    }
  }

  method EncodeParams(params: seq<Param>) returns (out: Bytes)
    ensures out == Encode(params)
  {
    out := [];
    EverythingAhead(params);
    for i := 0 to |params|
      invariant out + Ahead(params, i) == Encode(params)
    {
      ghost var before := out;
      AheadUnfolds(params, i);
      hide Ahead, QueryEscape, Encode;
      if i > 0 {
        out := out + [AMPERSAND];
      }
      ghost var start := out;
      assert start == before + Joint(i);
      var key := EscapeQuery(params[i].key);
      out := out + key;
      out := out + [EQUALS];
      Regroup(start, key, [EQUALS]);
      var value := EscapeQuery(params[i].value);
      out := out + value;
      Regroup(start, key + [EQUALS], value);
      Regroup(before, Joint(i), EncodePair(params[i]));
      Regroup(before, Joint(i) + EncodePair(params[i]), Ahead(params, i + 1));
    }
    NothingAhead(params);
  }

  /** What goes in front of the pair at i. */
  ghost function Joint(i: nat): Bytes {
    if i > 0 then [AMPERSAND] else []
  }

  /** What is still to be written when the pairs before i have been. */
  ghost function Ahead(params: seq<Param>, i: nat): Bytes
    requires i <= |params|
  {
    if i == |params| then [] else Joint(i) + Encode(params[i..])
  }

  lemma EverythingAhead(params: seq<Param>)
    ensures Ahead(params, 0) == Encode(params)
  {
    assert params[0..] == params;
  }

  lemma NothingAhead(params: seq<Param>)
    ensures Ahead(params, |params|) == []
  {
  }

  lemma AheadUnfolds(params: seq<Param>, i: nat)
    requires i < |params|
    ensures Ahead(params, i) == (Joint(i) + EncodePair(params[i])) + Ahead(params, i + 1)
  {
    assert params[i..][1..] == params[i + 1..];
    hide EncodePair;
  }

  predicate Contains(s: Bytes, b: Byte) {
    exists i :: 0 <= i < |s| && s[i] == b
  }

  method Decode(s: Bytes) returns (out: Bytes)
    ensures out == DecodePercent(s)
  {
    if !Contains(s, PERCENT) {
      NothingToDecode(s);
      return s;
    }
    out := [];
    var i := 0;
    while i < |s|
      invariant i <= |s|
      invariant out + DecodePercent(s[i..]) == DecodePercent(s)
    {
      DecodeAt(s, i);
      hide DecodePercent;
      if s[i] == PERCENT && i + 2 < |s| {
        var high, low := HexValue(s[i + 1]), HexValue(s[i + 2]);
        if high.Some? && low.Some? {
          Regroup(out, [high.value * 16 + low.value], DecodePercent(s[i + 3..]));
          out := out + [high.value * 16 + low.value];
          i := i + 3;
          continue;
        }
      }
      Regroup(out, [s[i]], DecodePercent(s[i + 1..]));
      out := out + [s[i]];
      i := i + 1;
    }
  }

  /** One step of decoding, at position i of the text. */
  lemma DecodeAt(s: Bytes, i: nat)
    requires i < |s|
    ensures
      if s[i] == PERCENT && i + 2 < |s| && HexValue(s[i + 1]).Some? && HexValue(s[i + 2]).Some?
      then DecodePercent(s[i..]) == [HexValue(s[i + 1]).value * 16 + HexValue(s[i + 2]).value] + DecodePercent(s[i + 3..])
      else DecodePercent(s[i..]) == [s[i]] + DecodePercent(s[i + 1..])
  {
    assert s[i..][1..] == s[i + 1..];
    if i + 2 < |s| {
      assert s[i..][3..] == s[i + 3..];
    }
  }

  lemma {:induction false} NothingToDecode(s: Bytes)
    requires !Contains(s, PERCENT)
    ensures DecodePercent(s) == s
  {
    if s != [] {
      assert s[0] != PERCENT;
      assert forall i | 0 <= i < |s| - 1 :: s[1..][i] == s[i + 1];
      NothingToDecode(s[1..]);
    }
  }

  // ---------- What is signed ----------

  /** Each space as a plus sign. */
  function Plussed(s: Bytes): (r: Bytes)
    ensures |r| == |s|
  {
    seq(|s|, i requires 0 <= i < |s| => if s[i] == SPACE then PLUS else s[i])
  }

  function RawPair(p: Param): Bytes {
    Plussed(p.key) + [EQUALS] + Plussed(p.value)
  }

  /** The parameters as they are, joined, with only their spaces replaced. */
  function Raw(params: seq<Param>): Bytes {
    if params == [] then []
    else if |params| == 1 then RawPair(params[0])
    else RawPair(params[0]) + [AMPERSAND] + Raw(params[1..])
  }

  lemma HexRoundTrip(n: int)
    requires 0 <= n < 16
    ensures HexValue(HexDigit(n)) == Some(n)
  {
  }

  /** Decoding meets an escaped byte, gives it back, and goes on behind the escape. */
  lemma EscapedByteDecodes(b: Byte, rest: Bytes)
    ensures DecodePercent(EscapeByte(b) + rest) == [if b == SPACE then PLUS else b] + DecodePercent(rest)
  {
    var s := EscapeByte(b) + rest;
    HexRoundTrip(b / 16);
    HexRoundTrip(b % 16);
    if Unreserved(b) || b == SPACE {
      assert s[1..] == rest;
    } else {
      assert s[3..] == rest;
      assert b == b / 16 * 16 + b % 16;
    }
  }

  lemma Regroup(a: Bytes, b: Bytes, c: Bytes)
    ensures (a + b) + c == a + (b + c)
  {
  }

  lemma {:induction false} EscapedTextDecodes(s: Bytes, rest: Bytes)
    ensures DecodePercent(QueryEscape(s) + rest) == Plussed(s) + DecodePercent(rest)
  {
    if s == [] {
      assert QueryEscape(s) + rest == rest;
      assert Plussed(s) + DecodePercent(rest) == DecodePercent(rest);
    } else {
      var first, tail := if s[0] == SPACE then PLUS else s[0], QueryEscape(s[1..]);
      assert QueryEscape(s) == EscapeByte(s[0]) + tail;
      assert Plussed(s) == [first] + Plussed(s[1..]);
      hide DecodePercent, EscapeByte, QueryEscape, Plussed;
      EscapedTextDecodes(s[1..], rest);
      EscapedByteDecodes(s[0], tail + rest);
      Regroup(EscapeByte(s[0]), tail, rest);
      Regroup([first], Plussed(s[1..]), DecodePercent(rest));
    }
  }

  lemma PlainByteDecodes(b: Byte, rest: Bytes)
    requires b != PERCENT
    ensures DecodePercent([b] + rest) == [b] + DecodePercent(rest)
  {
    assert ([b] + rest)[1..] == rest;
  }

  lemma PairDecodes(p: Param, rest: Bytes)
    ensures DecodePercent(EncodePair(p) + rest) == RawPair(p) + DecodePercent(rest)
  {
    hide DecodePercent, QueryEscape, Plussed;
    var value := QueryEscape(p.value) + rest;
    Regroup(QueryEscape(p.key) + [EQUALS], QueryEscape(p.value), rest);
    Regroup(QueryEscape(p.key), [EQUALS], value);
    EscapedTextDecodes(p.key, [EQUALS] + value);
    PlainByteDecodes(EQUALS, value);
    EscapedTextDecodes(p.value, rest);
    Regroup(Plussed(p.key), [EQUALS], Plussed(p.value) + DecodePercent(rest));
    Regroup(Plussed(p.key) + [EQUALS], Plussed(p.value), DecodePercent(rest));
  }

  /**
    What is signed is the raw parameters, in order, with only their spaces replaced. In particular a value that
    itself looks like an escape comes through unchanged: no escape is decoded twice.
  */
  lemma {:induction false} CanonicalIsRaw(params: seq<Param>)
    ensures CanonicalForm(params) == Raw(params)
  {
    if |params| == 1 {
      PairDecodes(params[0], []);
      assert EncodePair(params[0]) + [] == EncodePair(params[0]) && RawPair(params[0]) + [] == RawPair(params[0]);
    } else if params != [] {
      var tail := Encode(params[1..]);
      assert Encode(params) == EncodePair(params[0]) + ([AMPERSAND] + tail);
      PairDecodes(params[0], [AMPERSAND] + tail);
      PlainByteDecodes(AMPERSAND, tail);
      CanonicalIsRaw(params[1..]);
      assert Raw(params) == RawPair(params[0]) + ([AMPERSAND] + Raw(params[1..]));
    }
  }

  // ---------- The wire form loses nothing ----------

  /** Where the escaped text of a value ends: at the next separator, which no escaped text contains. */
  lemma {:induction false} EscapedHasNoSeparator(s: Bytes, i: nat)
    requires i < |QueryEscape(s)|
    ensures QueryEscape(s)[i] != AMPERSAND && QueryEscape(s)[i] != EQUALS
  {
    var head := EscapeByte(s[0]);
    if i >= |head| {
      EscapedHasNoSeparator(s[1..], i - |head|);
    }
  }

  lemma EscapeIsPrefixFree(a: Byte, x: Bytes, b: Byte, y: Bytes)
    requires EscapeByte(a) + x == EscapeByte(b) + y
    ensures a == b && x == y
  {
    var s, t := EscapeByte(a) + x, EscapeByte(b) + y;
    assert s[0] == EscapeByte(a)[0] && t[0] == EscapeByte(b)[0];
    if |EscapeByte(a)| == 3 {
      HexRoundTrip(a / 16);
      HexRoundTrip(a % 16);
      HexRoundTrip(b / 16);
      HexRoundTrip(b % 16);
      assert s[1] == HexDigit(a / 16) && s[2] == HexDigit(a % 16);
      assert t[1] == HexDigit(b / 16) && t[2] == HexDigit(b % 16);
      assert a == a / 16 * 16 + a % 16 && b == b / 16 * 16 + b % 16;
    }
    assert s[|EscapeByte(a)|..] == x && t[|EscapeByte(b)|..] == y;
  }

  /** Different texts travel differently. */
  lemma {:induction false} EscapeIsInjective(s: Bytes, t: Bytes)
    requires QueryEscape(s) == QueryEscape(t)
    ensures s == t
  {
    if s != [] && t != [] {
      EscapeIsPrefixFree(s[0], QueryEscape(s[1..]), t[0], QueryEscape(t[1..]));
      EscapeIsInjective(s[1..], t[1..]);
    }
  }

  ghost predicate Lacks(s: Bytes, b: Byte) {
    forall i | 0 <= i < |s| :: s[i] != b
  }

  lemma EscapedLacksSeparators(s: Bytes)
    ensures Lacks(QueryEscape(s), AMPERSAND) && Lacks(QueryEscape(s), EQUALS)
  {
    forall i | 0 <= i < |QueryEscape(s)|
      ensures QueryEscape(s)[i] != AMPERSAND && QueryEscape(s)[i] != EQUALS
    {
      EscapedHasNoSeparator(s, i);
    }
  }

  lemma FirstMark(a: Bytes, x: Bytes, mark: Byte, i: nat)
    requires Lacks(a, mark) && i <= |a|
    ensures (a + [mark] + x)[i] == mark <==> i == |a|
  {
  }

  /** The first separator splits a text in one way only. */
  lemma SplitsOnce(a: Bytes, x: Bytes, b: Bytes, y: Bytes, mark: Byte)
    requires Lacks(a, mark) && Lacks(b, mark) && a + [mark] + x == b + [mark] + y
    ensures a == b && x == y
  {
    var s, t := a + [mark] + x, b + [mark] + y;
    if |a| <= |b| {
      FirstMark(a, x, mark, |a|);
      FirstMark(b, y, mark, |a|);
    } else {
      FirstMark(a, x, mark, |b|);
      FirstMark(b, y, mark, |b|);
    }
    assert s[..|a|] == a && t[..|b|] == b && s[|a| + 1..] == x && t[|b| + 1..] == y;
  }

  lemma PairIsInjective(p: Param, q: Param)
    requires EncodePair(p) == EncodePair(q)
    ensures p == q
  {
    EscapedLacksSeparators(p.key);
    EscapedLacksSeparators(q.key);
    hide QueryEscape;
    SplitsOnce(QueryEscape(p.key), QueryEscape(p.value), QueryEscape(q.key), QueryEscape(q.value), EQUALS);
    EscapeIsInjective(p.key, q.key);
    EscapeIsInjective(p.value, q.value);
  }

  lemma PairLacksAmpersand(p: Param)
    ensures Lacks(EncodePair(p), AMPERSAND)
  {
    EscapedLacksSeparators(p.key);
    EscapedLacksSeparators(p.value);
    hide QueryEscape;
  }

  lemma AmpersandsJoinPairs(params: seq<Param>)
    requires params != []
    ensures Lacks(Encode(params), AMPERSAND) <==> |params| == 1
    ensures Encode(params) != []
  {
    PairLacksAmpersand(params[0]);
    var x := EncodePair(params[0]);
    assert x != [];
    if 1 < |params| {
      assert (x + [AMPERSAND] + Encode(params[1..]))[|x|] == AMPERSAND;
    }
  }

  /** Two requests with the same wire form have the same parameters in the same order. */
  lemma {:induction false} WireFormIsInjective(params: seq<Param>, others: seq<Param>)
    requires Encode(params) == Encode(others)
    ensures params == others
    decreases |params|
  {
    if params != [] {
      AmpersandsJoinPairs(params);
    }
    if others != [] {
      AmpersandsJoinPairs(others);
    }
    if params != [] && others != [] {
      PairLacksAmpersand(params[0]);
      PairLacksAmpersand(others[0]);
      hide EncodePair, Lacks;
      if 1 < |params| {
        SplitsOnce(EncodePair(params[0]), Encode(params[1..]), EncodePair(others[0]), Encode(others[1..]), AMPERSAND);
        WireFormIsInjective(params[1..], others[1..]);
        PairIsInjective(params[0], others[0]);
        assert params == [params[0]] + params[1..] && others == [others[0]] + others[1..];
      } else {
        PairIsInjective(params[0], others[0]);
      }
    }
  }
}
