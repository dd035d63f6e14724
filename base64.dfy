/**
 * The "base64" encoding of section 4 of RFC 4648, and the browser's btoa/atob over
 * strings whose characters all lie in U+0000..U+00FF (btoa throws on any other character).
 */
module Base64 {
  import opened Wrappers

  type Byte = x: int | 0 <= x < 256
  type Sextet = x: int | 0 <= x < 64

  const Pad: char := '='

  /** Table 1 of RFC 4648: A-Z, a-z, 0-9, '+', '/'. */
  function Symbol(v: Sextet): (c: char)
    ensures c != Pad
  {
    if v < 26 then ('A' as int + v) as char
    else if v < 52 then ('a' as int + v - 26) as char
    else if v < 62 then ('0' as int + v - 52) as char
    else if v == 62 then '+'
    else '/'
  }

  /** The value a symbol of the alphabet stands for; None for any other character. */
  function SymbolValue(c: char): Option<Sextet>
  {
    if 'A' <= c <= 'Z' then Some(c as int - 'A' as int)
    else if 'a' <= c <= 'z' then Some(c as int - 'a' as int + 26)
    else if '0' <= c <= '9' then Some(c as int - '0' as int + 52)
    else if c == '+' then Some(62)
    else if c == '/' then Some(63)
    else None
  }

  lemma SymbolRoundTrip(v: Sextet)
    ensures SymbolValue(Symbol(v)) == Some(v)
  {
  }

  /** A final group of one byte: two symbols and two pad characters. */
  function QuadOf1(b0: Byte): (q: string)
    ensures |q| == 4
  {
    [Symbol(b0 / 4), Symbol(b0 % 4 * 16), Pad, Pad]
  }

  /** A final group of two bytes: three symbols and one pad character. */
  function QuadOf2(b0: Byte, b1: Byte): (q: string)
    ensures |q| == 4
  {
    [Symbol(b0 / 4), Symbol(b0 % 4 * 16 + b1 / 16), Symbol(b1 % 16 * 4), Pad]
  }

  /** A full 24-bit group: four symbols of six bits each. */
  function QuadOf3(b0: Byte, b1: Byte, b2: Byte): (q: string)
    ensures |q| == 4
  {
    [Symbol(b0 / 4), Symbol(b0 % 4 * 16 + b1 / 16), Symbol(b1 % 16 * 4 + b2 / 64), Symbol(b2 % 64)]
  }

  /** Encodes 24-bit groups as four symbols, padding a final group of one or two bytes with '='. */
  function Encode(b: seq<Byte>): (s: string)
    ensures |s| == (|b| + 2) / 3 * 4
  {
    if |b| == 0 then []
    else if |b| == 1 then QuadOf1(b[0])
    else if |b| == 2 then QuadOf2(b[0], b[1])
    else QuadOf3(b[0], b[1], b[2]) + Encode(b[3..])
  }

  /** Decodes one four-character group; padding is accepted only when `last` holds. */
  function DecodeQuad(q: string, last: bool): Option<seq<Byte>>
    requires |q| == 4
  {
    var v0, v1, v2, v3 := SymbolValue(q[0]), SymbolValue(q[1]), SymbolValue(q[2]), SymbolValue(q[3]);
    if v0.None? || v1.None? then None
    else if last && q[2] == Pad && q[3] == Pad then
      Some([v0.value * 4 + v1.value / 16])
    else if v2.None? then None
    else if last && q[3] == Pad then
      Some([v0.value * 4 + v1.value / 16, v1.value % 16 * 16 + v2.value / 4])
    else if v3.None? then None
    else
      Some([v0.value * 4 + v1.value / 16, v1.value % 16 * 16 + v2.value / 4, v2.value % 4 * 64 + v3.value])
  }

  function Decode(s: string): Option<seq<Byte>>
  {
    if |s| == 0 then Some([])
    else if |s| < 4 then None
    else
      match DecodeQuad(s[..4], |s| == 4)
      case None => None
      case Some(head) =>
        match Decode(s[4..])
        case None => None
        case Some(tail) => Some(head + tail)
  }

  lemma DecodeTwoSymbols(b0: Byte, b1: Byte)
    ensures (b0 / 4) * 4 + (b0 % 4 * 16 + b1 / 16) / 16 == b0
    ensures (b0 % 4 * 16 + b1 / 16) % 16 * 16 + (b1 % 16 * 4) / 4 == b1
  {
  }

  lemma DecodeThreeSymbols(b1: Byte, b2: Byte)
    ensures (b1 % 16 * 4 + b2 / 64) / 4 == b1 % 16
    ensures (b1 % 16 * 4 + b2 / 64) % 4 * 64 + b2 % 64 == b2
  {
  }

  lemma DecodeFinalOne(b0: Byte)
    ensures DecodeQuad(QuadOf1(b0), true) == Some([b0])
  {
    SymbolRoundTrip(b0 / 4);
    SymbolRoundTrip(b0 % 4 * 16);
  }

  lemma DecodeFinalTwo(b0: Byte, b1: Byte)
    ensures DecodeQuad(QuadOf2(b0, b1), true) == Some([b0, b1])
  {
    SymbolRoundTrip(b0 / 4);
    SymbolRoundTrip(b0 % 4 * 16 + b1 / 16);
    SymbolRoundTrip(b1 % 16 * 4);
    DecodeTwoSymbols(b0, b1);
  }

  lemma DecodeFull(b0: Byte, b1: Byte, b2: Byte, last: bool)
    ensures DecodeQuad(QuadOf3(b0, b1, b2), last) == Some([b0, b1, b2])
  {
    SymbolRoundTrip(b0 / 4);
    SymbolRoundTrip(b0 % 4 * 16 + b1 / 16);
    SymbolRoundTrip(b1 % 16 * 4 + b2 / 64);
    SymbolRoundTrip(b2 % 64);
    DecodeTwoSymbols(b0, b1);
    DecodeThreeSymbols(b1, b2);
  }

  /** Decoding a leading full group and then the rest. */
  lemma DecodeStep(head: string, rest: string, bytes: seq<Byte>)
    requires |head| == 4
    requires DecodeQuad(head, |rest| == 0) == Some(bytes)
    ensures Decode(head + rest) == match Decode(rest)
                                   case None => None
                                   case Some(tail) => Some(bytes + tail)
  {
    var s := head + rest;
    assert s[..4] == head && s[4..] == rest;
  }

  /** Decoding undoes encoding. */
  lemma {:induction false} DecodeEncode(b: seq<Byte>)
    ensures Decode(Encode(b)) == Some(b)
  {
    if |b| == 1 {
      DecodeFinalOne(b[0]);
      DecodeStep(QuadOf1(b[0]), [], [b[0]]);
      assert QuadOf1(b[0]) + [] == Encode(b);
      assert [b[0]] + [] == b;
    } else if |b| == 2 {
      DecodeFinalTwo(b[0], b[1]);
      DecodeStep(QuadOf2(b[0], b[1]), [], [b[0], b[1]]);
      assert QuadOf2(b[0], b[1]) + [] == Encode(b);
      assert [b[0], b[1]] + [] == b;
    } else if |b| >= 3 {
      var rest := Encode(b[3..]);
      DecodeFull(b[0], b[1], b[2], |rest| == 0);
      DecodeEncode(b[3..]);
      DecodeStep(QuadOf3(b[0], b[1], b[2]), rest, [b[0], b[1], b[2]]);
      assert b == [b[0], b[1], b[2]] + b[3..];
    }
  }

  /** Every character is in U+0000..U+00FF, the range btoa accepts. */
  predicate IsLatin1(s: string)
  {
    forall i :: 0 <= i < |s| ==> s[i] as int < 256
  }

  function Bytes(s: string): (b: seq<Byte>)
    requires IsLatin1(s)
    ensures |b| == |s|
  {
    seq(|s|, i requires 0 <= i < |s| => s[i] as int)
  }

  function Chars(b: seq<Byte>): (s: string)
    ensures |s| == |b| && IsLatin1(s)
  {
    seq(|b|, i requires 0 <= i < |b| => b[i] as char)
  }

  /** btoa: None stands for the InvalidCharacterError it throws on a character above U+00FF. */
  function Btoa(s: string): (r: Option<string>)
    ensures r.Some? <==> IsLatin1(s)
  {
    if IsLatin1(s) then Some(Encode(Bytes(s))) else None
  }

  /** atob on well-formed input. */
  function Atob(t: string): Option<string>
  {
    match Decode(t)
    case None => None
    case Some(b) => Some(Chars(b))
  }

  lemma BtoaRoundTrip(s: string)
    requires IsLatin1(s)
    ensures Btoa(s).Some? && Atob(Btoa(s).value) == Some(s)
  {
    DecodeEncode(Bytes(s));
    assert Chars(Bytes(s)) == s;
  }
}
