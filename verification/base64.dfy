/** The base64 encoding of section 4 of RFC 4648 (`base64.b64encode`).

    Workers send the artifact bytes to the server as the `image` field of an
    `update` envelope in this encoding. Decode is the inverse that the round
    trip is stated against: it accepts exactly the padded canonical form.

    Both directions go through codes: a six-bit value 0..63 for an alphabet
    symbol, `Pad` for `=`, and `Bad` for any other character. */
module Base64 {
  import opened Uuids

  datatype Decoded = Bytes(bytes: seq<byte>) | Invalid

  /** The code of the padding character `=`. */
  const Pad: int := -1
  /** The code of a character outside the alphabet. */
  const Bad: int := -2

  /** The alphabet of Table 1 of RFC 4648. */
  function Symbol(v: int): (c: char)
    requires 0 <= v < 64
    ensures IsSymbol(c)
  {
    if v < 26 then ('A' as int + v) as char
    else if v < 52 then ('a' as int + (v - 26)) as char
    else if v < 62 then ('0' as int + (v - 52)) as char
    else if v == 62 then '+'
    else '/'
  }

  predicate IsSymbol(c: char) {
    ('A' <= c <= 'Z') || ('a' <= c <= 'z') || ('0' <= c <= '9') || c == '+' || c == '/'
  }

  function SymbolValue(c: char): (v: int)
    requires IsSymbol(c)
    ensures 0 <= v < 64 && Symbol(v) == c
  {
    if 'A' <= c <= 'Z' then c as int - 'A' as int
    else if 'a' <= c <= 'z' then c as int - 'a' as int + 26
    else if '0' <= c <= '9' then c as int - '0' as int + 52
    else if c == '+' then 62
    else 63
  }

  lemma SymbolValueOfSymbol(v: int)
    requires 0 <= v < 64
    ensures SymbolValue(Symbol(v)) == v
  {
  }

  /** A code that stands for a character of the encoded text. */
  predicate IsCode(v: int) {
    v == Pad || 0 <= v < 64
  }

  /** The character a code stands for. */
  function CodeChar(v: int): (c: char)
    requires IsCode(v)
    ensures v == Pad <==> c == '='
    ensures v != Pad ==> IsSymbol(c)
  {
    if v == Pad then '=' else Symbol(v)
  }

  /** The code of a character. */
  function CharCode(c: char): (v: int)
    ensures 0 <= v < 64 <==> IsSymbol(c)
    ensures v == Pad <==> c == '='
  {
    if IsSymbol(c) then SymbolValue(c) else if c == '=' then Pad else Bad
  }

  lemma CharCodeOfCodeChar(v: int)
    requires IsCode(v)
    ensures CharCode(CodeChar(v)) == v
  {
    if v != Pad {
      SymbolValueOfSymbol(v);
    }
  }

  /** The four six-bit groups of the three bytes x, y, z (big-endian). */
  function Sextet0(x: byte): (v: int) ensures 0 <= v < 64 { x / 4 }
  function Sextet1(x: byte, y: byte): (v: int) ensures 0 <= v < 64 { (x % 4) * 16 + y / 16 }
  function Sextet2(y: byte, z: byte): (v: int) ensures 0 <= v < 64 { (y % 16) * 4 + z / 64 }
  function Sextet3(z: byte): (v: int) ensures 0 <= v < 64 { z % 64 }

  /** The three bytes rebuilt from four six-bit groups a, b, c, d. */
  function Octet0(a: int, b: int): byte requires 0 <= a < 64 && 0 <= b < 64 { a * 4 + b / 16 }
  function Octet1(b: int, c: int): byte requires 0 <= b < 64 && 0 <= c < 64 { (b % 16) * 16 + c / 4 }
  function Octet2(c: int, d: int): byte requires 0 <= c < 64 && 0 <= d < 64 { (c % 4) * 64 + d }

  /** Each group of three bytes becomes four codes; a final group of one or
      two bytes is padded to four (a missing byte counts as 0). */
  function EncodeCodes(bs: seq<byte>): (r: seq<int>)
    ensures |r| % 4 == 0 && (|r| == 0 <==> |bs| == 0)
    ensures forall i :: 0 <= i < |r| ==> IsCode(r[i])
  {
    if |bs| == 0 then []
    else if |bs| == 1 then [Sextet0(bs[0]), Sextet1(bs[0], 0), Pad, Pad]
    else if |bs| == 2 then [Sextet0(bs[0]), Sextet1(bs[0], bs[1]), Sextet2(bs[1], 0), Pad]
    else [Sextet0(bs[0]), Sextet1(bs[0], bs[1]), Sextet2(bs[1], bs[2]), Sextet3(bs[2])] + EncodeCodes(bs[3..])
  }

  /** `base64.b64encode(bs)`, as text. */
  function Encode(bs: seq<byte>): (s: string)
    ensures |s| == |EncodeCodes(bs)|
  {
    var cs := EncodeCodes(bs);
    seq(|cs|, i requires 0 <= i < |cs| => CodeChar(cs[i]))
  }

  /** Strict decoding of codes: groups of four alphabet codes, except one or
      two `Pad` at the very end. */
  function DecodeCodes(cs: seq<int>): (r: Decoded)
    ensures r.Bytes? ==> |cs| % 4 == 0
  {
    if |cs| == 0 then Bytes([])
    else if |cs| < 4 then Invalid
    else if !(0 <= cs[0] < 64 && 0 <= cs[1] < 64) then Invalid
    else if |cs| == 4 && cs[2] == Pad && cs[3] == Pad then
      Bytes([Octet0(cs[0], cs[1])])
    else if !(0 <= cs[2] < 64) then Invalid
    else if |cs| == 4 && cs[3] == Pad then
      Bytes([Octet0(cs[0], cs[1]), Octet1(cs[1], cs[2])])
    else if !(0 <= cs[3] < 64) then Invalid
    else
      match DecodeCodes(cs[4..])
      case Invalid => Invalid
      case Bytes(rest) => Bytes([Octet0(cs[0], cs[1]), Octet1(cs[1], cs[2]), Octet2(cs[2], cs[3])] + rest)
  }

  /** The codes of the characters of a text. */
  function Codes(s: string): (cs: seq<int>)
    ensures |cs| == |s|
  {
    seq(|s|, i requires 0 <= i < |s| => CharCode(s[i]))
  }

  /** Strict decoding of padded base64 text. */
  function Decode(s: string): (r: Decoded)
    ensures r.Bytes? ==> |s| % 4 == 0
  {
    DecodeCodes(Codes(s))
  }

  /** Every started group of three bytes takes four characters. */
  lemma {:induction false} EncodeLength(bs: seq<byte>)
    ensures |Encode(bs)| == 4 * ((|bs| + 2) / 3)
  {
    if |bs| > 2 {
      EncodeLength(bs[3..]);
      assert (|bs| + 2) / 3 == (|bs[3..]| + 2) / 3 + 1;
    }
  }

  /** Alphabet symbols throughout, except `=` padding in the last two places. */
  predicate Padded(s: string) {
    forall i :: 0 <= i < |s| ==> IsSymbol(s[i]) || (s[i] == '=' && i >= |s| - 2)
  }

  /** Padding codes only in the last two places. */
  predicate PadOnlyAtEnd(r: seq<int>) {
    forall i :: 0 <= i < |r| && r[i] == Pad ==> i >= |r| - 2
  }

  lemma {:induction false} PadAtEnd(bs: seq<byte>)
    ensures PadOnlyAtEnd(EncodeCodes(bs))
  {
    if |bs| > 2 {
      var r, t := EncodeCodes(bs), EncodeCodes(bs[3..]);
      PadAtEnd(bs[3..]);
      assert r[4..] == t;
      forall i | 0 <= i < |r| && r[i] == Pad
        ensures i >= |r| - 2
      {
        if i >= 4 {
          assert r[i] == t[i - 4];
        }
      }
    }
  }

  lemma EncodePadded(bs: seq<byte>)
    ensures Padded(Encode(bs))
  {
    PadAtEnd(bs);
    var s, r := Encode(bs), EncodeCodes(bs);
    forall i | 0 <= i < |s|
      ensures IsSymbol(s[i]) || (s[i] == '=' && i >= |s| - 2)
    {
      assert IsCode(r[i]) && s[i] == CodeChar(r[i]);
      if r[i] == Pad {
        assert i >= |r| - 2;
      }
    }
  }

  /** The six-bit groups of three bytes put back together give the bytes. */
  lemma Regroup(x: byte, y: byte, z: byte)
    ensures Octet0(Sextet0(x), Sextet1(x, y)) == x
    ensures Octet1(Sextet1(x, y), Sextet2(y, z)) == y
    ensures Octet2(Sextet2(y, z), Sextet3(z)) == z
  {
  }

  lemma DecodeOneByte(x: byte)
    ensures DecodeCodes(EncodeCodes([x])) == Bytes([x])
  {
    var a, b := Sextet0(x), Sextet1(x, 0);
    assert EncodeCodes([x]) == [a, b, Pad, Pad];
    assert DecodeCodes([a, b, Pad, Pad]) == Bytes([Octet0(a, b)]);
    Regroup(x, 0, 0);
  }

  lemma DecodeTwoBytes(x: byte, y: byte)
    ensures DecodeCodes(EncodeCodes([x, y])) == Bytes([x, y])
  {
    Regroup(x, y, 0);
  }

  lemma DecodeGroup(x: byte, y: byte, z: byte, rest: seq<byte>)
    requires DecodeCodes(EncodeCodes(rest)) == Bytes(rest)
    ensures DecodeCodes(EncodeCodes([x, y, z] + rest)) == Bytes([x, y, z] + rest)
  {
    var bs := [x, y, z] + rest;
    assert bs[3..] == rest;
    var cs := EncodeCodes(bs);
    assert cs[4..] == EncodeCodes(rest);
    Regroup(x, y, z);
  }

  /** Decoding the codes of an encoding gives back the bytes. */
  lemma {:induction false} DecodeEncodeCodes(bs: seq<byte>)
    ensures DecodeCodes(EncodeCodes(bs)) == Bytes(bs)
  {
    if |bs| == 1 {
      assert bs == [bs[0]];
      DecodeOneByte(bs[0]);
    } else if |bs| == 2 {
      assert bs == [bs[0], bs[1]];
      DecodeTwoBytes(bs[0], bs[1]);
    } else if |bs| > 2 {
      DecodeEncodeCodes(bs[3..]);
      assert bs == [bs[0], bs[1], bs[2]] + bs[3..];
      DecodeGroup(bs[0], bs[1], bs[2], bs[3..]);
    }
  }

  /** Reading the codes back off the encoded text gives the codes. */
  lemma CodesOfEncode(bs: seq<byte>)
    ensures Codes(Encode(bs)) == EncodeCodes(bs)
  {
    var s, cs := Encode(bs), EncodeCodes(bs);
    forall i | 0 <= i < |s|
      ensures Codes(s)[i] == cs[i]
    {
      CharCodeOfCodeChar(cs[i]);
    }
  }

  /** Decoding the encoding gives back the bytes. */
  lemma DecodeEncode(bs: seq<byte>)
    ensures Decode(Encode(bs)) == Bytes(bs)
  {
    CodesOfEncode(bs);
    DecodeEncodeCodes(bs);
  }

  /** Encoding is injective: distinct artifacts never share an `image` field. */
  lemma EncodeInjective(xs: seq<byte>, ys: seq<byte>)
    requires Encode(xs) == Encode(ys)
    ensures xs == ys
  {
    DecodeEncode(xs);
    DecodeEncode(ys);
  }
}
