/** Bytes and the textual form of a UUID.

    Job identities and cache keys are UUIDs. Python's `str(uuid)` writes the
    128-bit value as 32 lower-case hexadecimal digits in the groups 8-4-4-4-12.
    The job's `pk` in an outgoing envelope and the cache key are this text. */
module Uuids {

  type byte = x: int | 0 <= x < 256

  /** A UUID as its 16 big-endian bytes. */
  type Uuid = s: seq<byte> | |s| == 16 witness seq(16, _ => 0)

  const HexDigits: string := "0123456789abcdef"

  function HexDigit(v: int): (c: char)
    requires 0 <= v < 16
    ensures c in HexDigits && c != '/' && c != '-'
  {
    HexDigits[v]
  }

  /** The two lower-case hex digits of one byte, high nibble first. */
  function HexByte(b: byte): (s: string)
    ensures |s| == 2
  {
    [HexDigit(b / 16), HexDigit(b % 16)]
  }

  /** The bytes as hex digits, two per byte (Python's `'%032x' % int` for 16 bytes). */
  function Hex(bs: seq<byte>): (s: string)
    ensures |s| == 2 * |bs|
    ensures forall i :: 0 <= i < |s| ==> s[i] in HexDigits
  {
    if bs == [] then "" else HexByte(bs[0]) + Hex(bs[1..])
  }

  /** `str(u)`: the 8-4-4-4-12 grouping of the 32 hex digits. */
  function UuidText(u: Uuid): (t: string)
  {
    var h := Hex(u);
    h[..8] + "-" + h[8..12] + "-" + h[12..16] + "-" + h[16..20] + "-" + h[20..]
  }

  predicate IsDash(i: int) { i == 8 || i == 13 || i == 18 || i == 23 }

  /** The text is 36 characters: hex digits, with dashes at 8, 13, 18 and 23. */
  lemma UuidTextShape(u: Uuid)
    ensures |UuidText(u)| == 36
    ensures forall i :: 0 <= i < 36 && IsDash(i) ==> UuidText(u)[i] == '-'
    ensures forall i :: 0 <= i < 36 && !IsDash(i) ==> UuidText(u)[i] in HexDigits
    ensures forall i :: 0 <= i < 36 ==> UuidText(u)[i] != '/'
    ensures UuidText(u)[..8] == Hex(u[..4])
  {
    var h := Hex(u);
    HexPrefix(u, 4);
    assert h[..8] == Hex(u[..4]);
  }

  lemma {:induction false} HexPrefix(bs: seq<byte>, n: nat)
    requires n <= |bs|
    ensures Hex(bs)[..2 * n] == Hex(bs[..n])
  {
    if n > 0 {
      var t := bs[1..];
      HexPrefix(t, n - 1);
      var p := bs[..n];
      assert p[0] == bs[0] && p[1..] == t[..n - 1];
      assert Hex(p) == HexByte(bs[0]) + Hex(t[..n - 1]);
      assert Hex(bs) == HexByte(bs[0]) + Hex(t);
      assert (HexByte(bs[0]) + Hex(t))[..2 * n] == HexByte(bs[0]) + Hex(t)[..2 * (n - 1)];
    }
  }

  lemma HexDigitInjective(v: int, w: int)
    requires 0 <= v < 16 && 0 <= w < 16
    requires HexDigit(v) == HexDigit(w)
    ensures v == w
  {
  }

  lemma HexByteInjective(a: byte, b: byte)
    requires HexByte(a) == HexByte(b)
    ensures a == b
  {
    assert HexDigit(a / 16) == HexByte(a)[0] == HexByte(b)[0] == HexDigit(b / 16);
    assert HexDigit(a % 16) == HexByte(a)[1] == HexByte(b)[1] == HexDigit(b % 16);
    HexDigitInjective(a / 16, b / 16);
    HexDigitInjective(a % 16, b % 16);
  }

  /** Distinct byte strings of one length have distinct hex text. */
  lemma {:induction false} HexInjective(xs: seq<byte>, ys: seq<byte>)
    requires |xs| == |ys|
    requires Hex(xs) == Hex(ys)
    ensures xs == ys
  {
    if xs != [] {
      assert Hex(xs)[..2] == HexByte(xs[0]);
      assert Hex(ys)[..2] == HexByte(ys[0]);
      HexByteInjective(xs[0], ys[0]);
      assert Hex(xs)[2..] == Hex(xs[1..]);
      assert Hex(ys)[2..] == Hex(ys[1..]);
      HexInjective(xs[1..], ys[1..]);
      assert xs == [xs[0]] + xs[1..];
      assert ys == [ys[0]] + ys[1..];
    }
  }

  /** Removing the four dashes gives back the 32 hex digits. */
  lemma UuidTextDigits(u: Uuid)
    ensures var t := UuidText(u);
      |t| == 36 && t[..8] + t[9..13] + t[14..18] + t[19..23] + t[24..] == Hex(u)
  {
    var h := Hex(u);
    var t := UuidText(u);
    assert t[..8] == h[..8];
    assert t[9..13] == h[8..12];
    assert t[14..18] == h[12..16];
    assert t[19..23] == h[16..20];
    assert t[24..] == h[20..];
    assert h == h[..8] + h[8..12] + h[12..16] + h[16..20] + h[20..];
  }

  /** Two UUIDs print alike only when they are the same UUID. */
  lemma UuidTextInjective(u: Uuid, v: Uuid)
    requires UuidText(u) == UuidText(v)
    ensures u == v
  {
    UuidTextDigits(u);
    UuidTextDigits(v);
    HexInjective(u, v);
  }
}
