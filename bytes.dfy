/**
 * Fixed-width unsigned integers and their network byte order (big-endian)
 * encoding, as the htons/htonl/htonll and ntohs/ntohl/ntohll conversions lay
 * them out on the wire, and the two's complement reading of signed widths.
 */
module Bytes {

  type Byte = x: int | 0 <= x < 0x100
  type U16 = x: int | 0 <= x < 0x1_0000
  type U32 = x: int | 0 <= x < 0x1_0000_0000
  type U64 = x: int | 0 <= x < 0x1_0000_0000_0000_0000
  type I8 = x: int | -0x80 <= x < 0x80
  type I16 = x: int | -0x8000 <= x < 0x8000
  type I32 = x: int | -0x8000_0000 <= x < 0x8000_0000
  type I64 = x: int | -0x8000_0000_0000_0000 <= x < 0x8000_0000_0000_0000

  /** 256 to the power n: the number of distinct values n bytes can hold. */
  function Pow256(n: nat): (r: nat)
    ensures r >= 1
  {
    if n == 0 then 1 else 256 * Pow256(n - 1)
  }

  lemma Pow256Widths()
    ensures Pow256(1) == 0x100 && Pow256(2) == 0x1_0000
    ensures Pow256(4) == 0x1_0000_0000 && Pow256(8) == 0x1_0000_0000_0000_0000
  {
  }

  lemma DivBelow(v: nat, p: nat)
    requires v < 256 * p
    ensures v / 256 < p
  {
  }

  /** The n bytes of v, most significant byte first. */
  function EncodeBE(v: nat, n: nat): (r: seq<Byte>)
    requires v < Pow256(n)
    ensures |r| == n
  {
    if n == 0 then []
    else
      DivBelow(v, Pow256(n - 1));
      EncodeBE(v / 256, n - 1) + [v % 256]
  }

  /** The number whose big-endian bytes are s. */
  function DecodeBE(s: seq<Byte>): (v: nat)
    ensures v < Pow256(|s|)
  {
    if s == [] then 0
    else
      var init := s[..|s| - 1];
      var high := DecodeBE(init);
      assert high * 256 <= (Pow256(|init|) - 1) * 256;
      high * 256 + s[|s| - 1]
  }

  /** Decoding the encoding gives the number back. */
  lemma {:induction false} DecodeEncode(v: nat, n: nat)
    requires v < Pow256(n)
    ensures DecodeBE(EncodeBE(v, n)) == v
  {
    if n > 0 {
      var s := EncodeBE(v, n);
      DivBelow(v, Pow256(n - 1));
      assert s[..n - 1] == EncodeBE(v / 256, n - 1);
      DecodeEncode(v / 256, n - 1);
    }
  }

  /** Encoding the decoded number at the same width gives the bytes back. */
  lemma {:induction false} EncodeDecode(s: seq<Byte>)
    ensures EncodeBE(DecodeBE(s), |s|) == s
  {
    if s != [] {
      var init := s[..|s| - 1];
      var v := DecodeBE(s);
      assert v == DecodeBE(init) * 256 + s[|s| - 1];
      assert v / 256 == DecodeBE(init) && v % 256 == s[|s| - 1];
      EncodeDecode(init);
      assert s == init + [s[|s| - 1]];
    }
  }

  lemma Regroup(a: int, p: int, d: int, l: int)
    ensures (a * p + d) * 256 + l == a * (256 * p) + (d * 256 + l)
  {
  }

  /** The first byte is the most significant: it weighs 256 to the power of the remaining length. */
  lemma {:induction false} DecodeBEFront(s: seq<Byte>)
    requires s != []
    ensures DecodeBE(s) == s[0] * Pow256(|s| - 1) + DecodeBE(s[1..])
  {
    if |s| > 1 {
      var init, tail := s[..|s| - 1], s[1..];
      DecodeBEFront(init);
      assert tail[..|tail| - 1] == init[1..];
      assert DecodeBE(tail) == DecodeBE(init[1..]) * 256 + s[|s| - 1];
      assert DecodeBE(s) == (s[0] * Pow256(|s| - 2) + DecodeBE(init[1..])) * 256 + s[|s| - 1];
      Regroup(s[0], Pow256(|s| - 2), DecodeBE(init[1..]), s[|s| - 1]);
    }
  }

  /** Two's complement reading of the n-byte pattern u, as a cast to a signed type of that width does. */
  function ToSigned(u: nat, n: nat): (x: int)
    requires 0 < n && u < Pow256(n)
    ensures -(Pow256(n) / 2) <= x < Pow256(n) / 2
    ensures (x < 0) == (u >= Pow256(n) / 2)
  {
    var half := 128 * Pow256(n - 1);
    assert Pow256(n) == 2 * half;
    if u < half then u else u - Pow256(n)
  }

  /** The n-byte two's complement pattern of x, as a cast to an unsigned type of that width does. */
  function FromSigned(x: int, n: nat): (u: nat)
    requires 0 < n && -(Pow256(n) / 2) <= x < Pow256(n) / 2
    ensures u < Pow256(n)
    ensures ToSigned(u, n) == x
  {
    if x < 0 then x + Pow256(n) else x
  }

  /** Reading a pattern as signed and writing it back gives the same pattern. */
  lemma SignedPatternRoundTrip(u: nat, n: nat)
    requires 0 < n && u < Pow256(n)
    ensures FromSigned(ToSigned(u, n), n) == u
  {
  }
}
