/** The non-negative integer conversions of `Buffer`. Buffer.swift is not
    part of this model; this module gives the NDN packet format's
    NonNegativeInteger encoding (1, 2, 4 or 8 octets, big-endian) as a
    stand-in, and decodes any byte string big-endian, keeping the low 64
    bits. The rest of the model uses only the round trip proved here. */
module Buffer {
  import opened Tlv

  const TwoTo64: nat := 0x1_0000_0000_0000_0000

  /** Swift's `UInt64`. */
  type UInt64 = x: nat | x < TwoTo64

  function Pow256(n: nat): (r: nat)
    ensures r > 0
  {
    if n == 0 then 1 else 256 * Pow256(n - 1)
  }

  /** The low `n` bytes of `v`, most significant first. */
  function BigEndian(v: nat, n: nat): (r: seq<UInt8>)
    ensures |r| == n
  {
    if n == 0 then [] else BigEndian(v / 256, n - 1) + [v % 256]
  }

  /** `Buffer.nonNegativeIntegerToByteArray`: the shortest of 1, 2, 4 or 8
      bytes that holds `v`. */
  function NonNegativeIntegerToByteArray(v: UInt64): (r: seq<UInt8>)
    ensures |r| == 1 || |r| == 2 || |r| == 4 || |r| == 8
    ensures ByteArrayToNonNegativeInteger(r) == v
  {
    var n := if v < 0x100 then 1 else if v < 0x1_0000 then 2
             else if v < 0x1_0000_0000 then 4 else 8;
    assert Pow256(1) == 0x100 && Pow256(2) == 0x1_0000;
    assert Pow256(4) == 0x1_0000_0000 && Pow256(8) == TwoTo64;
    BigEndianRoundTrip(v, n);
    BigEndian(v, n)
  }

  /** `Buffer.byteArrayToNonNegativeInteger`: big-endian value of `s`,
      truncated to 64 bits. */
  function ByteArrayToNonNegativeInteger(s: seq<UInt8>): UInt64
  {
    if s == [] then 0
    else (ByteArrayToNonNegativeInteger(s[..|s| - 1]) * 256 + s[|s| - 1]) % TwoTo64
  }

  /** Any value that fits in `n` bytes, with `n` at most 8, survives the
      big-endian encoding. */
  lemma {:induction false} BigEndianRoundTrip(v: nat, n: nat)
    requires v < Pow256(n) <= TwoTo64
    ensures ByteArrayToNonNegativeInteger(BigEndian(v, n)) == v
  {
    if n > 0 {
      var s := BigEndian(v, n);
      var q, m := v / 256, v % 256;
      DivideBy256(v, Pow256(n - 1));
      assert s[..|s| - 1] == BigEndian(q, n - 1);
      BigEndianRoundTrip(q, n - 1);
      assert ByteArrayToNonNegativeInteger(s) == (q * 256 + m) % TwoTo64;
    }
  }

  lemma DivideBy256(v: nat, p: nat)
    requires v < 256 * p <= TwoTo64
    ensures v / 256 < p <= TwoTo64 && v == v / 256 * 256 + v % 256
  {
  }
}
