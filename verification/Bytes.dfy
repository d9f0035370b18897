/** Bytes, byte order and the two's-complement reading of fixed-width integers. */
module Bytes {

  type byte = x: int | 0 <= x < 256

  function Pow256(n: nat): (r: nat)
    ensures r >= 1
  {
    if n == 0 then 1 else 256 * Pow256(n - 1)
  }

  /** Least significant byte first, as `binary.LittleEndian` writes. */
  function ToLE(width: nat, v: nat): (bs: seq<byte>)
    ensures |bs| == width
  {
    if width == 0 then [] else [v % 256] + ToLE(width - 1, v / 256)
  }

  function FromLE(bs: seq<byte>): (v: nat)
    ensures v < Pow256(|bs|)
  {
    if bs == [] then 0 else bs[0] + 256 * FromLE(bs[1..])
  }

  /** Most significant byte first, as `binary.BigEndian` writes. */
  function ToBE(width: nat, v: nat): (bs: seq<byte>)
    ensures |bs| == width
  {
    if width == 0 then [] else ToBE(width - 1, v / 256) + [v % 256]
  }

  function FromBE(bs: seq<byte>): (v: nat)
    ensures v < Pow256(|bs|)
  {
    if bs == [] then 0 else 256 * FromBE(bs[..|bs| - 1]) + bs[|bs| - 1]
  }

  function Reverse(bs: seq<byte>): (r: seq<byte>)
    ensures |r| == |bs|
    ensures forall i :: 0 <= i < |bs| ==> r[i] == bs[|bs| - 1 - i]
  {
    seq(|bs|, i requires 0 <= i < |bs| => bs[|bs| - 1 - i])
  }

  lemma {:induction false} LittleEndianRoundTrip(width: nat, v: nat)
    requires v < Pow256(width)
    ensures FromLE(ToLE(width, v)) == v
  {
    if width > 0 {
      LittleEndianRoundTrip(width - 1, v / 256);
      assert ToLE(width, v)[1..] == ToLE(width - 1, v / 256);
    }
  }

  lemma {:induction false} LittleEndianUnique(bs: seq<byte>)
    ensures ToLE(|bs|, FromLE(bs)) == bs
  {
    if bs != [] {
      LittleEndianUnique(bs[1..]);
      assert FromLE(bs) % 256 == bs[0] && FromLE(bs) / 256 == FromLE(bs[1..]);
    }
  }

  /** The two byte orders are mirror images of each other. */
  lemma {:induction false} BigEndianIsReversed(width: nat, v: nat)
    ensures ToBE(width, v) == Reverse(ToLE(width, v))
  {
    if width > 0 {
      BigEndianIsReversed(width - 1, v / 256);
    }
  }

  lemma {:induction false} FromBigEndianIsReversed(bs: seq<byte>)
    ensures FromBE(bs) == FromLE(Reverse(bs))
  {
    if bs != [] {
      FromBigEndianIsReversed(bs[..|bs| - 1]);
      assert Reverse(bs)[1..] == Reverse(bs[..|bs| - 1]);
    }
  }

  lemma BigEndianRoundTrip(width: nat, v: nat)
    requires v < Pow256(width)
    ensures FromBE(ToBE(width, v)) == v
  {
    BigEndianIsReversed(width, v);
    FromBigEndianIsReversed(ToBE(width, v));
    assert Reverse(Reverse(ToLE(width, v))) == ToLE(width, v);
    LittleEndianRoundTrip(width, v);
  }

  predicate FitsSigned(width: nat, x: int) {
    -(Pow256(width) as int) <= 2 * x < Pow256(width)
  }

  /** The bit pattern that stores the signed value `x` in `width` bytes. */
  function Unsigned(width: nat, x: int): (u: nat)
    requires FitsSigned(width, x)
    ensures u < Pow256(width)
    ensures Signed(width, u) == x
  {
    if x < 0 then x + Pow256(width) else x
  }

  /** The signed value that a `width`-byte pattern stores. */
  function Signed(width: nat, u: nat): int
  {
    if 2 * u < Pow256(width) then u else u - Pow256(width)
  }

  type int16 = x: int | -0x8000 <= x < 0x8000
  type int32 = x: int | -0x8000_0000 <= x < 0x8000_0000
  type int64 = x: int | -0x8000_0000_0000_0000 <= x < 0x8000_0000_0000_0000

  /** Go's conversions to a narrower signed type keep the low bits. */
  function Wrap16(x: int): (r: int16)
    ensures -0x8000 <= x < 0x8000 ==> r == x
    ensures (r - x) % 0x1_0000 == 0
  {
    (x + 0x8000) % 0x1_0000 - 0x8000
  }

  function Wrap32(x: int): (r: int32)
    ensures -0x8000_0000 <= x < 0x8000_0000 ==> r == x
    ensures (r - x) % 0x1_0000_0000 == 0
  {
    (x + 0x8000_0000) % 0x1_0000_0000 - 0x8000_0000
  }

  lemma Widths()
    ensures Pow256(1) == 0x100 && Pow256(2) == 0x1_0000 && Pow256(4) == 0x1_0000_0000
    ensures Pow256(8) == 0x1_0000_0000_0000_0000
  {
    assert Pow256(3) == 0x100_0000;
    assert Pow256(5) == 0x100_0000_0000 && Pow256(6) == 0x1_0000_0000_0000 && Pow256(7) == 0x100_0000_0000_0000;
  }
}
