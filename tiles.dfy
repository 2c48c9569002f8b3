/**
 * Tile rows: a row of eight pixels is stored as two bytes, the low and the
 * high bit plane; pixel k from the left takes bit 7 - k of each.
 */
module Tiles {
  import opened Bits

  /** `(x & (1 << k)) >> k` is bit k of x. */
  lemma MaskShift(x: byte, k: nat)
    requires k < 8
    ensures Pow2(k) < 0x100
    ensures And8(x, Pow2(k)) / Pow2(k) == Bit(x, k)
  {
    Pow2Byte();
    Pow2Increasing(k, 8);
    var c := And8(x, Pow2(k));
    if Bit(x, k) == 1 {
      forall j | 0 <= j < 8
        ensures Bit(c, j) == Bit(Pow2(k), j)
      {
        BitOfPow2(k, j);
      }
      BitsDetermine(c, Pow2(k), 8);
    } else {
      forall j | 0 <= j < 8
        ensures Bit(c, j) == Bit(0, j)
      {
        BitOfPow2(k, j);
        BitOfZero(j);
      }
      BitsDetermine(c, 0, 8);
    }
  }

  /** With one bit on each side, `(m << 1) | l` is `2m + l`. */
  lemma PlaneOr(m: nat, l: nat)
    requires m < 2 && l < 2
    ensures Or8(2 * m, l) == 2 * m + l
  {
    Pow2Byte();
    OrDisjoint(2 * m, l, 8, 1);
  }

  /** The colour of one pixel: `(msb << 1) | lsb`, with msb from the high plane and lsb from the low. */
  function ColorAt(low: byte, high: byte, k: nat): (c: byte)
    requires k < 8
    ensures c == 2 * Bit(high, k) + Bit(low, k)
  {
    MaskShift(high, k);
    MaskShift(low, k);
    var mask: byte := Pow2(k);
    var msb := And8(high, mask) / mask;
    var lsb := And8(low, mask) / mask;
    PlaneOr(msb, lsb);
    Or8(2 * msb, lsb)
  }

  /** The eight colours of a row, leftmost first. */
  function RowColors(low: byte, high: byte): (r: seq<byte>)
    ensures |r| == 8
  {
    seq(8, k requires 0 <= k < 8 => ColorAt(low, high, 7 - k))
  }

  /** A bit plane from its bits, most significant first. */
  function Plane(bits: seq<nat>): nat
  {
    if |bits| == 0 then 0 else 2 * Plane(bits[..|bits| - 1]) + bits[|bits| - 1]
  }

  lemma {:induction false} PlaneBits(bits: seq<nat>, j: nat)
    requires forall i :: 0 <= i < |bits| ==> bits[i] < 2
    requires j < |bits|
    ensures Plane(bits) < Pow2(|bits|)
    ensures Bit(Plane(bits), j) == bits[|bits| - 1 - j]
    decreases |bits|
  {
    var init := bits[..|bits| - 1];
    if |init| > 0 {
      PlaneBits(init, if j > 0 then j - 1 else 0);
    }
    assert Plane(bits) / 2 == Plane(init);
  }

  /** The low bit of each colour, leftmost first. */
  function LowBits(colors: seq<byte>): (bits: seq<nat>)
    ensures |bits| == |colors| && forall k :: 0 <= k < |colors| ==> bits[k] == colors[k] % 2
  {
    seq(|colors|, k requires 0 <= k < |colors| => colors[k] % 2)
  }

  /** The high bit of each 2-bit colour, leftmost first. */
  function HighBits(colors: seq<byte>): (bits: seq<nat>)
    ensures |bits| == |colors| && forall k :: 0 <= k < |colors| ==> bits[k] == colors[k] / 2
  {
    seq(|colors|, k requires 0 <= k < |colors| => colors[k] / 2)
  }

  /** The two plane bytes that store eight 2-bit colours. */
  function Encoded(colors: seq<byte>): (planes: (byte, byte))
    requires |colors| == 8 && forall k :: 0 <= k < 8 ==> colors[k] < 4
  {
    PlaneBits(LowBits(colors), 0);
    PlaneBits(HighBits(colors), 0);
    Pow2Byte();
    (Plane(LowBits(colors)), Plane(HighBits(colors)))
  }

  /** Decoding the planes a row of colours is stored as gives the colours back. */
  lemma DecodeEncoded(colors: seq<byte>)
    requires |colors| == 8 && forall k :: 0 <= k < 8 ==> colors[k] < 4
    ensures RowColors(Encoded(colors).0, Encoded(colors).1) == colors
  {
    var e := Encoded(colors);
    forall k | 0 <= k < 8
      ensures RowColors(e.0, e.1)[k] == colors[k]
    {
      DecodeEncodedAt(colors, k);
    }
  }

  /** One pixel of the round trip. */
  lemma DecodeEncodedAt(colors: seq<byte>, k: nat)
    requires |colors| == 8 && forall k :: 0 <= k < 8 ==> colors[k] < 4
    requires k < 8
    ensures RowColors(Encoded(colors).0, Encoded(colors).1)[k] == colors[k]
  {
    var lows, highs := LowBits(colors), HighBits(colors);
    var e := Encoded(colors);
    assert e.0 == Plane(lows) && e.1 == Plane(highs);
    PlaneBits(lows, 7 - k);
    PlaneBits(highs, 7 - k);
    RowColorAt(e.0, e.1, k);
    ColorJoin(colors[k], Bit(e.1, 7 - k), Bit(e.0, 7 - k));
  }

  /** Each plane of the encoded row is rebuilt from its bits. */
  lemma PlaneBack(plane: byte, bits: seq<nat>)
    requires |bits| == 8 && forall k :: 0 <= k < 8 ==> bits[k] == Bit(plane, 7 - k)
    ensures Plane(bits) == plane
  {
    Pow2Byte();
    forall j | 0 <= j < 8
      ensures Bit(Plane(bits), j) == Bit(plane, j)
    {
      PlaneBits(bits, j);
    }
    PlaneBits(bits, 0);
    BitsDetermine(Plane(bits), plane, 8);
  }

  /** A colour splits back into its two plane bits. */
  lemma ColorSplit(c: nat, h: nat, l: nat)
    requires h < 2 && l < 2 && c == 2 * h + l
    ensures c < 4 && c % 2 == l && c / 2 == h
  {
    DivisionUnique(c, 2, h, l);
  }

  /** Pixel k of a row takes bit 7 - k of each plane. */
  lemma RowColorAt(low: byte, high: byte, k: nat)
    requires k < 8
    ensures RowColors(low, high)[k] == 2 * Bit(high, 7 - k) + Bit(low, 7 - k)
  {
  }

  /** A colour below 4 is twice its high bit plus its low bit. */
  lemma ColorJoin(c: byte, h: nat, l: nat)
    requires c < 4 && l == c % 2 && h == c / 2
    ensures 2 * h + l == c
  {
  }

  /** Every colour of a row is the pair of its plane bits. */
  lemma RowColorsSplit(low: byte, high: byte)
    ensures forall k :: 0 <= k < 8 ==>
      RowColors(low, high)[k] < 4 && LowBits(RowColors(low, high))[k] == Bit(low, 7 - k)
      && HighBits(RowColors(low, high))[k] == Bit(high, 7 - k)
  {
    var colors := RowColors(low, high);
    forall k | 0 <= k < 8
      ensures colors[k] < 4 && colors[k] % 2 == Bit(low, 7 - k) && colors[k] / 2 == Bit(high, 7 - k)
    {
      ColorSplit(colors[k], Bit(high, 7 - k), Bit(low, 7 - k));
    }
  }

  /** Encoding the colours of two plane bytes gives the bytes back. */
  lemma EncodeDecoded(low: byte, high: byte)
    ensures forall k :: 0 <= k < 8 ==> RowColors(low, high)[k] < 4
    ensures Encoded(RowColors(low, high)) == (low, high)
  {
    RowColorsSplit(low, high);
    PlaneBack(low, LowBits(RowColors(low, high)));
    PlaneBack(high, HighBits(RowColors(low, high)));
  }
}
