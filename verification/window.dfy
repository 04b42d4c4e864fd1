/**
 * The 7-byte partial-window descriptor sent to the PTL register
 * (`partial_update`, UC8151.py:389-398).  The driver computes it with
 * Python's `&`, `|` and `>>` on unbounded ints and never range-checks the
 * region.  Each byte is defined here in floor-division arithmetic, and
 * `WindowIsBitwise` proves that for every integer coordinate this is
 * exactly what the bit operations compute; every other property holds for
 * all integers or states its own range.
 */
module PartialWindow {
  import opened Bits

  /** `(x, y, w, h)` as passed to `partial_update`. */
  datatype Region = Region(x: int, y: int, w: int, h: int)

  /** `y & 0xF8`: the low byte of the first gate line, rounded down to a multiple of 8. */
  function RowStart(y: int): byte
  {
    (y % 256) / 8 * 8
  }

  /** `(last & 0xFF) | 0x03`: the low byte of the last gate line with its two low bits set. */
  function RowEnd(last: int): byte
  {
    (last % 256) / 4 * 4 + 3
  }

  /** `(c >> 8) & 0x01`: bit 8 of a source coordinate. */
  function HighBit(c: int): byte
  {
    (c / 256) % 2
  }

  /** `c & 0xFF`: the low byte of a source coordinate. */
  function LowByte(c: int): byte
  {
    c % 256
  }

  /**
   * The `partial_window` list: gate start, gate end, source start (high bit,
   * low byte), source end (high bit, low byte), and the scan-enable byte.
   */
  function Descriptor(region: Region): (r: seq<byte>)
    ensures |r| == 7
    ensures r[2] in {0, 1} && r[4] in {0, 1}
    ensures r[6] == 0x01
  {
    Window(region.y, region.y + region.h - 1, region.x, region.x + region.w - 1)
  }

  /** The descriptor of the gate lines `top..bottom` and the sources `left..right`. */
  function Window(top: int, bottom: int, left: int, right: int): seq<byte>
  {
    [RowStart(top), RowEnd(bottom), HighBit(left), LowByte(left), HighBit(right), LowByte(right), 0x01]
  }

  // Each byte against Python's bit operations, for every integer.

  lemma RowStartIsMask(y: int)
    ensures RowStart(y) == And(y, 0xF8)
  {
    AndF8(y);
  }

  lemma RowEndIsMask(last: int)
    ensures RowEnd(last) == Or(And(last, 0xFF), 0x03)
  {
    AndFF(last);
    var v := last % 256;
    OrThree(v);
    assert v / 4 * 4 + 3 == Or(v, 0x03);
  }

  lemma HighBitIsMask(c: int)
    ensures HighBit(c) == And(Shr(c, 8), 0x01)
  {
    assert Pow2(8) == 256;
    AndOne(c / 256);
  }

  lemma LowByteIsMask(c: int)
    ensures LowByte(c) == And(c, 0xFF)
  {
    AndFF(c);
  }

  /**
   * Every byte of a window is the expression the driver evaluates with `&`,
   * `|` and `>>`, for every integer coordinate.
   */
  lemma WindowIsBitwise(top: int, bottom: int, left: int, right: int)
    ensures Window(top, bottom, left, right) == [
      And(top, 0xF8), Or(And(bottom, 0xFF), 0x03),
      And(Shr(left, 8), 0x01), And(left, 0xFF),
      And(Shr(right, 8), 0x01), And(right, 0xFF),
      0x01]
  {
    RowStartIsMask(top);
    RowEndIsMask(bottom);
    HighBitIsMask(left);
    LowByteIsMask(left);
    HighBitIsMask(right);
    LowByteIsMask(right);
  }

  /**
   * The gate range: the start is a multiple of 8 and the end has its two low
   * bits set; for coordinates inside one byte the start is `y` rounded down
   * to 8 and the end is `y + h - 1` rounded up to the next value `== 3 (mod 4)`.
   */
  lemma DescriptorRows(region: Region)
    ensures Descriptor(region)[0] % 8 == 0
    ensures Descriptor(region)[1] % 4 == 3
    ensures 0 <= region.y < 256 ==>
      region.y - 8 < Descriptor(region)[0] <= region.y
    ensures 0 <= region.y + region.h - 1 < 256 ==>
      region.y + region.h - 1 <= Descriptor(region)[1] < region.y + region.h - 1 + 4
  {
    RowStartRounds(region.y);
    RowEndRounds(region.y + region.h - 1);
  }

  lemma RowStartRounds(y: int)
    ensures RowStart(y) % 8 == 0
    ensures 0 <= y < 256 ==> y - 8 < RowStart(y) <= y
  {
    RoundDown(y % 256, 8);
    if 0 <= y < 256 {
      ModSmall(y, 256);
    }
  }

  lemma RowEndRounds(last: int)
    ensures RowEnd(last) % 4 == 3
    ensures 0 <= last < 256 ==> last <= RowEnd(last) < last + 4
  {
    RoundUpWithin(last % 256, 4, 3);
    if 0 <= last < 256 {
      ModSmall(last, 256);
    }
  }

  /** High bit and low byte of a column coordinate reassemble it modulo 512. */
  lemma ColumnBytes(c: int)
    ensures HighBit(c) as int * 256 + LowByte(c) as int == c % 512
    ensures 0 <= c < 512 ==> HighBit(c) as int * 256 + LowByte(c) as int == c
  {
    ModMul256(c);
    if 0 <= c < 512 {
      ModSmall(c, 512);
    }
  }

  /**
   * The source range: the high bit and low byte reassemble the first and the
   * last column of the region modulo 512, so exactly for 9-bit coordinates.
   */
  lemma DescriptorColumns(region: Region)
    ensures Descriptor(region)[2] as int * 256 + Descriptor(region)[3] as int == region.x % 512
    ensures Descriptor(region)[4] as int * 256 + Descriptor(region)[5] as int
      == (region.x + region.w - 1) % 512
    ensures 0 <= region.x < 512 ==>
      Descriptor(region)[2] as int * 256 + Descriptor(region)[3] as int == region.x
    ensures 0 <= region.x + region.w - 1 < 512 ==>
      Descriptor(region)[4] as int * 256 + Descriptor(region)[5] as int == region.x + region.w - 1
  {
    ColumnBytes(region.x);
    ColumnBytes(region.x + region.w - 1);
  }

  lemma ModMul256(a: int)
    ensures a % 512 == (a / 256) % 2 * 256 + a % 256
  {
    var q, s := a / 256, a % 256;
    assert a == 256 * q + s;
    assert q == 2 * (q / 2) + q % 2;
    assert a == 512 * (q / 2) + (q % 2 * 256 + s);
    DivModUnique(a, 512, q / 2, q % 2 * 256 + s);
  }

  /** A tile of 8x8 pixels at the origin. */
  lemma OriginTile()
    ensures Descriptor(Region(0, 0, 8, 8)) == [0x00, 0x07, 0x00, 0x00, 0x00, 0x07, 0x01]
  {
  }
}
