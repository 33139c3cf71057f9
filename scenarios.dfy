/** Concrete inputs worked through the model. */
module Scenarios {
  import opened JavaTypes
  import opened StoredValues
  import opened Luts
  import opened LutDecoding
  import opened Factory

  /** A 4-entry 16-bit little-endian table starting at stored value -100 decodes
      from 8 bytes of LUT Data; 7 bytes give no table. */
  lemma LittleEndianShortTable(sv: StoredValue, inBits: StoredValue, d: seq<int8>)
    requires |d| == 8
    ensures var r := TableLUT(sv, inBits, Some(LutItem(Some([4, -100, 12]), Some(d), false)));
      && r.Some? && r.value.LutShort? && r.value.offset == -100 && r.value.outBits == 12
      && r.value.shorts == [WordLE(d[0], d[1]), WordLE(d[2], d[3]), WordLE(d[4], d[5]), WordLE(d[6], d[7])]
    ensures TableLUT(sv, inBits, Some(LutItem(Some([4, -100, 12]), Some(d[..7]), false))).None?
  {
    var r := TableLUT(sv, inBits, Some(LutItem(Some([4, -100, 12]), Some(d), false)));
    assert |r.value.shorts| == 4;
  }

  /** A padded 8-bit table in big-endian order keeps the second byte of each
      pair, which is the low-order byte of the big-endian word. */
  lemma PaddedBigEndianTable(sv: StoredValue, inBits: StoredValue, a: int8, b: int8, c: int8, d: int8)
    ensures TableLUT(sv, inBits, Some(LutItem(Some([2, 0, 8]), Some([a, b, c, d]), true)))
         == Some(LutByte(inBits, 8, 0, [b, d]))
  {
    var data: seq<int8> := [a, b, c, d];
    assert Halved(data, 1) == [b, d];
    assert TableLength(2) == 2 && ToShort(0) == 0;
  }

  /** Pixels 100..4000 with slope 1 and intercept 0 give center 2050, since
      Java's integer division truncates 4101 / 2, and width 3901. */
  lemma AutoWindowingOf100To4000()
    ensures AutoCenter(100, 4000, 1.0, 0.0) == 2050.0
    ensures AutoWidth(100, 4000, 1.0) == 3901.0
  {
  }

  /** An empty buffer leaves the scan at Integer.MAX_VALUE and Integer.MIN_VALUE;
      the Java `int` difference wraps around to 2. */
  lemma AutoWindowingOfEmptyScan(slope: real, intercept: real)
    ensures AutoCenter(MaxInt, MinInt, slope, intercept) == intercept
    ensures AutoWidth(MaxInt, MinInt, slope) == if slope < 0.0 then -2.0 * slope else 2.0 * slope
  {
  }
}
