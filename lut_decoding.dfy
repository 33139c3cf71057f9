/** Decoding of a Modality or VOI lookup table from its LUT Descriptor and LUT
    Data attributes (DICOM PS3.3 sections C.11.1 and C.11.2), as done by
    `LUTFactory.createLUT(StoredValue, Attributes)` and `LUTFactory.halfLength`. */
module LutDecoding {
  import opened JavaTypes
  import opened StoredValues
  import opened Luts

  /** A LUT Descriptor value, encoded as US or SS. */
  type DescriptorValue = x: int | -0x8000 <= x <= 0xFFFF

  /** One item of a Modality LUT Sequence or VOI LUT Sequence: the LUT Descriptor
      (three values: entry count, first mapped value, bits per entry), the LUT
      Data bytes, and the byte order of the data set. */
  datatype LutItem = LutItem(descriptor: Option<seq<DescriptorValue>>, data: Option<seq<int8>>, bigEndian: bool)

  /** `ByteUtils.bytesToShortBE(data, off)` cast to `short`: `b0` is the high-order byte. */
  function WordBE(b0: int8, b1: int8): int16 {
    b0 * 0x100 + b1 % 0x100
  }

  /** `ByteUtils.bytesToShortLE(data, off)` cast to `short`: `b1` is the high-order byte. */
  function WordLE(b0: int8, b1: int8): int16 {
    b1 * 0x100 + b0 % 0x100
  }

  function Word(bigEndian: bool, b0: int8, b1: int8): int16 {
    if bigEndian then WordBE(b0, b1) else WordLE(b0, b1)
  }

  /** Number of table entries: a count of 0 stands for 65536. */
  function TableLength(count: DescriptorValue): int {
    if count == 0 then 0x1_0000 else count
  }

  /** The byte of each 16-bit word that holds the low-order bits. */
  function Hilo(bigEndian: bool): nat {
    if bigEndian then 1 else 0
  }

  function Words(data: seq<int8>, len: nat, bigEndian: bool): seq<int16>
    requires 2 * len <= |data|
  {
    seq(len, i requires 0 <= i < len => Word(bigEndian, data[2 * i], data[2 * i + 1]))
  }

  function Halved(data: seq<int8>, hilo: nat): seq<int8>
    requires hilo <= 1
  {
    seq(|data| / 2, i requires 0 <= i < |data| / 2 => data[2 * i + hilo])
  }

  /** The item has a descriptor of exactly three values and LUT Data. */
  predicate Complete(item: Option<LutItem>) {
    item.Some? && item.value.descriptor.Some? && |item.value.descriptor.value| == 3 && item.value.data.Some?
  }

  /** `createLUT(inBits, item)` of a factory whose pixel domain is `domain`:
      the table the item describes, or None ("no LUT") when it is malformed. */
  function TableLUT(domain: StoredValue, inBits: StoredValue, item: Option<LutItem>): (r: Option<Lut>)
    ensures !Complete(item) ==> r.None?
    ensures r.Some? ==> Complete(item) && r.value.IsTable()
    ensures Complete(item) ==>
      var desc, data, be := item.value.descriptor.value, item.value.data.value, item.value.bigEndian;
      var len := TableLength(desc[0]);
      && (r.Some? ==> r.value.offset == ToShort(desc[1]) && -0x8000 <= r.value.offset < 0x8000)
      && (r.Some? ==> r.value.outBits == desc[2])
      && (r.Some? && r.value.LutShort? <==> |data| == 2 * len && 8 < desc[2] <= 16)
      && (r.Some? && r.value.LutShort? ==>
            && r.value.inBits == domain
            && |r.value.shorts| == len
            && forall i :: 0 <= i < len ==> r.value.shorts[i] == Word(be, data[2 * i], data[2 * i + 1]))
      && (r.Some? && r.value.LutByte? <==> (|data| == 2 * len || |data| == len) && desc[2] <= 8)
      && (r.Some? && r.value.LutByte? ==>
            && r.value.inBits == inBits
            && |r.value.bytes| == len
            && forall i :: 0 <= i < len ==>
                 r.value.bytes[i] == if |data| == 2 * len then data[2 * i + Hilo(be)] else data[i])
  {
    if item.None? || item.value.descriptor.None? then None
    else
      var desc := item.value.descriptor.value;
      if |desc| != 3 then None
      else
        var len := TableLength(desc[0]);
        var offset := ToShort(desc[1]);
        var outBits := desc[2];
        if item.value.data.None? then None
        else
          var data := item.value.data.value;
          var be := item.value.bigEndian;
          if |data| == 2 * len && outBits > 8 then
            if outBits > 16 then None
            else Some(LutShort(domain, outBits, offset, Words(data, len, be)))
          else
            var bytes := if |data| == 2 * len then Halved(data, Hilo(be)) else data;
            if |bytes| != len || outBits > 8 then None
            else Some(LutByte(inBits, outBits, offset, bytes))
  }

  /** `halfLength(data, hilo)`: every other byte, starting at byte `hilo`. */
  method HalfLength(data: seq<int8>, hilo: nat) returns (half: seq<int8>)
    requires hilo <= 1
    ensures |half| == |data| / 2
    ensures forall i :: 0 <= i < |half| ==> half[i] == data[2 * i + hilo]
  {
    var bs := new int8[|data| / 2];
    for i := 0 to bs.Length
      invariant forall k :: 0 <= k < i ==> bs[k] == data[2 * k + hilo]
    {
      bs[i] := data[2 * i + hilo];
    }
    half := bs[..];
  }

  /** The two bytes of a 16-bit word, high-order byte first. */
  function HighByte(w: int16): int8 {
    w / 0x100
  }

  function LowByte(w: int16): int8 {
    ToByte(w)
  }

  /** Lays out 16-bit words as LUT Data in the given byte order. */
  function EncodeWords(ws: seq<int16>, bigEndian: bool): seq<int8>
  {
    seq(2 * |ws|, j requires 0 <= j < 2 * |ws| =>
      if (j % 2 == 0) == bigEndian then HighByte(ws[j / 2]) else LowByte(ws[j / 2]))
  }

  lemma WordOfBytes(w: int16)
    ensures WordBE(HighByte(w), LowByte(w)) == w
    ensures WordLE(LowByte(w), HighByte(w)) == w
  {
    var lo := LowByte(w);
    assert (w - lo) % 0x100 == 0;
    assert (lo as int) % 0x100 == (w as int) % 0x100 by { SameResidue(w, lo); }
  }

  lemma SameResidue(a: int, b: int)
    requires (a - b) % 0x100 == 0
    ensures a % 0x100 == b % 0x100
  {
    var k := (a - b) / 0x100;
    assert a - b == k * 0x100;
    assert a == b + k * 0x100;
  }

  /** The 16-bit decode is the inverse of laying words out in either byte order. */
  lemma DecodeEncodeWords(ws: seq<int16>, bigEndian: bool)
    ensures Words(EncodeWords(ws, bigEndian), |ws|, bigEndian) == ws
  {
    var data := EncodeWords(ws, bigEndian);
    var decoded := Words(data, |ws|, bigEndian);
    forall i | 0 <= i < |ws|
      ensures decoded[i] == ws[i]
    {
      EncodedWordAt(ws, bigEndian, i);
    }
  }

  lemma EncodedWordAt(ws: seq<int16>, bigEndian: bool, i: nat)
    requires i < |ws|
    ensures var data := EncodeWords(ws, bigEndian);
      Word(bigEndian, data[2 * i], data[2 * i + 1]) == ws[i]
  {
    var data := EncodeWords(ws, bigEndian);
    EncodedByteAt(ws, bigEndian, 2 * i, i);
    EncodedByteAt(ws, bigEndian, 2 * i + 1, i);
    WordOfBytes(ws[i]);
  }

  lemma EncodedByteAt(ws: seq<int16>, bigEndian: bool, j: nat, i: nat)
    requires j < 2 * |ws| && (j == 2 * i || j == 2 * i + 1)
    ensures EncodeWords(ws, bigEndian)[j] == if (j == 2 * i) == bigEndian then HighByte(ws[i]) else LowByte(ws[i])
  {
    assert j / 2 == i && (j % 2 == 0 <==> j == 2 * i);
  }

  /** Halving a padded table keeps the low-order byte of every 16-bit word, in either byte order. */
  lemma HalvedKeepsLowBytes(ws: seq<int16>, bigEndian: bool)
    ensures Halved(EncodeWords(ws, bigEndian), Hilo(bigEndian)) == seq(|ws|, i requires 0 <= i < |ws| => LowByte(ws[i]))
  {
    var data := EncodeWords(ws, bigEndian);
    var h := Hilo(bigEndian);
    var halved := Halved(data, h);
    var lows := seq(|ws|, i requires 0 <= i < |ws| => LowByte(ws[i]));
    assert |halved| == |lows|;
    forall i | 0 <= i < |ws|
      ensures halved[i] == lows[i]
    {
      EncodedByteAt(ws, bigEndian, 2 * i + h, i);
    }
  }
}
