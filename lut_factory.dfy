/** The grayscale display pipeline of one image (DICOM PS3.3 sections C.11.1,
    C.11.2 and C.11.6): Modality LUT or rescale, then VOI LUT or window, then
    inversion for MONOCHROME1 / INVERSE, as assembled by `LUTFactory`. */
module Factory {
  import opened JavaTypes
  import opened StoredValues
  import opened Luts
  import opened LutDecoding

  /** The attributes of an image data set that the factory reads; absent ones are None. */
  datatype Attributes = Attributes(
    rescaleIntercept: Option<real>,
    rescaleSlope: Option<real>,
    modalityLUTSequence: Option<seq<LutItem>>,
    presentationLUTShape: Option<string>,
    photometricInterpretation: Option<string>,
    voiLUTSequence: Option<seq<LutItem>>,
    windowCenter: Option<seq<real>>,
    windowWidth: Option<seq<real>>,
    smallestImagePixelValue: Option<int32>,
    largestImagePixelValue: Option<int32>)

  /** `getNestedDataset(tag, index)`: the item at `index`, or None past the end. */
  function NestedItem(sq: Option<seq<LutItem>>, index: nat): Option<LutItem>
  {
    if sq.None? || index >= |sq.value| then None else Some(sq.value[index])
  }

  function FloatOr(v: Option<real>, default: real): real {
    if v.Some? then v.value else default
  }

  function IntOr(v: Option<int32>, default: int32): int32 {
    if v.Some? then v.value else default
  }

  /** Whether the presentation asks for inverted output before the slope is taken into account:
      an explicit Presentation LUT Shape decides, otherwise MONOCHROME1 does. */
  function ShapeInverts(attrs: Attributes): bool {
    if attrs.presentationLUTShape.Some? then attrs.presentationLUTShape.value == "INVERSE"
    else attrs.photometricInterpretation == Some("MONOCHROME1")
  }

  /** The window at `windowIndex` exists in both the Window Center and the Window Width values. */
  predicate HasWindow(img: Attributes, windowIndex: nat) {
    && img.windowCenter.Some? && windowIndex < |img.windowCenter.value|
    && img.windowWidth.Some? && windowIndex < |img.windowWidth.value|
  }

  /** The pixel samples of an image: Java `byte` or unsigned-short samples as stored in a Java `short`. */
  datatype DataBuffer = ByteBuffer(bytes: seq<int8>) | UShortBuffer(shorts: seq<int16>) {
    function Size(): nat {
      if ByteBuffer? then |bytes| else |shorts|
    }

    /** Sample `i` widened to `int` with sign extension, as Java does. */
    function Sample(i: nat): int
      requires i < Size()
    {
      if ByteBuffer? then bytes[i] else shorts[i]
    }
  }

  /** The smallest element, scanning left to right from Integer.MAX_VALUE. */
  function MinOf(s: seq<int>): int {
    if |s| == 0 then MaxInt
    else
      var m := MinOf(s[..|s| - 1]);
      if s[|s| - 1] < m then s[|s| - 1] else m
  }

  /** The largest element, scanning left to right from Integer.MIN_VALUE. */
  function MaxOf(s: seq<int>): int {
    if |s| == 0 then MinInt
    else
      var m := MaxOf(s[..|s| - 1]);
      if s[|s| - 1] > m then s[|s| - 1] else m
  }

  lemma {:induction false} MinOfIsLeast(s: seq<int>)
    requires |s| > 0
    requires forall k :: 0 <= k < |s| ==> s[k] <= MaxInt
    ensures MinOf(s) in s
    ensures forall k :: 0 <= k < |s| ==> MinOf(s) <= s[k]
  {
    var init := s[..|s| - 1];
    if |init| > 0 {
      MinOfIsLeast(init);
      assert forall k :: 0 <= k < |init| ==> init[k] == s[k];
    }
  }

  lemma {:induction false} MaxOfIsGreatest(s: seq<int>)
    requires |s| > 0
    requires forall k :: 0 <= k < |s| ==> s[k] >= MinInt
    ensures MaxOf(s) in s
    ensures forall k :: 0 <= k < |s| ==> MaxOf(s) >= s[k]
  {
    var init := s[..|s| - 1];
    if |init| > 0 {
      MaxOfIsGreatest(init);
      assert forall k :: 0 <= k < |init| ==> init[k] == s[k];
    }
  }

  /** The window center auto-windowing derives from the pixel range `lo..hi`:
      `(lo + hi + 1) / 2 * slope + intercept`, with Java `int` arithmetic before the multiplication. */
  function AutoCenter(lo: int, hi: int, slope: real, intercept: real): real {
    (Half(Wrap32(lo + hi + 1)) as real) * slope + intercept
  }

  /** The window width auto-windowing derives: `|(hi + 1 - lo) * slope|`. */
  function AutoWidth(lo: int, hi: int, slope: real): real {
    var w := (Wrap32(hi + 1 - lo) as real) * slope;
    if w < 0.0 then -w else w
  }

  /** For a non-empty pixel range and a positive slope, the default window is
      centred inside the rescaled range and is exactly as wide as the range. */
  lemma AutoWindowFitsRange(lo: int, hi: int, slope: real, intercept: real)
    requires -0x8000 <= lo <= hi < 0x1_0000
    requires slope > 0.0
    ensures (lo as real) * slope + intercept <= AutoCenter(lo, hi, slope, intercept)
    ensures AutoCenter(lo, hi, slope, intercept) <= ((hi + 1) as real) * slope + intercept
    ensures AutoWidth(lo, hi, slope) == ((hi + 1 - lo) as real) * slope
  {
    var c := Half(Wrap32(lo + hi + 1));
    assert lo <= c <= hi + 1;
    assert ((c - lo) as real) * slope >= 0.0;
    assert ((hi + 1 - c) as real) * slope >= 0.0;
  }

  class LUTFactory {
    const storedValue: PixelDomain
    var rescaleSlope: real
    var rescaleIntercept: real
    var modalityLUT: Option<Lut>
    var windowCenter: real
    var windowWidth: real
    var voiLUT: Option<Lut>
    var inverse: bool

    /** The modality and VOI stages are decoded tables; the modality table is indexed by stored values. */
    ghost predicate Valid()
      reads this
    {
      && (modalityLUT.Some? ==> modalityLUT.value.IsTable() && modalityLUT.value.inBits == storedValue)
      && (voiLUT.Some? ==> voiLUT.value.IsTable())
    }

    constructor (storedValue: PixelDomain)
      ensures Valid()
      ensures this.storedValue == storedValue
      ensures rescaleSlope == 1.0 && rescaleIntercept == 0.0
      ensures modalityLUT.None? && voiLUT.None?
      ensures windowCenter == 0.0 && windowWidth == 0.0
      ensures !inverse
    {
      this.storedValue := storedValue;
      rescaleSlope := 1.0;
      rescaleIntercept := 0.0;
      modalityLUT := None;
      windowCenter := 0.0;
      windowWidth := 0.0;
      voiLUT := None;
      inverse := false;
    }

    /** The input domain of a VOI stage: the modality table's output range when there is one. */
    function VoiDomain(modality: Option<Lut>): StoredValue
    {
      if modality.Some? then Unsigned(OutBits(modality.value)) else storedValue
    }

    method Init(attrs: Attributes)
      requires Valid()
      modifies this
      ensures Valid()
      ensures rescaleIntercept == FloatOr(attrs.rescaleIntercept, 0.0)
      ensures rescaleSlope == FloatOr(attrs.rescaleSlope, 1.0)
      ensures modalityLUT == TableLUT(storedValue, storedValue, NestedItem(attrs.modalityLUTSequence, 0))
      ensures inverse <==> (ShapeInverts(attrs) != (rescaleSlope < 0.0))
      ensures windowCenter == old(windowCenter) && windowWidth == old(windowWidth) && voiLUT == old(voiLUT)
    {
      rescaleIntercept := FloatOr(attrs.rescaleIntercept, 0.0);
      rescaleSlope := FloatOr(attrs.rescaleSlope, 1.0);
      modalityLUT := DecodeTable(storedValue, NestedItem(attrs.modalityLUTSequence, 0));
      var pShape := attrs.presentationLUTShape;
      inverse := if pShape.Some? then pShape.value == "INVERSE"
                 else attrs.photometricInterpretation == Some("MONOCHROME1");
      if rescaleSlope < 0.0 {
        inverse := !inverse;
      }
    }

    method SetWindowCenter(windowCenter: real)
      modifies this
      ensures this.windowCenter == windowCenter
      ensures windowWidth == old(windowWidth) && voiLUT == old(voiLUT) && modalityLUT == old(modalityLUT)
      ensures rescaleSlope == old(rescaleSlope) && rescaleIntercept == old(rescaleIntercept) && inverse == old(inverse)
    {
      this.windowCenter := windowCenter;
    }

    method SetWindowWidth(windowWidth: real)
      modifies this
      ensures this.windowWidth == windowWidth
      ensures windowCenter == old(windowCenter) && voiLUT == old(voiLUT) && modalityLUT == old(modalityLUT)
      ensures rescaleSlope == old(rescaleSlope) && rescaleIntercept == old(rescaleIntercept) && inverse == old(inverse)
    {
      this.windowWidth := windowWidth;
    }

    /** Selects the VOI stage: the window at `windowIndex` when a window is preferred
        or no VOI table is available and both window values exist; otherwise the
        VOI table at `voiLUTIndex` (possibly none). */
    method SetVOI(img: Attributes, windowIndex: nat, voiLUTIndex: nat, preferWindow: bool)
      requires Valid()
      modifies this
      ensures Valid()
      ensures var candidate := TableLUT(storedValue, VoiDomain(old(modalityLUT)), NestedItem(img.voiLUTSequence, voiLUTIndex));
        if (preferWindow || candidate.None?) && HasWindow(img, windowIndex) then
          && windowCenter == img.windowCenter.value[windowIndex]
          && windowWidth == img.windowWidth.value[windowIndex]
          && voiLUT == old(voiLUT)
        else
          && voiLUT == candidate
          && windowCenter == old(windowCenter) && windowWidth == old(windowWidth)
      ensures modalityLUT == old(modalityLUT) && inverse == old(inverse)
      ensures rescaleSlope == old(rescaleSlope) && rescaleIntercept == old(rescaleIntercept)
    {
      var candidate := DecodeTable(VoiDomain(modalityLUT), NestedItem(img.voiLUTSequence, voiLUTIndex));
      if preferWindow || candidate.None? {
        var wcs := img.windowCenter;
        var wws := img.windowWidth;
        if wcs.Some? && windowIndex < |wcs.value| && wws.Some? && windowIndex < |wws.value| {
          windowCenter := wcs.value[windowIndex];
          windowWidth := wws.value[windowIndex];
        } else {
          voiLUT := candidate;
        }
      } else {
        voiLUT := candidate;
      }
    }

    /** `createLUT(inBits, attrs)`: decodes a table item, or answers None ("no LUT"). */
    method DecodeTable(inBits: StoredValue, item: Option<LutItem>) returns (r: Option<Lut>)
      ensures r == TableLUT(storedValue, inBits, item)
    {
      if item.None? {
        return None;
      }
      var attrs := item.value;
      if attrs.descriptor.None? {
        return None;
      }
      var desc := attrs.descriptor.value;
      if |desc| != 3 {
        return None;
      }
      var len := TableLength(desc[0]);
      var offset := ToShort(desc[1]);
      var outBits := desc[2];
      if attrs.data.None? {
        return None;
      }
      var data := attrs.data.value;
      if |data| == 2 * len {
        if outBits > 8 {
          if outBits > 16 {
            return None;
          }
          var ss := new int16[len];
          if attrs.bigEndian {
            for i := 0 to ss.Length
              invariant forall k :: 0 <= k < i ==> ss[k] == WordBE(data[2 * k], data[2 * k + 1])
            {
              ss[i] := WordBE(data[2 * i], data[2 * i + 1]);
            }
          } else {
            for i := 0 to ss.Length
              invariant forall k :: 0 <= k < i ==> ss[k] == WordLE(data[2 * k], data[2 * k + 1])
            {
              ss[i] := WordLE(data[2 * i], data[2 * i + 1]);
            }
          }
          assert ss[..] == Words(data, len, attrs.bigEndian);
          return Some(LutShort(storedValue, outBits, offset, ss[..]));
        }
        // padded high bits: keep the low-order byte of each word
        data := HalfLength(data, if attrs.bigEndian then 1 else 0);
        assert data == Halved(attrs.data.value, Hilo(attrs.bigEndian));
      }
      if |data| != len {
        return None;
      }
      if outBits > 8 {
        return None;
      }
      return Some(LutByte(inBits, outBits, offset, data));
    }

    /** The Modality and VOI stages chained into one table of `outBits` output bits. */
    function CombineModalityVOILUT(outBits: int): (lut: Lut)
      reads this
      ensures OutBits(lut) == outBits
      ensures !lut.Inverted?
      ensures voiLUT.Some? ==> lut == AfterModality(modalityLUT, Adjusted(voiLUT.value, outBits))
      ensures voiLUT.None? && windowWidth == 0.0 && modalityLUT.Some? ==> lut == Adjusted(modalityLUT.value, outBits)
      ensures voiLUT.None? && windowWidth == 0.0 && modalityLUT.None? ==>
        lut == Ramp(storedValue, outBits, Span(storedValue.MinValue(), storedValue.MaxValue() - storedValue.MinValue() + 1))
      ensures voiLUT.None? && windowWidth != 0.0 ==>
        lut == AfterModality(modalityLUT,
                 Ramp(VoiDomain(modalityLUT), outBits, Window(windowCenter, windowWidth, rescaleSlope, rescaleIntercept)))
      ensures Valid() && (modalityLUT.Some? || voiLUT.None?) ==> InputDomain(lut) == storedValue
    {
      var m := rescaleSlope;
      var b := rescaleIntercept;
      var modality := modalityLUT;
      if voiLUT.None? then
        var c := windowCenter;
        var w := windowWidth;
        if w == 0.0 && modality.Some? then
          Adjusted(modality.value, outBits)
        else
          var inBits := VoiDomain(modality);
          var extent := if w != 0.0 then Window(c, w, m, b)
                        else Span(storedValue.MinValue(), storedValue.MaxValue() - storedValue.MinValue() + 1);
          AfterModality(modality, Ramp(inBits, outBits, extent))
      else
        AfterModality(modality, Adjusted(voiLUT.value, outBits))
    }

    /** `createLUT(outBits)`: the complete stored-value to display-value table,
        inverted exactly when the factory's `inverse` flag is set. */
    method CreateLUT(outBits: int) returns (lut: Lut)
      ensures OutBits(lut) == outBits
      ensures lut.Inverted? <==> inverse
      ensures (if inverse then lut.table else lut) == CombineModalityVOILUT(outBits)
      ensures Valid() && (modalityLUT.Some? || voiLUT.None?) ==> InputDomain(lut) == storedValue
    {
      lut := CombineModalityVOILUT(outBits);
      if inverse {
        lut := Inverted(lut);
      }
    }

    /** The converted samples of a buffer. */
    function Values(buffer: DataBuffer): seq<int>
    {
      seq(buffer.Size(), i requires 0 <= i < buffer.Size() => storedValue.ValueOf(buffer.Sample(i)))
    }

    /** The scan of auto-windowing: the smallest and largest converted sample,
        or Integer.MAX_VALUE and Integer.MIN_VALUE for an empty buffer. */
    method ScanExtrema(buffer: DataBuffer) returns (min: int, max: int)
      ensures min == MinOf(Values(buffer)) && max == MaxOf(Values(buffer))
      ensures buffer.Size() == 0 ==> min == MaxInt && max == MinInt
      ensures buffer.Size() > 0 ==> min in Values(buffer) && max in Values(buffer)
      ensures forall i :: 0 <= i < buffer.Size() ==> min <= storedValue.ValueOf(buffer.Sample(i)) <= max
    {
      ghost var vs := Values(buffer);
      assert |vs| == buffer.Size();
      assert forall k :: 0 <= k < |vs| ==> vs[k] == storedValue.ValueOf(buffer.Sample(k));
      min, max := MaxInt, MinInt;
      for i := 0 to buffer.Size()
        invariant min == MinOf(vs[..i]) && max == MaxOf(vs[..i])
      {
        var val := storedValue.ValueOf(buffer.Sample(i));
        assert vs[..i + 1][..i] == vs[..i];
        if val < min {
          min := val;
        }
        if val > max {
          max := val;
        }
      }
      assert vs[..buffer.Size()] == vs;
      if buffer.Size() > 0 {
        MinOfIsLeast(vs);
        MaxOfIsGreatest(vs);
      }
    }

    /** The pixel range auto-windowing uses: the declared smallest and largest
        values, or the scanned extrema when the declared largest converts to 0. */
    function PixelRange(img: Attributes, buffer: DataBuffer): (int, int) {
      var min := storedValue.ValueOf(IntOr(img.smallestImagePixelValue, 0));
      var max := storedValue.ValueOf(IntOr(img.largestImagePixelValue, 0));
      if max == 0 then (MinOf(Values(buffer)), MaxOf(Values(buffer))) else (min, max)
    }

    /** Sets a default window from the pixel range when no modality table,
        no VOI table and no window width are set; otherwise changes nothing. */
    method AutoWindowing(img: Attributes, buffer: DataBuffer) returns (applied: bool)
      requires Valid()
      modifies this
      ensures Valid()
      ensures applied <==> old(modalityLUT.None? && voiLUT.None? && windowWidth == 0.0)
      ensures !applied ==> unchanged(this)
      ensures applied ==>
        var (lo, hi) := PixelRange(img, buffer);
        && windowCenter == AutoCenter(lo, hi, rescaleSlope, rescaleIntercept)
        && windowWidth == AutoWidth(lo, hi, rescaleSlope)
      ensures modalityLUT == old(modalityLUT) && voiLUT == old(voiLUT) && inverse == old(inverse)
      ensures rescaleSlope == old(rescaleSlope) && rescaleIntercept == old(rescaleIntercept)
    {
      if modalityLUT.Some? || voiLUT.Some? || windowWidth != 0.0 {
        return false;
      }
      var min := storedValue.ValueOf(IntOr(img.smallestImagePixelValue, 0));
      var max := storedValue.ValueOf(IntOr(img.largestImagePixelValue, 0));
      if max == 0 {
        min, max := ScanExtrema(buffer);
      }
      assert (min, max) == PixelRange(img, buffer);
      windowCenter := AutoCenter(min, max, rescaleSlope, rescaleIntercept);
      windowWidth := AutoWidth(min, max, rescaleSlope);
      return true;
    }
  }
}
