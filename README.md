# dcm4che LUTFactory: the grayscale display pipeline, in Dafny

`LUTFactory` builds the lookup table that turns the stored sample values of a
grayscale DICOM image into display values. It follows the grayscale transform
of DICOM PS3.3: the Modality LUT or rescale (section C.11.1), then the VOI LUT
or window (section C.11.2), then inversion for MONOCHROME1 or an INVERSE
Presentation LUT Shape (section C.11.6). This project models that factory and
proves properties of the model:

- `java_types.dfy` (`JavaTypes`): Java `byte`/`short`/`int`, `null` as `Option`,
  the `(short)` cast, `int` wrap-around and truncating division by 2.
- `stored_value.dfy` (`StoredValues`): the stored-value domain (bit depth and
  signedness), its range and the conversion of a raw integer into it.
- `lut.dfy` (`Luts`): a lookup table as a value that records how it was built
  (decoded table, linear ramp) and what was applied to it (`adjustOutBits`,
  `combine`, `inverse`).
- `lut_decoding.dfy` (`LutDecoding`): decoding a table from its LUT
  Descriptor and LUT Data: the descriptor checks, the 16-bit word decode in
  either byte order, the halving of a padded 8-in-16 table.
- `lut_factory.dfy` (`Factory`): the `LUTFactory` class. Its fields are the
  factory's state. `Init`, `SetWindowCenter`, `SetWindowWidth`, `SetVOI` and
  `AutoWindowing` update that state. `CombineModalityVOILUT` and `CreateLUT`
  choose and chain the stages.
- `scenarios.dfy` (`Scenarios`): concrete inputs worked through the model.

The image's metadata container is a record of optional values (`Attributes`,
`LutItem`). Its pixel buffer is a sequence of 8-bit or 16-bit samples
(`DataBuffer`). Java floats are Dafny reals.

## Model

| member | source | states |
|---|---|---|
| `JavaTypes.ToShort` | dcm4che-image/src/main/java/org/dcm4che/image/LUTFactory.java:123 | `(short) x` is the unique value in -32768..32767 congruent to `x` modulo 65536, so a table offset always lies in -32768..32767 |
| `JavaTypes.Wrap32` | dcm4che-image/src/main/java/org/dcm4che/image/LUTFactory.java:238-239 | Java `int` arithmetic gives the value congruent to the exact result modulo 2^32 and is exact inside the `int` range |
| `JavaTypes.Half` | dcm4che-image/src/main/java/org/dcm4che/image/LUTFactory.java:238 | Java's `/ 2` rounds toward zero: the remainder has the sign of the dividend and magnitude at most 1 |
| `StoredValues.StoredValue.MinValue` | dcm4che-image/src/main/java/org/dcm4che/image/LUTFactory.java:202 | the smallest value of a pixel domain is -2^(bits-1) when signed and 0 when unsigned, so it lies in -32768..0 |
| `StoredValues.StoredValue.MaxValue` | dcm4che-image/src/main/java/org/dcm4che/image/LUTFactory.java:203 | the largest value is 2^(bits-1) − 1 when signed and 2^bits − 1 when unsigned, and the domain min..max holds exactly 2^bits values, the size of the full-domain ramp |
| `StoredValues.StoredValue.ValueOf` | dcm4che-image/src/main/java/org/dcm4che/image/LUTFactory.java:218-221 | a converted sample lies in min..max and agrees with the raw value in its low `bits` bits |
| `StoredValues.ValueOfFixesDomain` | dcm4che-image/src/main/java/org/dcm4che/image/LUTFactory.java:227 | converting a value already in the domain returns it unchanged |
| `Luts.AfterModality` | dcm4che-image/src/main/java/org/dcm4che/image/LUTFactory.java:211 | chaining after the modality table keeps the output depth and takes the modality table's input domain; without one the stage is used alone |
| `LutDecoding.TableLUT` | dcm4che-image/src/main/java/org/dcm4che/image/LUTFactory.java:111-154 | no table without an item, a descriptor of exactly 3 values and LUT Data; length is 65536 for count 0, else the count; offset is descriptor[1] cast to `short`; a 16-bit table of `len` words decoded in the item's byte order exactly when the payload is 2·len bytes and 8 < outBits ≤ 16, over the factory's domain; a byte table of `len` entries exactly when the payload is 2·len or len bytes and outBits ≤ 8, over `inBits`, halved from a 2·len payload |
| `LutDecoding.HalfLength` | dcm4che-image/src/main/java/org/dcm4che/image/LUTFactory.java:156-161 | the result has length/2 bytes and byte i is data[2i + hilo] |
| `LutDecoding.WordOfBytes` | dcm4che-image/src/main/java/org/dcm4che/image/LUTFactory.java:137-140 | the big- and little-endian word decodes rebuild any 16-bit value from its high and low byte |
| `LutDecoding.DecodeEncodeWords` | dcm4che-image/src/main/java/org/dcm4che/image/LUTFactory.java:134-140 | decoding 16-bit LUT Data inverts laying the words out in the same byte order |
| `LutDecoding.HalvedKeepsLowBytes` | dcm4che-image/src/main/java/org/dcm4che/image/LUTFactory.java:144-145 | halving a padded table with hilo 1 for big-endian, 0 for little-endian keeps the low-order byte of every word |
| `Factory.MinOfIsLeast` | dcm4che-image/src/main/java/org/dcm4che/image/LUTFactory.java:223-235 | the scanned minimum of a non-empty buffer is one of its values and at most every value |
| `Factory.MaxOfIsGreatest` | dcm4che-image/src/main/java/org/dcm4che/image/LUTFactory.java:224-235 | the scanned maximum of a non-empty buffer is one of its values and at least every value |
| `Factory.AutoWindowFitsRange` | dcm4che-image/src/main/java/org/dcm4che/image/LUTFactory.java:238-239 | for a pixel range lo ≤ hi and a positive slope, the default center lies between the rescaled lo and hi + 1 and the width is (hi + 1 − lo)·slope |
| `Factory.LUTFactory.constructor` | dcm4che-image/src/main/java/org/dcm4che/image/LUTFactory.java:55-68 | a new factory has slope 1, intercept 0, no tables, window 0/0 and no inversion |
| `Factory.LUTFactory.Init` | dcm4che-image/src/main/java/org/dcm4che/image/LUTFactory.java:70-82 | intercept and slope default to 0 and 1; the modality table is the decoded first Modality LUT Sequence item, or none when the sequence is absent or empty (helper `Factory.NestedItem`); `inverse` is "INVERSE" shape, or MONOCHROME1 when no shape is given (helper `Factory.ShapeInverts`), negated exactly when the slope is negative; window and VOI table unchanged; the invariant is kept |
| `Factory.LUTFactory.SetWindowCenter` | dcm4che-image/src/main/java/org/dcm4che/image/LUTFactory.java:84-86 | sets the window center and nothing else |
| `Factory.LUTFactory.SetWindowWidth` | dcm4che-image/src/main/java/org/dcm4che/image/LUTFactory.java:88-90 | sets the window width and nothing else |
| `Factory.LUTFactory.SetVOI` | dcm4che-image/src/main/java/org/dcm4che/image/LUTFactory.java:92-109 | the candidate VOI table is the item at voiLUTIndex, none past the end of the sequence (helper `Factory.NestedItem`), decoded over the modality table's unsigned output range when there is a modality table, else over the pixel domain (helper `Factory.LUTFactory.VoiDomain`); it adopts the window at windowIndex exactly when a window is preferred or no VOI table decodes, and both window arrays reach windowIndex (helper `Factory.HasWindow`); then the VOI table field is left as it was; otherwise the VOI table becomes the decoded candidate, possibly none, and the window is unchanged |
| `Factory.LUTFactory.DecodeTable` | dcm4che-image/src/main/java/org/dcm4che/image/LUTFactory.java:111-154 | the loops that decode 16-bit words and halve padded data produce exactly the table `TableLUT` describes |
| `Factory.LUTFactory.CombineModalityVOILUT` | dcm4che-image/src/main/java/org/dcm4che/image/LUTFactory.java:182-212 | an active VOI table is adjusted to outBits and chained after the modality table; width 0 with a modality table gives that table adjusted; width 0 without one gives a ramp over min..max of the pixel domain; otherwise a window ramp, chained after the modality table; every ramp has 16-bit entries exactly when outBits > 8 (helper `Luts.Ramp`, which also gives the ramp the requested depth and domain); the result always has outBits output bits, is never inverted, and is indexed by the pixel domain whenever there is a modality table or no VOI table |
| `Factory.LUTFactory.CreateLUT` | dcm4che-image/src/main/java/org/dcm4che/image/LUTFactory.java:164-173 | the final table is the combined stage, inverted exactly when `inverse` holds, with outBits output bits |
| `Factory.LUTFactory.ScanExtrema` | dcm4che-image/src/main/java/org/dcm4che/image/LUTFactory.java:222-237 | the scan returns the smallest and largest converted sample, both attained, or MAX_VALUE and MIN_VALUE for an empty buffer |
| `Factory.LUTFactory.AutoWindowing` | dcm4che-image/src/main/java/org/dcm4che/image/LUTFactory.java:214-241 | with a modality table, a VOI table or a nonzero width it answers false and changes nothing; otherwise it answers true and sets center and width from the declared range, or from the scanned range when the declared largest value converts to 0 (helper `Factory.LUTFactory.PixelRange`), by the center and width formulas (helpers `Factory.AutoCenter`, `Factory.AutoWidth`) |
| `Scenarios.LittleEndianShortTable` | dcm4che-image/src/main/java/org/dcm4che/image/LUTFactory.java:129-148 | descriptor [4, -100, 12] with 8 little-endian bytes gives 4 words from offset -100; 7 bytes give no table |
| `Scenarios.PaddedBigEndianTable` | dcm4che-image/src/main/java/org/dcm4che/image/LUTFactory.java:144-153 | descriptor [2, 0, 8] with 4 big-endian bytes keeps the second byte of each pair |
| `Scenarios.AutoWindowingOf100To4000` | dcm4che-image/src/main/java/org/dcm4che/image/LUTFactory.java:238-239 | pixels 100..4000 at slope 1 give center 2050 and width 3901 |
| `Scenarios.AutoWindowingOfEmptyScan` | dcm4che-image/src/main/java/org/dcm4che/image/LUTFactory.java:223-239 | an empty scanned buffer gives center = intercept and width equal to the absolute value of 2·slope, through `int` wrap-around |

## Behaviour of the code worth knowing

- Auto-windowing computes the center as `(min + max + 1) / 2` in `int`
  arithmetic, which truncates: pixels 100..4000 give center 2050
  (`Scenarios.AutoWindowingOf100To4000`).
- A padded 8-in-16 table in big-endian order is halved with `hilo = 1`, so
  it keeps the second byte of each pair, the low-order byte of each word
  (`Scenarios.PaddedBigEndianTable`).
- A 16-bit table records the factory's own `storedValue` as its input domain
  (LUTFactory.java:142); only the 8-bit table records the `inBits` the caller
  passes (LUTFactory.java:153). So a 16-bit VOI table that follows a modality
  table records the pixel domain, not the modality output range. `TableLUT`
  states both cases.
- When `setVOI` adopts a window it leaves `voiLUT` as it was
  (LUTFactory.java:103-104). `CombineModalityVOILUT` prefers a VOI table over
  any window, so a VOI table set by an earlier call still wins over the newly
  adopted window.
- An empty scanned buffer leaves `Integer.MAX_VALUE` and `Integer.MIN_VALUE`
  as the range; the `int` arithmetic then gives center = intercept and a
  width of the absolute value of 2·slope (`Scenarios.AutoWindowingOfEmptyScan`).

## Left out

- `presentationLUT` and `log2`: no code in LUTFactory.java ever assigns the
  field. The `;` at LUTFactory.java:177 gives `log2`'s loop an empty body, so
  the loop never ends for a nonzero input. The presentation branch of
  `createLUT(int)` (LUTFactory.java:165-169) therefore never runs. The model
  has no presentation table and no `log2`.
- `voiLUTFunction` is never used and is not modelled.
- Float arithmetic: slope, intercept, center and width are exact reals, so
  float rounding is not modelled. The window ramp's `Math.round(w/m)` and
  `Math.round(c/m-b)` (LUTFactory.java:199-200) are not evaluated. The ramp
  records center, width, slope and intercept (`Extent.Window`) in their place.
- LUT.java, LUTByte.java and LUTShort.java are not part of this model:
  a table is a value that records its constructor arguments and the
  `adjustOutBits`, `combine` and `inverse` applied to it. Applying a table
  to a value, rescaling its entries and composing entries are not modelled.
  For `OutBits` and `InputDomain` the model assumes:
  `adjustOutBits(b)` gives depth b, a composition has its second stage's
  depth and its first stage's domain, and `inverse` keeps both.
- Factory.LUTFactory.CreateLUT: `inverse()` changes the table object in place.
  The model returns a new `Inverted` value instead, so it does not capture
  aliasing. If `adjustOutBits` returned its receiver, the inversion would also
  change the factory's own modality or VOI table.
- StoredValue.java is not part of this model. `StoredValue` is defined from the
  contract the factory relies on: mask to the bit depth, and sign-extend when
  signed.
- ByteUtils.java is not part of this model. `WordBE` and `WordLE` define the
  standard big- and little-endian 16-bit decode.
- The `Attributes` container, its tag lookup and its string handling are a
  record of optional values. LUT Descriptor values have the US/SS range
  -32768..65535. So the Java `int` overflow of `len << 1`, possible only for
  larger descriptor values, does not arise.
- Negative indices: the model's `windowIndex` and `voiLUTIndex` are natural
  numbers. In Java a negative `windowIndex` throws only when the window branch
  is taken and both window arrays are present (`-1 < length` passes, then
  `wcs[-1]` throws; LUTFactory.java:98-104); when an array is absent, or a VOI
  table decodes and no window is preferred, the index is ignored. What a
  negative `voiLUTIndex` does depends on `Attributes.getNestedDataset`, which
  is not part of this model. Calls with a negative index that do not throw are
  not covered.
- A pixel buffer that is neither a byte nor an unsigned-short buffer makes the
  cast at LUTFactory.java:232 throw, but only when the scan runs, that is when
  the declared largest pixel value converts to 0. The model's `DataBuffer` has
  only the two kinds, so that exception is not modelled.
- `AutoWindowing` scans one sequence of widened samples. The Java uses two
  textually identical loops, one per buffer kind.
