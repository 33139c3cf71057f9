/** Lookup tables as the factory sees them. LUT.java, LUTByte.java and
    LUTShort.java are not part of this model: a table is a value that records
    the arguments it was constructed with and the operations applied to it
    (adjustOutBits, combine, inverse), so that the factory's choices of which
    tables to build and how to chain them can be stated exactly. */
module Luts {
  import opened JavaTypes
  import opened StoredValues

  /** Where a synthesised linear ramp sits on its input axis. */
  datatype Extent =
    /** An offset and a size given as integers. */
    | Span(offset: int, size: int)
    /** The offset and size derived, in float arithmetic, from a window
        center and width and the rescale slope and intercept. */
    | Window(center: real, width: real, slope: real, intercept: real)

  datatype Lut =
    /** `new LUTShort(inBits, outBits, offset, data)`: a decoded 16-bit table. */
    | LutShort(inBits: StoredValue, outBits: int, offset: int, shorts: seq<int16>)
    /** `new LUTByte(inBits, outBits, offset, data)`: a decoded 8-bit table. */
    | LutByte(inBits: StoredValue, outBits: int, offset: int, bytes: seq<int8>)
    /** `new LUTShort(inBits, outBits, offset, size)`: a linear ramp with 16-bit entries. */
    | RampShort(inBits: StoredValue, outBits: int, extent: Extent)
    /** `new LUTByte(inBits, outBits, offset, size)`: a linear ramp with 8-bit entries. */
    | RampByte(inBits: StoredValue, outBits: int, extent: Extent)
    /** `source.adjustOutBits(outBits)`. */
    | Adjusted(source: Lut, outBits: int)
    /** `first.combine(next)`: look up `first`, then feed its output to `next`. */
    | Combined(first: Lut, next: Lut)
    /** `table.inverse()`. */
    | Inverted(table: Lut)
  {
    /** A table decoded from a LUT Data attribute. */
    predicate IsTable() {
      LutShort? || LutByte?
    }
  }

  /** The bit depth of a table's output. `adjustOutBits(b)` yields depth `b`,
      a composition has the depth of its second stage and inversion keeps it. */
  function OutBits(lut: Lut): int {
    match lut
    case LutShort(_, b, _, _) => b
    case LutByte(_, b, _, _) => b
    case RampShort(_, b, _) => b
    case RampByte(_, b, _) => b
    case Adjusted(_, b) => b
    case Combined(_, next) => OutBits(next)
    case Inverted(t) => OutBits(t)
  }

  /** The stored-value domain a table is indexed by. A composition is indexed
      by the domain of its first stage; adjusting and inverting keep the domain. */
  function InputDomain(lut: Lut): StoredValue {
    match lut
    case LutShort(d, _, _, _) => d
    case LutByte(d, _, _, _) => d
    case RampShort(d, _, _) => d
    case RampByte(d, _, _) => d
    case Adjusted(s, _) => InputDomain(s)
    case Combined(first, _) => InputDomain(first)
    case Inverted(t) => InputDomain(t)
  }

  /** A linear ramp, stored with 16-bit entries exactly when more than 8 output bits are asked for. */
  function Ramp(inBits: StoredValue, outBits: int, extent: Extent): (lut: Lut)
    ensures OutBits(lut) == outBits && InputDomain(lut) == inBits
  {
    if outBits > 8 then RampShort(inBits, outBits, extent) else RampByte(inBits, outBits, extent)
  }

  /** `lut` preceded by the modality table when there is one. */
  function AfterModality(modality: Option<Lut>, lut: Lut): (r: Lut)
    ensures OutBits(r) == OutBits(lut)
    ensures modality.Some? ==> InputDomain(r) == InputDomain(modality.value)
    ensures modality.None? ==> r == lut
  {
    if modality.Some? then Combined(modality.value, lut) else lut
  }
}
