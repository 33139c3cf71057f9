/** Java's fixed-width integers, its `null`, and the integer operations of the
    factory whose Java meaning differs from Dafny's unbounded, Euclidean arithmetic. */
module JavaTypes {

  /** A Java reference that may be `null`. */
  datatype Option<+T> = None | Some(value: T)

  const MinInt: int := -0x8000_0000
  const MaxInt: int := 0x7FFF_FFFF

  /** Java `byte`, `short` and `int`. */
  type int8 = x: int | -0x80 <= x < 0x80
  type int16 = x: int | -0x8000 <= x < 0x8000
  type int32 = x: int | -0x8000_0000 <= x < 0x8000_0000

  /** The result of Java `int` arithmetic on an exact value `x`: two's-complement wrap-around. */
  function Wrap32(x: int): (r: int32)
    ensures (x - r) % 0x1_0000_0000 == 0
    ensures MinInt <= x <= MaxInt ==> r == x
  {
    var q := (x + 0x8000_0000) / 0x1_0000_0000;
    assert x - ((x + 0x8000_0000) % 0x1_0000_0000 - 0x8000_0000) == q * 0x1_0000_0000;
    (x + 0x8000_0000) % 0x1_0000_0000 - 0x8000_0000
  }

  /** The Java cast `(short) x`: keeps the low 16 bits, read as a signed number. */
  function ToShort(x: int): (r: int16)
    ensures (x - r) % 0x1_0000 == 0
    ensures -0x8000 <= x < 0x8000 ==> r == x
  {
    var q := (x + 0x8000) / 0x1_0000;
    assert x - ((x + 0x8000) % 0x1_0000 - 0x8000) == q * 0x1_0000;
    (x + 0x8000) % 0x1_0000 - 0x8000
  }

  /** The Java cast `(byte) x`: keeps the low 8 bits, read as a signed number. */
  function ToByte(x: int): (r: int8)
    ensures (x - r) % 0x100 == 0
  {
    var q := (x + 0x80) / 0x100;
    assert x - ((x + 0x80) % 0x100 - 0x80) == q * 0x100;
    (x + 0x80) % 0x100 - 0x80
  }

  /** Java's `x / 2` on `int`, which rounds toward zero (Dafny's `/` rounds down). */
  function Half(x: int): (q: int)
    ensures x >= 0 ==> 0 <= x - 2 * q <= 1
    ensures x < 0 ==> -1 <= x - 2 * q <= 0
  {
    if x >= 0 then x / 2 else -((-x) / 2)
  }
}
