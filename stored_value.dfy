/** The stored-value domain of a pixel or a table input: a bit depth and a
    signedness, with the conversion of a raw Java integer into that domain.
    StoredValue.java is not part of this model; these definitions follow the
    contract the factory relies on (mask to the bit depth, sign-extend when signed). */
module StoredValues {

  function Pow2(n: nat): (r: nat)
    ensures r >= 1
  {
    if n == 0 then 1 else 2 * Pow2(n - 1)
  }

  lemma {:induction false} Pow2AtMost16(n: nat)
    requires n <= 16
    ensures Pow2(n) <= 0x1_0000
    decreases 16 - n
  {
    if n < 16 {
      Pow2AtMost16(n + 1);
    } else {
      assert Pow2(4) == 16;
      assert Pow2(8) == 256;
      assert Pow2(12) == 4096;
    }
  }

  datatype StoredValue = Signed(bits: int) | Unsigned(bits: int) {

    /** A pixel domain has 1 to 16 bits. Table stages built from a descriptor
        may record any bit count; only their recorded value is used. */
    predicate WellFormed() {
      1 <= bits <= 16
    }

    function MinValue(): (r: int)
      requires WellFormed()
      ensures -0x8000 <= r <= 0
      ensures Signed? ==> r == -(Pow2(bits - 1) as int)
      ensures Unsigned? ==> r == 0
    {
      Pow2AtMost16(bits);
      if Signed? then -(Pow2(bits - 1) as int) else 0
    }

    /** The largest representable value; the range holds exactly 2^bits values. */
    function MaxValue(): (r: int)
      requires WellFormed()
      ensures 0 <= r < 0x1_0000
      ensures Signed? ==> r == Pow2(bits - 1) - 1
      ensures r - MinValue() + 1 == Pow2(bits)
    {
      Pow2AtMost16(bits);
      if Signed? then Pow2(bits - 1) - 1 else Pow2(bits) - 1
    }

    /** `valueOf(raw)`: the one value of the domain that agrees with `raw` in its low `bits` bits. */
    function ValueOf(raw: int): (v: int)
      requires WellFormed()
      ensures MinValue() <= v <= MaxValue()
      ensures (raw - v) % Pow2(bits) == 0
    {
      var p := Pow2(bits);
      var m := raw % p;
      assert raw - m == (raw / p) * p;
      assert (raw - m) % p == 0 by { MultipleMod(raw / p, p); }
      if Signed? && m >= Pow2(bits - 1) then
        assert raw - (m - p) == (raw / p + 1) * p;
        MultipleMod(raw / p + 1, p);
        m - p
      else
        m
    }
  }

  /** A stored-value domain that can describe pixels. */
  type PixelDomain = sv: StoredValue | sv.WellFormed() witness Unsigned(8)

  lemma {:induction false} MulAtLeast(a: int, p: int)
    requires a >= 1 && p > 0
    ensures a * p >= p
  {
    if a > 1 {
      MulAtLeast(a - 1, p);
      assert a * p == (a - 1) * p + p;
    }
  }

  lemma MultipleMod(k: int, p: int)
    requires p > 0
    ensures (k * p) % p == 0
  {
    var r := (k * p) % p;
    var q := (k * p) / p;
    assert k * p == q * p + r;
    var t := k - q;
    assert t * p == k * p - q * p;
    assert t * p == r;
    if t >= 1 {
      MulAtLeast(t, p);
    } else if t <= -1 {
      MulAtLeast(-t, p);
    }
  }

  /** Converting a value that already lies in the domain leaves it unchanged,
      so `ValueOf` is a projection onto the domain. */
  lemma ValueOfFixesDomain(sv: PixelDomain, x: int)
    requires sv.MinValue() <= x <= sv.MaxValue()
    ensures sv.ValueOf(x) == x
  {
    var v := sv.ValueOf(x);
    SmallMultipleIsZero(x - v, Pow2(sv.bits));
  }

  lemma SmallMultipleIsZero(d: int, p: int)
    requires p > 0 && -p < d < p && d % p == 0
    ensures d == 0
  {
    var t := d / p;
    assert d == t * p;
    if t >= 1 {
      MulAtLeast(t, p);
    } else if t <= -1 {
      MulAtLeast(-t, p);
    }
  }
}
