/** Oscillator calibration: the step computed from the measured and the
    theoretical duration of the reference stream. */
module OscTrim {
  import opened CInt
  import opened Calibration

  /** Gap between the two durations, in the code's unsigned arithmetic. */
  function Gap(theory: uint32, actual: uint32): uint32 {
    if theory < actual then actual - theory else theory - actual
  }

  /** The two guards: at most 2 percent apart, at least 0.1 percent apart. */
  predicate Calibratable(theory: uint32, actual: uint32) {
    theory != actual && U32(10 * theory) / 10000 <= Gap(theory, actual) <= theory / TRIM_PARAM
  }

  /** Durations for which the code's divisors are non-zero and 10x and 24x fit. */
  predicate Divisible(theory: uint32) {
    100000 <= theory && 24 * theory < 0x1_0000_0000
  }

  /** Tenths of a step when the chip ran slow: the product wraps at 32 bits. */
  function SlowTenths(theory: uint32, actual: uint32): int
    requires Divisible(theory)
  {
    U32(100000 * Gap(theory, actual)) / U32(theory * CALI_ACCURACY)
  }

  /** Tenths of a step when the chip ran fast: the divisor is rounded first. */
  function FastTenths(theory: uint32, actual: uint32): int
    requires Divisible(theory)
  {
    Gap(theory, actual) / (theory / 100000) / CALI_ACCURACY
  }

  /** The guards in products: the gap is at least a thousandth of the theoretical time,
      rounded down, and at most a fiftieth. */
  lemma CalibratableIff(theory: uint32, actual: uint32)
    requires 10 * theory < 0x1_0000_0000
    ensures var gap := if theory < actual then actual - theory else theory - actual;
            Calibratable(theory, actual) <==> gap != 0 && theory < 1000 * (gap + 1) && 50 * gap <= theory
  {
    assert U32(10 * theory) / 10000 == theory / 1000;
  }

  /** The signed step on the other chips. */
  function OscStep(theory: uint32, actual: uint32): int
    requires Divisible(theory)
  {
    if theory < actual then RoundTenths(SlowTenths(theory, actual)) else -RoundTenths(FastTenths(theory, actual))
  }

  /** lra_trim_code for the signed step r. */
  function OscData(r: int, b: Boundary): uint32 {
    U32(if r >= 0 then r else r + 2 * b)
  }

  lemma OscFieldHoldsStep(r: int, b: Boundary)
    ensures SignedField(TrimField(OscData(r, b), b), b) == r <==> InField(r, b)
  {
    var x := if r >= 0 then r else r + 2 * b;
    ModDrop(x, -0x100_0000 * (x / 0x1_0000_0000));
    assert OscData(r, b) == x + 256 * (-0x100_0000 * (x / 0x1_0000_0000));
    DropU8(OscData(r, b), b);
    BaseMod(r, b, x);
    SignedMod(r, b);
  }

  // -------------------------------------------------- chips with a 24 divisor

  /** Every measurement that passes the guards gives a step in [-17, 8], so no field
      is too narrow for it, even where the slow product wraps. */
  lemma OscStepRange(theory: uint32, actual: uint32, b: Boundary)
    requires Divisible(theory) && Calibratable(theory, actual)
    ensures -17 <= OscStep(theory, actual) <= 8
    ensures SignedField(TrimField(OscData(OscStep(theory, actual), b), b), b) == OscStep(theory, actual)
  {
    if theory < actual {
      SlowRange(theory, Gap(theory, actual));
    } else {
      FastRange(theory, Gap(theory, actual));
    }
    OscFieldHoldsStep(OscStep(theory, actual), b);
  }

  lemma SlowRange(theory: int, d: int)
    requires 100000 <= theory && 24 * theory < 0x1_0000_0000 && 0 <= d <= theory / TRIM_PARAM
    ensures 0 <= U32(100000 * d) / U32(theory * CALI_ACCURACY) <= 83
  {
    var a, w := 100000 * d, theory * CALI_ACCURACY;
    assert U32(w) == w;
    assert U32(a) <= a;
    DivBelow(U32(a), w, 84);
    DivAtLeast(U32(a), w, 0);
  }

  lemma FastRange(theory: int, d: int)
    requires 100000 <= theory && 0 <= d <= theory / TRIM_PARAM
    ensures 0 <= d / (theory / 100000) / CALI_ACCURACY <= 166
  {
    var k := theory / 100000;
    DivBelow(d, k, 4000);
    DivAtLeast(d, k, 0);
  }

  /** Both ends of the range are reached. */
  lemma OscStepRangeTight()
    ensures Divisible(199999) && Calibratable(199999, 196001) && OscStep(199999, 196001) == -17
    ensures Divisible(100000) && Calibratable(100000, 102000) && OscStep(100000, 102000) == 8
  {
  }

  /** The slow side computes floor(100000 gap / (24 theory)) exactly when the gap is
      at most 42949, the last one whose product fits 32 bits. */
  lemma SlowExactIff(theory: uint32, actual: uint32)
    requires Divisible(theory) && theory < actual
    ensures SlowTenths(theory, actual) == 100000 * Gap(theory, actual) / (theory * CALI_ACCURACY)
            <==> Gap(theory, actual) <= 42949
  {
    var a, w, m := 100000 * Gap(theory, actual), theory * CALI_ACCURACY, 0x1_0000_0000;
    assert U32(w) == w;
    if Gap(theory, actual) > 42949 {
      assert a % m <= a - m;
      DivAtLeast(a, w, (a - m) / w + 1) by {
        assert ((a - m) / w + 1) * w == (a - m) / w * w + w;
      }
      QuotientMono(a % m, a - m, w);
    }
  }

  lemma QuotientMono(x: int, y: int, w: int)
    requires w > 0 && 0 <= x <= y
    ensures x / w <= y / w
  {
    DivAtLeast(y, w, x / w);
  }

  /** Beyond it the trim is wrong inside the accepted 2 percent: a 5 s stream that ran
      43 ms slow needs four steps and gets none. */
  lemma SlowWrapLosesTrim()
    ensures Divisible(5000000) && Calibratable(5000000, 5043000)
    ensures OscStep(5000000, 5043000) == 0
    ensures RoundTenths(100000 * 43000 / (5000000 * CALI_ACCURACY)) == 4
  {
  }

  /** Below that gap the slow step is within six tenths of 100000 gap / (24 theory). */
  lemma SlowStepNearExact(theory: uint32, actual: uint32)
    requires Divisible(theory) && theory < actual && actual - theory <= 42949
    ensures var r, width := OscStep(theory, actual), 24 * theory;
            -6 * width < 10 * r * width - 100000 * (actual - theory) < 6 * width
  {
    SlowExactIff(theory, actual);
    RoundedQuotientNear(100000 * (actual - theory), theory * CALI_ACCURACY);
  }

  /** The fast tenths are the exact ones rounded down, plus what the rounded divisor adds:
      that excess vanishes for multiples of 100 ms and is bounded by the remainder. */
  lemma FastTenthsNearExact(theory: uint32, actual: uint32)
    requires Divisible(theory) && actual < theory
    ensures var gap, k, width := theory - actual, theory / 100000, 24 * theory;
            var over := FastTenths(theory, actual) * width - 100000 * gap;
            -width < over && k * over <= gap * (theory % 100000)
  {
    var gap, k, t := theory - actual, theory / 100000, FastTenths(theory, actual);
    NestedDiv(gap, k, CALI_ACCURACY);
    DivTwice(gap, k * 24, t);
    FastExcess(gap, k, theory % 100000, t);
  }

  lemma DivTwice(x: int, w: int, q: int)
    requires 0 < w && q == x / w
    ensures q * w <= x < (q + 1) * w
  {
  }

  lemma FastExcess(gap: int, k: int, rest: int, t: int)
    requires 0 <= gap && 0 < k && 0 <= rest && 0 <= t && t * (k * 24) <= gap < (t + 1) * (k * 24)
    ensures var theory := 100000 * k + rest;
            -(24 * theory) < t * (24 * theory) - 100000 * gap
            && k * (t * (24 * theory) - 100000 * gap) <= gap * rest
  {
    var theory := 100000 * k + rest;
    assert (t + 1) * (24 * theory) == 100000 * ((t + 1) * (k * 24)) + 24 * ((t + 1) * rest);
    MulMono(0, t + 1, rest);
    assert t * (24 * theory) == 100000 * (t * (k * 24)) + 24 * (t * rest);
    MulMono(t * (k * 24), gap, 100000 * k);
    assert k * (24 * (t * rest)) == t * (k * 24) * rest;
    MulMono(t * (k * 24), gap, rest);
    assert k * (t * (24 * theory) - 100000 * gap)
        == 100000 * k * (t * (k * 24)) + t * (k * 24) * rest - 100000 * k * gap by {
      assert k * (100000 * (t * (k * 24))) == 100000 * k * (t * (k * 24));
      assert k * (100000 * gap) == 100000 * k * gap;
      Distribute(k, 100000 * (t * (k * 24)), 24 * (t * rest), 100000 * gap);
    }
  }

  lemma Distribute(k: int, a: int, b: int, c: int)
    ensures k * (a + b - c) == k * a + k * b - k * c
  {
  }

  /** For a theoretical time that is a multiple of 100 ms the two sides agree: equal
      gaps give opposite steps, up to where the slow side wraps. */
  lemma SidesAgree(theory: uint32, d: uint32)
    requires Divisible(theory) && theory % 100000 == 0 && 0 < d <= 42949 && d <= theory
    requires theory + d < 0x1_0000_0000
    ensures OscStep(theory, theory + d) == -OscStep(theory, theory - d)
  {
    SlowExactIff(theory, theory + d);
    var k := theory / 100000;
    NestedDiv(d, k, CALI_ACCURACY);
    ScaledDiv(d, k * CALI_ACCURACY);
  }

  lemma NestedDiv(d: int, k: int, c: int)
    requires 0 <= d && 0 < k && 0 < c && 0 < k * c
    ensures d / k / c == d / (k * c)
  {
    var q := d / k / c;
    var m := d / k;
    assert q * c <= m < (q + 1) * c;
    MulMono(q * c, m, k);
    MulMono(m + 1, (q + 1) * c, k);
    assert q * (k * c) == q * c * k && (q + 1) * (k * c) == (q + 1) * c * k;
    assert m * k <= d < (m + 1) * k;
    DivIs(d, k * c, q);
  }

  lemma ScaledDiv(d: int, w: int)
    requires 0 <= d && 0 < w
    ensures 100000 * d / (100000 * w) == d / w
  {
    var q := d / w;
    assert q * w <= d < (q + 1) * w;
    assert q * (100000 * w) == 100000 * (q * w) && (q + 1) * (100000 * w) == 100000 * ((q + 1) * w);
    DivIs(100000 * d, 100000 * w, q);
  }

  // ------------------------------------------------------------ 8693XS family

  /** The factory trim as the driver decodes the fuse byte. */
  function FuseTrim(fuse: byte): int {
    if fuse > 128 then fuse - 256 else fuse
  }

  /** It is the two's-complement reading of every byte but 0x80. */
  lemma FuseTrimIsSignedIff(fuse: byte)
    ensures FuseTrim(fuse) == SignedField(fuse, 0x80) <==> fuse != 0x80
  {
  }

  function XsStep(theory: uint32, actual: uint32, s: int): int
    requires actual > 0
  {
    RoundTenths(XsTenths(theory, actual, s))
  }

  /** The step is within six tenths of the exact quotient of the 8693XS formula. */
  lemma XsStepNearExact(theory: uint32, actual: uint32, s: int)
    requires actual > 0
    ensures var r, width := XsStep(theory, actual, s), 22 * actual;
            -6 * width < 10 * r * width - 10 * (theory * (10000 + 22 * s) - 10000 * actual) < 6 * width
  {
    RoundedQuotientNear(10 * (theory * (10000 + s * XS_CALI_ACCURACY) - 10000 * actual), actual * XS_CALI_ACCURACY);
  }

  /** How far apart accepted durations can be, as products. */
  lemma GapProducts(theory: uint32, actual: uint32)
    requires Calibratable(theory, actual)
    ensures actual > 0 && 49 * theory <= 50 * actual <= 51 * theory
  {
  }

  /** A factory trim in [-121, 115] keeps every accepted measurement in 8 bits. */
  lemma XsStepFits(theory: uint32, actual: uint32, s: int)
    requires Calibratable(theory, actual) && -121 <= s <= 115
    ensures actual > 0 && InField(XsStep(theory, actual, s), 0x80)
  {
    GapProducts(theory, actual);
    MulMono(s, 115, theory);
    MulMono(-121, s, theory);
    BetweenLimits(theory, actual, s * theory);
    XsFitsIff(theory, actual, s);
  }

  lemma BetweenLimits(theory: int, actual: int, p: int)
    requires actual > 0 && 49 * theory <= 50 * actual <= 51 * theory && -121 * theory <= p <= 115 * theory
    ensures 71730 * actual < 100000 * theory + 220 * p < 128050 * actual
  {
  }

  lemma XsStepWraps(s: int) returns (theory: uint32, actual: uint32)
    requires -127 <= s <= 128 && (s < -121 || 115 < s)
    ensures Calibratable(theory, actual) && actual > 0 && !InField(XsStep(theory, actual, s), 0x80)
  {
    theory := 5000000;
    actual := if s < 0 then 5100000 else 4900000;
    XsFitsIff(theory, actual, s);
  }

  /** Exactly which factory trims make the 8-bit encoding safe for every measurement. */
  lemma XsOscTrimSafeIff(s: int)
    requires -127 <= s <= 128
    ensures (forall theory: uint32, actual: uint32 :: Calibratable(theory, actual) && actual > 0 ==>
               SignedField(TrimField(OscData(XsStep(theory, actual, s), 0x80), 0x80), 0x80) == XsStep(theory, actual, s))
            <==> -121 <= s <= 115
  {
    if -121 <= s <= 115 {
      forall theory: uint32, actual: uint32 | Calibratable(theory, actual) && actual > 0
        ensures SignedField(TrimField(OscData(XsStep(theory, actual, s), 0x80), 0x80), 0x80) == XsStep(theory, actual, s)
      {
        XsStepFits(theory, actual, s);
        OscFieldHoldsStep(XsStep(theory, actual, s), 0x80);
      }
    } else {
      var theory, actual := XsStepWraps(s);
      OscFieldHoldsStep(XsStep(theory, actual, s), 0x80);
    }
  }

  /** Within 13 steps of the factory trim, for every trim in the safe range. */
  lemma XsStepNearFactory(theory: uint32, actual: uint32, s: int)
    requires Calibratable(theory, actual) && -121 <= s <= 115
    ensures actual > 0 && -13 < XsStep(theory, actual, s) - s < 13
  {
    GapProducts(theory, actual);
    var t := XsTenths(theory, actual, s);
    XsCloseUp(theory, actual, s);
    RoundTenthsNear(t);
  }

  lemma XsCloseUp(theory: uint32, actual: uint32, s: int)
    requires actual > 0 && 49 * theory <= 50 * actual <= 51 * theory && -121 <= s <= 115
    ensures 10 * s - 124 <= XsTenths(theory, actual, s) <= 10 * s + 124
  {
    var a, w := 10 * (theory * (10000 + s * XS_CALI_ACCURACY) - 10000 * actual), actual * XS_CALI_ACCURACY;
    XsNumerator(theory, actual, s);
    var e := theory - actual;
    assert s * theory == s * actual + s * e;
    assert a == 10 * s * w + (100000 + 220 * s) * e by {
      assert 10 * s * (actual * 22) == 220 * (s * actual);
      assert (100000 + 220 * s) * e == 100000 * e + 220 * (s * e);
    }
    DeviationBound(actual, s, e);
    QuotientNear(a, w, 10 * s, 124);
  }

  lemma DeviationBound(actual: int, s: int, e: int)
    requires actual > 0 && -121 <= s <= 115 && -51 * e <= actual && 49 * e <= actual
    ensures -124 * (actual * XS_CALI_ACCURACY) < (100000 + 220 * s) * e < 124 * (actual * XS_CALI_ACCURACY)
  {
    var c := 100000 + 220 * s;
    if e >= 0 {
      MulMono(c, 125300, e);
      MulMono(0, c, e);
    } else {
      MulMono(c, 125300, -e);
      MulMono(0, c, -e);
      assert c * e == -(c * -e);
    }
  }

  lemma QuotientNear(a: int, w: int, c: int, k: int)
    requires w > 0 && k > 0 && -k * w < a - c * w < k * w
    ensures c - k <= TruncDiv(a, w) <= c + k
  {
    assert (c - k) * w < a < (c + k) * w;
    if a >= 0 {
      DivBelow(a, w, c + k);
      if c - k > 0 { DivAtLeast(a, w, c - k); }
      DivAtLeast(a, w, 0);
    } else {
      assert -a < (k - c) * w by { assert (k - c) * w == -((c - k) * w); }
      DivBelow(-a, w, k - c);
      if c + k < 0 {
        assert (-c - k) * w == -((c + k) * w);
        DivAtLeast(-a, w, -c - k);
      }
      DivAtLeast(-a, w, 0);
    }
  }
}
