/** Resonance (F0) and oscillator calibration: from a measurement to the signed
    step, and from the step to the trim field the chip reads back. */
module Calibration {
  import opened CInt

  const CALI_ACCURACY := 24      // AW_OSC_CALI_ACCURACY
  const XS_CALI_ACCURACY := 22   // AW8693XS_OSC_CALI_ACCURACY
  const TRIM_PARAM := 50         // AW_OSC_TRIM_PARAM

  /** trim_lra_boundary: half the width of the trim field. */
  type Boundary = b: int | b == 0x20 || b == 0x40 || b == 0x80 witness 0x20

  // ---------------------------------------------------------------- rounding

  /** Tenths of a step to the nearest step, halves away from zero. */
  function RoundTenths(t: int): int {
    var q, m := TruncDiv(t, 10), TruncMod(t, 10);
    if t >= 0 then (if m >= 5 then q + 1 else q)
    else (if m <= -5 then q - 1 else q)
  }

  lemma RoundTenthsNear(t: int)
    ensures -5 <= 10 * RoundTenths(t) - t <= 5
    ensures t >= 0 ==> 10 * RoundTenths(t) - t > -5
    ensures t < 0 ==> 10 * RoundTenths(t) - t < 5
  {
  }

  lemma RoundTenthsMono(t1: int, t2: int)
    requires t1 <= t2
    ensures RoundTenths(t1) <= RoundTenths(t2)
  {
    RoundTenthsNear(t1);
    RoundTenthsNear(t2);
  }

  // ---------------------------------------------------------- the trim field

  /** The driver's offset encoding of the step r, as stored in f0_cali_data. */
  function CaliData(r: int, b: Boundary, charSigned: bool): uint32 {
    var step := b + r;
    var lra := if step >= b then Char(Char(step, charSigned) - b, charSigned)
               else Char(Char(step, charSigned) + b, charSigned);
    U32(lra)
  }

  /** The chip's field of width 2b after upload_lra wrote the low bits. */
  function TrimField(data: uint32, b: Boundary): int {
    U8(data) % (2 * b)
  }

  /** The field read as a two's-complement number of its own width. */
  function SignedField(field: int, b: Boundary): int {
    if field >= b then field - 2 * b else field
  }

  predicate InField(r: int, b: int) {
    -b <= r < b
  }

  lemma ModDrop(x: int, k: int)
    ensures (x + 256 * k) % 256 == x % 256
    ensures (x + 256 * k) % 128 == x % 128
    ensures (x + 256 * k) % 64 == x % 64
  {
    DivIs(x + 256 * k, 256, x / 256 + k);
    DivIs(x + 256 * k, 128, x / 128 + 2 * k);
    DivIs(x + 256 * k, 64, x / 64 + 4 * k);
  }

  /** char drops multiples of 256. */
  lemma CharIsShift(x: int, charSigned: bool) returns (k: int)
    ensures Char(x, charSigned) == x + 256 * k
  {
    k := if charSigned && U8(x) >= 128 then -(x / 256) - 1 else -(x / 256);
  }

  lemma U32IsShift(x: int) returns (k: int)
    ensures U32(x) == x + 0x1_0000_0000 * k
  {
    k := -(x / 0x1_0000_0000);
  }

  lemma CaliDataModWidth(r: int, b: Boundary, charSigned: bool)
    ensures TrimField(CaliData(r, b, charSigned), b) == r % (2 * b)
  {
    var step := b + r;
    var k := CharIsShift(step, charSigned);
    var x := if step >= b then Char(step, charSigned) - b else Char(step, charSigned) + b;
    var m := CharIsShift(x, charSigned);
    var data := CaliData(r, b, charSigned);
    var n := U32IsShift(Char(x, charSigned));
    var base := if step >= b then r else r + 2 * b;
    assert data == base + 256 * (k + m + 0x100_0000 * n);
    ModDrop(base, k + m + 0x100_0000 * n);
    DropU8(data, b);
    BaseMod(r, b, base);
  }

  lemma DropU8(x: int, b: Boundary)
    ensures U8(x) % (2 * b) == x % (2 * b)
  {
    ModDrop(U8(x), x / 256);
  }

  lemma BaseMod(r: int, b: Boundary, base: int)
    requires base == r || base == r + 2 * b
    ensures base % (2 * b) == r % (2 * b)
  {
    DivIs(r + 2 * b, 2 * b, r / (2 * b) + 1);
  }

  /** The uploaded field carries the step exactly when the step is in the field's
      signed range, whichever signedness the compiler gives char. */
  lemma FieldHoldsStep(r: int, b: Boundary, charSigned: bool)
    ensures SignedField(TrimField(CaliData(r, b, charSigned), b), b) == r <==> InField(r, b)
  {
    CaliDataModWidth(r, b, charSigned);
    SignedMod(r, b);
  }

  lemma SignedMod(r: int, b: Boundary)
    ensures SignedField(r % (2 * b), b) == r <==> InField(r, b)
  {
    if 0 <= r + b && r < 0 { DivIs(r, 2 * b, -1); }
    if 0 <= r < b { DivIs(r, 2 * b, 0); }
  }

  // ------------------------------------------------------------ F0 trim step

  /** The F0 step in tenths on the chips other than the 8693XS family. */
  function F0Tenths(f0: int, pre: int): int
    requires pre > 0
  {
    TruncDiv(100000 * (f0 - pre), pre * CALI_ACCURACY)
  }

  /** AW8693XS_CALI_DATA_FORMULA, and the same formula on durations: how the 8693XS
      family gets tenths of a step from a nominal and a measured value and the factory
      trim s. */
  function XsTenths(nominal: int, measured: int, s: int): int
    requires measured > 0
  {
    TruncDiv(10 * (nominal * (10000 + s * XS_CALI_ACCURACY) - 10000 * measured), measured * XS_CALI_ACCURACY)
  }

  /** The step is within six tenths of the exact value 100000(f0-pre)/(24 pre). */
  lemma F0StepNearExact(f0: int, pre: int)
    requires pre > 0
    ensures var r, width := RoundTenths(F0Tenths(f0, pre)), pre * CALI_ACCURACY;
            -6 * width < 10 * r * width - 100000 * (f0 - pre) < 6 * width
  {
    RoundedQuotientNear(100000 * (f0 - pre), pre * CALI_ACCURACY);
  }

  lemma RoundedQuotientNear(a: int, b: int)
    requires b > 0
    ensures -6 * b < 10 * RoundTenths(TruncDiv(a, b)) * b - a < 6 * b
  {
    var t := TruncDiv(a, b);
    var r := RoundTenths(t);
    RoundTenthsNear(t);
    TruncError(a, b);
    ScaledSum(t, 10 * r - t, b);
  }

  lemma ScaledSum(t: int, e: int, b: int)
    requires b > 0 && -5 <= e <= 5
    ensures (t + e) * b == t * b + e * b
    ensures -5 * b <= e * b <= 5 * b
  {
  }

  lemma TruncError(a: int, b: int)
    requires b > 0
    ensures -b < TruncDiv(a, b) * b - a < b
  {
    if a < 0 {
      assert TruncDiv(a, b) * b == -((-a) / b * b);
    }
  }

  lemma F0StepMonotone(f1: int, f2: int, pre: int)
    requires pre > 0 && f1 <= f2
    ensures RoundTenths(F0Tenths(f1, pre)) <= RoundTenths(F0Tenths(f2, pre))
  {
    TruncDivMono(100000 * (f1 - pre), 100000 * (f2 - pre), pre * CALI_ACCURACY);
    RoundTenthsMono(F0Tenths(f1, pre), F0Tenths(f2, pre));
  }

  /** judge_cali_range on unsigned 32-bit arithmetic. */
  function F0Min(pre: uint32, percent: byte): uint32 {
    U32(pre * U32(100 - percent)) / 100
  }

  function F0Max(pre: uint32, percent: byte): uint32 {
    U32(pre * (100 + percent)) / 100
  }

  predicate Accepted(f0: uint32, pre: uint32, percent: byte) {
    F0Min(pre, percent) <= f0 <= F0Max(pre, percent)
  }

  /** The signed product of the step formula is defined. */
  predicate F0Fits(f0: uint32, pre: uint32) {
    FitsInt(100000 * (f0 - pre)) && FitsInt(pre * CALI_ACCURACY)
  }

  /** What f0_cali needs: the uploaded field is the rounded step. */
  predicate F0NoWrap(f0: uint32, pre: uint32, b: Boundary, charSigned: bool)
    requires pre > 0
  {
    var r := RoundTenths(F0Tenths(f0, pre));
    SignedField(TrimField(CaliData(r, b, charSigned), b), b) == r
  }

  /** The largest percentage whose window cannot overrun the field. */
  function SafePercent(b: Boundary): byte
    requires b != 0x80
  {
    if b == 0x20 then 7 else 15
  }

  lemma WindowBounds(pre: uint32, percent: byte)
    requires 1000 <= pre <= 130000 && percent <= 100
    ensures F0Min(pre, percent) == pre * (100 - percent) / 100
    ensures F0Max(pre, percent) == pre * (100 + percent) / 100
  {
    PercentOf(pre, 100 - percent);
    PercentOf(pre, 100 + percent);
    Fits32(100 - percent);
    Fits32(pre * (100 - percent));
    Fits32(pre * (100 + percent));
  }

  lemma Fits32(x: int)
    requires 0 <= x < 0x1_0000_0000
    ensures U32(x) == x
  {
  }

  lemma PercentOf(pre: int, k: int)
    requires 0 <= pre <= 130000 && 0 <= k <= 400
    ensures 0 <= pre * k <= 52000000
  {
    MulMono(pre, 130000, k);
  }

  /** The window of `percent`, scaled by 100, lies in the window of a larger p. */
  lemma WindowScaled(f0: uint32, pre: uint32, percent: byte, p: byte)
    requires 1000 <= pre <= 130000 && percent <= p <= 100
    requires Accepted(f0, pre, percent)
    ensures pre * (100 - p) - 100 < 100 * f0 <= pre * (100 + p)
  {
    WindowBounds(pre, percent);
    MulMono(100 - p, 100 - percent, pre);
    MulMono(100 + percent, 100 + p, pre);
  }

  lemma StepWithin(f0: int, pre: int, lo: int, hi: int)
    requires pre > 0 && lo <= 0 <= hi
    ensures F0Tenths(f0, pre) <= hi <==> 100000 * (f0 - pre) < (hi + 1) * (pre * CALI_ACCURACY)
    ensures lo <= F0Tenths(f0, pre) <==> (lo - 1) * (pre * CALI_ACCURACY) < 100000 * (f0 - pre)
  {
    TruncDivBounds(100000 * (f0 - pre), pre * CALI_ACCURACY, lo, hi);
  }

  /** Inside the window of a safe percentage the step stays in range. */
  lemma SafeWindowKeepsStep(f0: uint32, pre: uint32, percent: byte, b: Boundary)
    requires b != 0x80 && 1000 <= pre <= 130000 && percent <= SafePercent(b)
    requires Accepted(f0, pre, percent)
    ensures InField(RoundTenths(F0Tenths(f0, pre)), b)
  {
    WindowScaled(f0, pre, percent, SafePercent(b));
    if b == 0x20 {
      WindowStep7(f0, pre);
    } else {
      WindowStep15(f0, pre);
    }
    RoundTenthsNear(F0Tenths(f0, pre));
  }

  lemma WindowStep7(f0: int, pre: int)
    requires pre >= 1000 && pre * 93 - 100 < 100 * f0 <= pre * 107
    ensures -324 <= F0Tenths(f0, pre) <= 314
  {
    StepWithin(f0, pre, -324, 314);
  }

  lemma WindowStep15(f0: int, pre: int)
    requires pre >= 1000 && pre * 85 - 100 < 100 * f0 <= pre * 115
    ensures -644 <= F0Tenths(f0, pre) <= 634
  {
    StepWithin(f0, pre, -644, 634);
  }

  /** One percent more and an accepted, representable measurement wraps the field. */
  lemma UnsafeWindowWraps(pre: uint32, percent: byte, b: Boundary) returns (f0: uint32)
    requires b != 0x80 && 1000 <= pre <= 130000 && SafePercent(b) < percent <= 100
    ensures Accepted(f0, pre, percent) && F0Fits(f0, pre)
    ensures RoundTenths(F0Tenths(f0, pre)) >= b
  {
    var p := SafePercent(b) + 1;
    f0 := pre * (100 + p) / 100;
    AcceptedAbove(f0, pre, percent, p);
    if b == 0x20 {
      StepWithin(f0, pre, 0, 314);
    } else {
      StepWithin(f0, pre, 0, 634);
    }
    RoundTenthsNear(F0Tenths(f0, pre));
  }

  lemma AcceptedAbove(f0: uint32, pre: uint32, percent: byte, p: byte)
    requires 1000 <= pre <= 130000 && p <= percent <= 100
    requires f0 == pre * (100 + p) / 100
    ensures Accepted(f0, pre, percent)
  {
    WindowBounds(pre, percent);
    PercentMono(pre, 100 + p, 100 + percent);
    PercentMono(pre, 100 - percent, 100 + p);
  }

  lemma PercentMono(pre: int, j: int, k: int)
    requires 0 <= pre && j <= k
    ensures pre * j / 100 <= pre * k / 100
  {
    MulMono(j, k, pre);
    DivAtLeast(pre * k, 100, pre * j / 100);
  }

  /** A percentage above 100 makes the lower limit wrap and nothing is accepted. */
  lemma OverHundredRejectsAll(f0: uint32, pre: uint32, percent: byte)
    requires 1000 <= pre <= 130000 && percent > 100
    ensures !Accepted(f0, pre, percent)
  {
    var k := percent - 100;
    PercentOf(pre, k);
    MulMono(1, pre, k);
    WrappedProduct(pre, k);
    assert F0Min(pre, percent) == (0x1_0000_0000 - pre * k) / 100;
    PercentOf(pre, 100 + percent);
    Fits32(pre * (100 + percent));
  }

  lemma WrappedProduct(pre: int, k: int)
    requires 0 < k <= 255 && 0 < pre * k <= 52000000
    ensures U32(pre * U32(-k)) == 0x1_0000_0000 - pre * k
  {
    var m := 0x1_0000_0000;
    assert U32(-k) == m - k;
    assert pre * (m - k) == (pre - 1) * m + (m - pre * k);
    DivIs(pre * (m - k), m, pre - 1);
  }

  /** Which configured percentages can never produce a wrapped F0 trim. */
  lemma F0TrimSafeIff(pre: uint32, percent: byte, b: Boundary, charSigned: bool)
    requires 1000 <= pre <= 130000 && b != 0x80
    ensures (forall f0: uint32 :: Accepted(f0, pre, percent) && F0Fits(f0, pre) ==> F0NoWrap(f0, pre, b, charSigned))
            <==> percent <= SafePercent(b) || percent > 100
  {
    if percent > 100 {
      forall f0: uint32 ensures !Accepted(f0, pre, percent) { OverHundredRejectsAll(f0, pre, percent); }
    } else if percent <= SafePercent(b) {
      forall f0: uint32 | Accepted(f0, pre, percent)
        ensures F0NoWrap(f0, pre, b, charSigned)
      {
        SafeWindowKeepsStep(f0, pre, percent, b);
        FieldHoldsStep(RoundTenths(F0Tenths(f0, pre)), b, charSigned);
      }
    } else {
      var f0 := UnsafeWindowWraps(pre, percent, b);
      FieldHoldsStep(RoundTenths(F0Tenths(f0, pre)), b, charSigned);
      assert !F0NoWrap(f0, pre, b, charSigned);
    }
  }

  // ------------------------------------------------------------ 8693XS family

  /** The tenths are bounded by linear forms of the two values. */
  lemma XsTenthsBounds(nominal: int, measured: int, s: int, lo: int, hi: int)
    requires measured > 0 && lo <= 0 <= hi
    ensures XsTenths(nominal, measured, s) <= hi
            <==> 100000 * nominal + 220 * (s * nominal) < (100000 + 22 * (hi + 1)) * measured
    ensures lo <= XsTenths(nominal, measured, s)
            <==> (100000 + 22 * (lo - 1)) * measured < 100000 * nominal + 220 * (s * nominal)
  {
    var a, w := 10 * (nominal * (10000 + s * XS_CALI_ACCURACY) - 10000 * measured), measured * XS_CALI_ACCURACY;
    TruncDivBounds(a, w, lo, hi);
    XsNumerator(nominal, measured, s);
    XsDenominator(measured, hi + 1);
    XsDenominator(measured, lo - 1);
  }

  lemma XsNumerator(nominal: int, measured: int, s: int)
    ensures 10 * (nominal * (10000 + s * XS_CALI_ACCURACY) - 10000 * measured)
            == 100000 * nominal + 220 * (s * nominal) - 100000 * measured
  {
    assert nominal * (10000 + s * 22) == 10000 * nominal + 22 * (s * nominal);
  }

  lemma XsDenominator(measured: int, k: int)
    ensures k * (measured * XS_CALI_ACCURACY) + 100000 * measured == (100000 + 22 * k) * measured
  {
    assert (100000 + 22 * k) * measured == 100000 * measured + 22 * (k * measured);
    assert k * (measured * 22) == 22 * (k * measured);
  }

  /** The rounded step fits eight bits exactly between two linear limits. */
  lemma XsFitsIff(nominal: int, measured: int, s: int)
    requires measured > 0
    ensures InField(RoundTenths(XsTenths(nominal, measured, s)), 0x80)
            <==> 71730 * measured < 100000 * nominal + 220 * (s * nominal) < 128050 * measured
  {
    XsTenthsBounds(nominal, measured, s, -1284, 1274);
    RoundTenthsNear(XsTenths(nominal, measured, s));
  }

  predicate XsFits(f0: uint32, pre: uint32, s: int) {
    f0 > 0 && InField(RoundTenths(XsTenths(pre, f0, s)), 0x80)
  }

  lemma XsBetween(f0: uint32, lo: int, hi: int, pre: uint32, s: int)
    requires 0 < lo <= f0 <= hi
    requires 71730 * hi < 100000 * pre + 220 * (s * pre) < 128050 * lo
    ensures XsFits(f0, pre, s)
  {
    XsFitsIff(pre, f0, s);
  }

  /** Every accepted measurement fits exactly when both ends of the window do. */
  lemma XsWindowFitsIff(pre: uint32, percent: byte, s: int)
    requires 1000 <= pre <= 130000 && percent <= 99
    ensures (forall f0: uint32 :: Accepted(f0, pre, percent) ==> XsFits(f0, pre, s))
            <==> 71730 * F0Max(pre, percent) < 100000 * pre + 220 * (s * pre) < 128050 * F0Min(pre, percent)
  {
    var lo, hi, x := F0Min(pre, percent), F0Max(pre, percent), 100000 * pre + 220 * (s * pre);
    WindowIsProper(pre, percent);
    if 71730 * hi < x < 128050 * lo {
      forall f0: uint32 | Accepted(f0, pre, percent) ensures XsFits(f0, pre, s) {
        XsBetween(f0, lo, hi, pre, s);
      }
    } else {
      var f0 := if 71730 * hi < x then lo else hi;
      assert Accepted(f0, pre, percent);
      XsOutside(f0, pre, s);
    }
  }

  lemma XsOutside(f0: uint32, pre: uint32, s: int)
    requires f0 > 0 && !(71730 * f0 < 100000 * pre + 220 * (s * pre) < 128050 * f0)
    ensures !XsFits(f0, pre, s)
  {
    XsFitsIff(pre, f0, s);
  }

  lemma WindowIsProper(pre: uint32, percent: byte)
    requires 1000 <= pre <= 130000 && percent <= 99
    ensures 0 < F0Min(pre, percent) <= F0Max(pre, percent)
  {
    WindowBounds(pre, percent);
    PercentMono(pre, 1, 100 - percent);
    PercentMono(pre, 100 - percent, 100 + percent);
  }

  /** A ten percent window and a factory trim in [-95, 68] cannot wrap the F0 trim. */
  lemma XsWindowFits(f0: uint32, pre: uint32, percent: byte, s: int)
    requires 1000 <= pre <= 130000 && percent <= 10 && -95 <= s <= 68
    requires Accepted(f0, pre, percent)
    ensures f0 > 0 && InField(RoundTenths(XsTenths(pre, f0, s)), 0x80)
  {
    WindowScaled(f0, pre, percent, 10);
    MulMono(s, 68, pre);
    MulMono(-95, s, pre);
    WindowLimits(f0, pre, s * pre);
    XsFitsIff(pre, f0, s);
  }

  lemma WindowLimits(f0: int, pre: int, p: int)
    requires pre >= 1000 && pre * 90 - 100 < 100 * f0 <= pre * 110 && -95 * pre <= p <= 68 * pre
    ensures f0 > 0 && 71730 * f0 < 100000 * pre + 220 * p < 128050 * f0
  {
  }

  /** The divisor is non-zero and every signed product of the formula is defined. */
  predicate XsDefined(f0: uint32, pre: uint32, s: int) {
    && f0 > 0 && FitsInt(10000 * f0) && FitsInt(f0 * XS_CALI_ACCURACY)
    && FitsInt(pre * (10000 + s * XS_CALI_ACCURACY))
    && FitsInt(10 * (pre * (10000 + s * XS_CALI_ACCURACY) - 10000 * f0))
  }

  /** The uploaded field is the rounded step. */
  predicate XsNoWrap(f0: uint32, pre: uint32, s: int, charSigned: bool)
    requires f0 > 0
  {
    var r := RoundTenths(XsTenths(pre, f0, s));
    SignedField(TrimField(CaliData(r, 0x80, charSigned), 0x80), 0x80) == r
  }

  /** With a window of ten percent no accepted, representable measurement can wrap the F0
      trim, whatever the nominal frequency, exactly for the factory trims in [-95, 68]. */
  lemma XsTrimSafeIff(s: int, charSigned: bool)
    requires -127 <= s <= 128
    ensures (forall pre: uint32, f0: uint32 ::
               1000 <= pre <= 130000 && Accepted(f0, pre, 10) && XsDefined(f0, pre, s) ==> XsNoWrap(f0, pre, s, charSigned))
            <==> -95 <= s <= 68
  {
    if -95 <= s <= 68 {
      forall pre: uint32, f0: uint32 | 1000 <= pre <= 130000 && Accepted(f0, pre, 10)
        ensures f0 > 0 && XsNoWrap(f0, pre, s, charSigned)
      {
        XsWindowFits(f0, pre, 10, s);
        FieldHoldsStep(RoundTenths(XsTenths(pre, f0, s)), 0x80, charSigned);
      }
    } else {
      var pre, f0 := XsTrimWraps(s);
      FieldHoldsStep(RoundTenths(XsTenths(pre, f0, s)), 0x80, charSigned);
      assert !XsNoWrap(f0, pre, s, charSigned);
    }
  }

  lemma XsTrimWraps(s: int) returns (pre: uint32, f0: uint32)
    requires -127 <= s <= 128 && !(-95 <= s <= 68)
    ensures 1000 <= pre <= 130000 && Accepted(f0, pre, 10) && XsDefined(f0, pre, s) && !XsFits(f0, pre, s)
  {
    pre, f0 := if s < -95 then 1000 else 1001, if s < -95 then 1100 else 900;
    XsOutside(f0, pre, s);
  }
}
