/** The calibration entry points as they update the driver and the trim register. */
module CaliDriver {
  import opened CInt
  import opened Calibration
  import opened OscTrim

  const WRITE_ZERO := 0     // AW_WRITE_ZERO
  const F0_CALI_LRA := 1    // AW_F0_CALI_LRA
  const OSC_CALI_LRA := 2   // AW_OSC_CALI_LRA

  /** What get_f0 reports: a failed read, or a frequency. */
  datatype Measurement = Failed | F0(value: uint32)

  class Trimmer {
    const boundary: Boundary
    const charSigned: bool
    const pre: uint32        // info.f0_pre
    const percent: byte      // info.f0_cali_percent
    var oscTrimS: int
    var f0: uint32
    var f0CaliData: uint32
    var oscCaliData: uint32
    var trimReg: byte        // TRIMCFG2, TRIMCFG5 or TRIMCFG4, by boundary
    var fromRegister: bool   // 8693XS only: trim source is the register, not the fuse
    var standby: bool        // play_mode == AW_STANDBY_MODE

    /** The 8693XS family is the one with the 8-bit field. */
    predicate Xs() { boundary == 0x80 }

    /** Bits of the trim register outside the field. */
    function OtherBits(): int reads this { trimReg - trimReg % (2 * boundary) }

    function Field(): int reads this { trimReg % (2 * boundary) }

    constructor (boundary: Boundary, charSigned: bool, pre: uint32, percent: byte, s: int, reg: byte)
      ensures this.boundary == boundary && this.charSigned == charSigned
      ensures this.pre == pre && this.percent == percent && oscTrimS == s && trimReg == reg
    {
      this.boundary, this.charSigned, this.pre, this.percent := boundary, charSigned, pre, percent;
      oscTrimS, trimReg, f0, f0CaliData, oscCaliData := s, reg, 0, 0, 0;
      fromRegister, standby := false, true;
    }

    /** The masked write of the field: the low bits of data, the other bits kept. */
    method WriteField(data: byte)
      modifies this`trimReg
      ensures OtherBits() == old(OtherBits()) && Field() == data % (2 * boundary)
    {
      var width: int := 2 * boundary;
      assert width == 64 || width == 128 || width == 256;
      var kept: int := trimReg - trimReg % width;
      DivIs(kept + data % width, width, trimReg / width);
      trimReg := kept + data % width;
    }

    method UploadLra(flag: nat)
      modifies this`trimReg, this`fromRegister
      ensures OtherBits() == old(OtherBits())
      ensures flag == F0_CALI_LRA ==> Field() == TrimField(f0CaliData, boundary)
      ensures flag == OSC_CALI_LRA ==> Field() == TrimField(oscCaliData, boundary)
      ensures flag == WRITE_ZERO ==> Field() == if Xs() then old(Field()) else 0
      ensures flag > OSC_CALI_LRA ==> Field() == if Xs() then TrimField(f0CaliData, boundary) else old(Field())
      ensures fromRegister == if Xs() then flag != WRITE_ZERO else old(fromRegister)
    {
      if Xs() {
        fromRegister := true;
      }
      if flag == WRITE_ZERO {
        if Xs() { fromRegister := false; } else { WriteField(0); }
      } else if flag == F0_CALI_LRA {
        WriteField(U8(f0CaliData));
      } else if flag == OSC_CALI_LRA {
        WriteField(U8(oscCaliData));
      } else if Xs() {
        WriteField(U8(f0CaliData));
      }
    }

    /** The divisor is non-zero and the signed expression is defined. */
    predicate StepDefined(f: uint32)
      reads this
    {
      if Xs() then XsDefined(f, pre, oscTrimS) else pre > 0 && F0Fits(f, pre)
    }

    /** The step the family's formula gives, rounded. */
    function Step(f: uint32): int
      requires StepDefined(f)
      reads this
    {
      RoundTenths(if Xs() then XsTenths(pre, f, oscTrimS) else F0Tenths(f, pre))
    }

    /** The rounded step, offset by the boundary. */
    method OffsetStep(tenths: int) returns (step: int)
      ensures step == boundary + RoundTenths(tenths)
    {
      if tenths >= 0 {
        if TruncMod(tenths, 10) >= 5 {
          step := boundary + (TruncDiv(tenths, 10) + 1);
        } else {
          step := boundary + TruncDiv(tenths, 10);
        }
      } else {
        if TruncMod(tenths, 10) <= -5 {
          step := boundary + (TruncDiv(tenths, 10) - 1);
        } else {
          step := boundary + TruncDiv(tenths, 10);
        }
      }
    }

    method CalculateCaliData()
      requires StepDefined(f0)
      modifies this`f0CaliData
      ensures f0CaliData == CaliData(Step(f0), boundary, charSigned)
    {
      var step: int;
      if Xs() {
        step := XsTenths(pre, f0, oscTrimS);
      } else {
        step := F0Tenths(f0, pre);
      }
      step := OffsetStep(step);
      var lra: int;
      if step >= boundary {
        lra := Char(Char(step, charSigned) - boundary, charSigned);
      } else {
        lra := Char(Char(step, charSigned) + boundary, charSigned);
      }
      f0CaliData := U32(lra);
    }

    method JudgeCaliRange() returns (ret: int)
      ensures ret == 0 || ret == -ERANGE
      ensures ret == 0 <==> Accepted(f0, pre, percent)
    {
      var min, max := F0Min(pre, percent), F0Max(pre, percent);
      if f0 < min { return -ERANGE; }
      if f0 > max { return -ERANGE; }
      return 0;
    }

    /** f0_cali. An accepted measurement leaves a field that reads back as the rounded
        step whenever the step is in range; a rejected one leaves the untrimmed field
        and, unlike the other two outcomes, no standby. */
    method F0Cali(m: Measurement) returns (ret: int)
      requires m.F0? && Accepted(m.value, pre, percent) ==> StepDefined(m.value)
      modifies this
      ensures OtherBits() == old(OtherBits()) && oscTrimS == old(oscTrimS) && oscCaliData == old(oscCaliData)
      ensures ret == 0 <==> (m.Failed? || Accepted(m.value, pre, percent))
      ensures standby <==> ret == 0
      ensures m.F0? && ret == 0 ==> f0 == m.value && StepDefined(f0)
      ensures m.F0? && ret == 0 ==> (SignedField(Field(), boundary) == Step(f0) <==> InField(Step(f0), boundary))
      ensures m.F0? && ret == 0 && !Xs() && 1000 <= pre <= 130000 && percent <= SafePercent(boundary)
              ==> SignedField(Field(), boundary) == RoundTenths(F0Tenths(f0, pre))
      ensures m.F0? && ret == 0 && Xs() && 1000 <= pre <= 130000 && percent <= 10 && -95 <= oscTrimS <= 68
              ==> SignedField(Field(), boundary) == Step(f0)
      ensures m.Failed? || ret != 0 ==> f0CaliData == old(f0CaliData) && (!Xs() ==> Field() == 0)
      ensures Xs() ==> (fromRegister <==> m.F0? && ret == 0)
    {
      UploadLra(WRITE_ZERO);
      standby := false;
      ret := 0;
      if m.F0? {
        f0 := m.value;
        ret := JudgeCaliRange();
        if ret < 0 {
          return -ERANGE;
        }
        CalculateCaliData();
        UploadLra(F0_CALI_LRA);
        FieldHoldsStep(Step(f0), boundary, charSigned);
        if !Xs() && 1000 <= pre <= 130000 && percent <= SafePercent(boundary) {
          SafeWindowKeepsStep(f0, pre, percent, boundary);
        }
        if Xs() && 1000 <= pre <= 130000 && percent <= 10 && -95 <= oscTrimS <= 68 {
          XsWindowFits(f0, pre, percent, oscTrimS);
        }
      }
      standby := true;
    }

    /** The signed step rtp_trim_lra_cali computes for this family. */
    function TrimStep(theory: uint32, actual: uint32): int
      requires Divisible(theory) && actual > 0
      reads this
    {
      if Xs() then XsStep(theory, actual, oscTrimS) else OscStep(theory, actual)
    }

    /** rtp_trim_lra_cali, from the two durations on. Outside the guards only the trim
        is zeroed; inside them the chip reads back the signed step. */
    method RtpTrimLraCali(theory: uint32, actual: uint32)
      requires Divisible(theory) && actual > 0
      modifies this`trimReg, this`fromRegister, this`oscCaliData
      ensures OtherBits() == old(OtherBits())
      ensures Calibratable(theory, actual) ==>
                (SignedField(Field(), boundary) == TrimStep(theory, actual) <==> InField(TrimStep(theory, actual), boundary))
      ensures Calibratable(theory, actual) && (Xs() ==> -121 <= oscTrimS <= 115) ==>
                SignedField(Field(), boundary) == TrimStep(theory, actual)
      ensures Calibratable(theory, actual) && !Xs() ==> -17 <= TrimStep(theory, actual) <= 8
      ensures Calibratable(theory, actual) && Xs() ==> fromRegister
      ensures !Calibratable(theory, actual) ==>
                oscCaliData == old(oscCaliData) && (!Xs() ==> Field() == 0) && (Xs() ==> !fromRegister)
    {
      UploadLra(WRITE_ZERO);
      var code: int;
      if theory == actual {
        return;
      } else if theory < actual {
        if actual - theory > theory / TRIM_PARAM { return; }
        if actual - theory < U32(10 * theory) / 10000 { return; }
        code := U32(100000 * (actual - theory)) / U32(theory * CALI_ACCURACY);
        code := (if TruncMod(code, 10) < 5 then 0 else 1) + TruncDiv(code, 10);
        code := boundary + code;
      } else {
        if theory - actual > theory / TRIM_PARAM { return; }
        if theory - actual < U32(10 * theory) / 10000 { return; }
        code := (theory - actual) / (theory / 100000) / CALI_ACCURACY;
        code := (if TruncMod(code, 10) < 5 then 0 else 1) + TruncDiv(code, 10);
        code := boundary - code;
      }
      if !Xs() { OscCode(theory, actual, boundary, code); }
      if Xs() {
        code := XsTenths(theory, actual, oscTrimS);
        if code >= 0 {
          if TruncMod(code, 10) >= 5 { code := boundary + (TruncDiv(code, 10) + 1); }
          else { code := boundary + TruncDiv(code, 10); }
        } else {
          if TruncMod(code, 10) <= -5 { code := boundary + (TruncDiv(code, 10) - 1); }
          else { code := boundary + TruncDiv(code, 10); }
        }
      }
      assert code == boundary + TrimStep(theory, actual);
      var trim: uint32;
      if code >= boundary {
        trim := U32(code - boundary);
      } else {
        trim := U32(code + boundary);
      }
      oscCaliData := trim;
      assert oscCaliData == OscData(TrimStep(theory, actual), boundary);
      UploadLra(OSC_CALI_LRA);
      if !Xs() {
        OscStepRange(theory, actual, boundary);
      } else if -121 <= oscTrimS <= 115 {
        XsStepFits(theory, actual, oscTrimS);
      }
      OscFieldHoldsStep(TrimStep(theory, actual), boundary);
    }
  }

  /** The unsigned rounding of the two branches is the signed rounding of the step. */
  lemma OscCode(theory: uint32, actual: uint32, b: Boundary, code: int)
    requires Divisible(theory) && theory != actual
    requires code == if theory < actual
                     then b + ((if TruncMod(SlowTenths(theory, actual), 10) < 5 then 0 else 1) + TruncDiv(SlowTenths(theory, actual), 10))
                     else b - ((if TruncMod(FastTenths(theory, actual), 10) < 5 then 0 else 1) + TruncDiv(FastTenths(theory, actual), 10))
    ensures code == b + OscStep(theory, actual)
  {
    if theory < actual {
      DivAtLeast(U32(100000 * Gap(theory, actual)), U32(theory * CALI_ACCURACY), 0);
    } else {
      DivAtLeast(Gap(theory, actual), theory / 100000, 0);
    }
  }
}
