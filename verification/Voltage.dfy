/** Boost and protection voltages: clamp, quantise, and write into a register field. */
module Voltage {
  import opened CInt

  /** A field starting at bit 0 of a register, written through its mask. */
  function WriteLow(reg: byte, width: int, value: int): (r: byte)
    requires width == 16 || width == 32
    requires 0 <= value < 256
    ensures r % width == value % width && r / width == reg / width
  {
    LowField(reg / width, width, value % width);
    reg / width * width + value % width
  }

  lemma LowField(q: int, width: int, v: int)
    requires (width == 16 && 0 <= q < 16) || (width == 32 && 0 <= q < 8)
    requires 0 <= v < width
    ensures 0 <= q * width + v < 256 && (q * width + v) % width == v && (q * width + v) / width == q
  {
    DivIs(q * width + v, width, q);
  }

  function Clamp(v: int, lo: int, hi: int): int
    requires lo <= hi
  {
    var w := if v < lo then lo else v;
    if w > hi then hi else w
  }

  const XS_MIN := 6000
  const XS_MAX := 11000

  /** AW8693XS_BST_VOL_FORMULA. */
  function XsCode(vol: int): int { (vol - 6000) / 250 + 5 }

  /** AW869X_BST_VOL_FORMULA: the code sits at bit 1. */
  function X869Code(vol: int): int { (vol - 6000) / 142 * 2 }

  /** AW8693XS_BST_MAX_FORMULA and AW8693XS_IPEAK_FORMULA. */
  function BstMaxCode(v: int): int { (v - 5000) / 500 }

  function IpeakCode(v: int): int { (v - 1500) / 250 }

  /** aw8672x_set_bst_vol's ladder. */
  function Ladder(v: uint32): byte {
    if v < 6250 then 0x00
    else if v < 6500 then 0x01
    else if v < 6750 then 0x02
    else if v < 7000 then 0x03
    else if v < 7250 then 0x04
    else if v < 7500 then 0x05
    else if v < 7750 then 0x06
    else if v < 8000 then 0x07
    else if v < 8250 then 0x08
    else if v < 8500 then 0x09
    else if v < 8750 then 0x0A
    else if v < 9000 then 0x0B
    else if v < 9250 then 0x0C
    else if v < 9500 then 0x0D
    else 0x0E
  }

  /** The ladder is the clamped quotient, for every request. */
  lemma LadderIsQuotient(v: uint32)
    ensures Ladder(v) == Clamp((v - 6000) / 250, 0, 14)
  {
  }

  /** Within one step below the clamped request, and inside the five-bit field. */
  lemma XsQuantised(v: uint32)
    ensures var c := Clamp(v, XS_MIN, XS_MAX);
            5 <= XsCode(c) <= 25 && (XsCode(c) - 5) * 250 + 6000 <= c < (XsCode(c) - 4) * 250 + 6000
  {
  }

  /** The AW869X code fits bits 5..1 and wastes no bit. */
  lemma X869Quantised(v: uint32)
    ensures var c := Clamp(v, 6000, 10500);
            && 0 <= X869Code(c) < 64 && X869Code(c) % 2 == 0
            && X869Code(c) / 2 * 142 + 6000 <= c < X869Code(c) / 2 * 142 + 6142
  {
  }

  // ------------------------------------------------- battery compensation

  const VBAT_REFER := 4200
  const VBAT_MIN := 3000
  const VBAT_MAX := 4500
  const GAIN_LIMIT := 128 * VBAT_REFER / VBAT_MIN

  /** aw8671x_get_vbat: the converter's code in millivolts, clamped. */
  function Vbat8671(code: nat): (v: int)
    ensures 3000 <= v <= 4500
    ensures 6050 * code < 3000 * 4095 ==> v == 3000
    ensures 6050 * code >= 4500 * 4095 ==> v == 4500
    ensures 3000 * 4095 <= 6050 * code < 4500 * 4095 ==> v * 4095 <= 6050 * code < (v + 1) * 4095
  {
    Clamp(6050 * code / 4095, VBAT_MIN, VBAT_MAX)
  }

  /** ram_vbat_comp: the signed product is divided as an unsigned number, then limited. */
  function CompensatedGain(gain: int, vbat: int): int
    requires VBAT_MIN <= vbat <= VBAT_MAX && FitsInt(gain * VBAT_REFER)
  {
    var temp := U32(gain * VBAT_REFER) / vbat;
    if temp > GAIN_LIMIT then GAIN_LIMIT else temp
  }

  /** Any gain gives at most 179, and a negative one exactly that. A gain up to 128 is never
      limited, and wherever the limit is not reached drive times battery stays within one
      battery reading of the reference of 4.2 V. */
  lemma CompensationHolds(gain: int, vbat: int)
    requires VBAT_MIN <= vbat <= VBAT_MAX && FitsInt(gain * VBAT_REFER)
    ensures 0 <= CompensatedGain(gain, vbat) <= GAIN_LIMIT < 256
    ensures 0 <= CompensatedGain(gain, vbat) <= 179
    ensures gain < 0 || gain * 4200 >= 180 * vbat ==> CompensatedGain(gain, vbat) == 179
    ensures 0 <= gain && gain * 4200 < 180 * vbat ==>
              CompensatedGain(gain, vbat) * vbat <= gain * 4200 < (CompensatedGain(gain, vbat) + 1) * vbat
    ensures 0 <= gain <= 128 ==> gain * 4200 < 180 * vbat
  {
    var x := U32(gain * VBAT_REFER);
    DivAtLeast(x, vbat, 0);
    DivBelowIff(x, vbat, 180);
    DivSandwich(x, vbat);
    MulMono(vbat, VBAT_MAX, 180);
    MulMono(VBAT_MIN, vbat, 180);
  }

  lemma DivSandwich(x: int, w: int)
    requires w > 0
    ensures x / w * w <= x < (x / w + 1) * w
  {
  }

  class Chip {
    var playcfg1: byte    // 8693XS: boost voltage in bits 4..0
    var sysctrl8: byte    // 8693XS: protection level 1
    var sysctrl9: byte    // 8693XS: protection level 2
    var anacfg13: byte    // 8672X: charge-pump level in bits 3..0, lockable
    var unlocked: bool    // 8672X: TMCFG holds the unlock key

    /** aw8693xs_set_bst_vol. */
    method SetBstVolXs(vol: uint32)
      modifies this`playcfg1
      ensures playcfg1 / 32 == old(playcfg1) / 32
      ensures var c, out := Clamp(vol, 6000, 11000), (playcfg1 % 32 - 5) * 250 + 6000; out <= c < out + 250
    {
      var v: int := if vol < XS_MIN then XS_MIN else vol;
      v := if v > XS_MAX then XS_MAX else v;
      XsQuantised(vol);
      playcfg1 := WriteLow(playcfg1, 32, XsCode(v));
    }

    /** aw8693xs_set_vbat_protect: two four-bit codes in one byte. */
    method SetVbatProtect(second: bool, bstMax: uint32, ipeak: uint32)
      modifies this`sysctrl8, this`sysctrl9
      ensures var reg := if second then sysctrl9 else sysctrl8;
              var b, i := Clamp(bstMax, 5000, 12500), Clamp(ipeak, 1500, 4750);
              && reg / 16 * 500 + 5000 <= b < reg / 16 * 500 + 5500
              && reg % 16 * 250 + 1500 <= i < reg % 16 * 250 + 1750
      ensures second ==> sysctrl8 == old(sysctrl8)
      ensures !second ==> sysctrl9 == old(sysctrl9)
    {
      var b: int := Clamp(bstMax, 5000, 12500);
      var i: int := Clamp(ipeak, 1500, 4750);
      var high, low := BstMaxCode(b), IpeakCode(i);
      LowField(high, 16, low);
      if second {
        sysctrl9 := high * 16 + low;
      } else {
        sysctrl8 := high * 16 + low;
      }
    }

    /** A write to a lockable register, ignored unless the key is in place. */
    method WriteLockable(value: byte)
      modifies this`anacfg13
      ensures unlocked ==> anacfg13 % 16 == value % 16 && anacfg13 / 16 == old(anacfg13) / 16
      ensures !unlocked ==> anacfg13 == old(anacfg13)
    {
      if unlocked {
        anacfg13 := WriteLow(anacfg13, 16, value);
      }
    }

    /** aw8672x_set_bst_vol: unlock, write the ladder's code, lock. */
    method SetBstVol8672(vol: uint32)
      modifies this`anacfg13, this`unlocked
      ensures anacfg13 % 16 == Clamp((vol - 6000) / 250, 0, 14)
      ensures anacfg13 / 16 == old(anacfg13) / 16 && !unlocked
    {
      var code := Ladder(vol);
      LadderIsQuotient(vol);
      unlocked := true;
      WriteLockable(code);
      unlocked := false;
    }
  }
}
