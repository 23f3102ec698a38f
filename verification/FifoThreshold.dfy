/** The FIFO's almost-empty and almost-full thresholds in RTPCFG3-5. */
module FifoThreshold {
  import opened CInt

  /** base_addr as container_update assembles it. */
  type uint16 = x: int | 0 <= x < 0x1_0000

  /** Quarter of the FIFO: the size of every refill after the first. */
  function Quarter(base: uint32): uint32 { base / 4 }

  function AlmostEmpty(base: uint32): uint32 { base / 2 }

  function AlmostFull(base: uint32): uint32 { base - base / 4 }

  /** RTPCFG3 (high nibbles), RTPCFG4 (AE low), RTPCFG5 (AF low). */
  datatype Cfg = Cfg(high: byte, aeLow: byte, afLow: byte)

  function Encode(base: uint16): Cfg {
    var ae: int, af: int := AlmostEmpty(base), AlmostFull(base);
    Cfg(ae / 16 / 16 % 16 * 16 + af / 256 % 16, ae % 256, af % 256)
  }

  /** The 8693XS driver's decode: nibble by nibble. */
  function DecodeAe(c: Cfg): int { c.high / 16 * 256 + c.aeLow }

  function DecodeAf(c: Cfg): int { c.high % 16 * 256 + c.afLow }

  /** The 8671X driver's decode: both thresholds packed in one 32-bit word. */
  function Packed(c: Cfg): int {
    c.high % 16 * 0x100_0000 + c.high / 16 * 16 * 16 + c.aeLow
  }

  function PackedAe(c: Cfg): int { Packed(c) % 0x1_0000 }

  function PackedAf(c: Cfg): int { (Packed(c) + c.afLow * 0x1_0000) / 0x1_0000 }

  lemma DecodersAgree(c: Cfg)
    ensures PackedAe(c) == DecodeAe(c) && PackedAf(c) == DecodeAf(c)
  {
    Unpack(c.high / 16, c.high % 16, c.aeLow, c.afLow);
  }

  lemma Unpack(h: int, l: int, x: int, y: int)
    requires 0 <= h < 16 && 0 <= l < 16 && 0 <= x < 256 && 0 <= y < 256
    ensures var packed := l * 0x100_0000 + h * 16 * 16 + x;
            packed % 0x1_0000 == h * 256 + x && (packed + y * 0x1_0000) / 0x1_0000 == l * 256 + y
  {
    DivIs(l * 0x100_0000 + h * 256 + x, 0x1_0000, l * 256);
    DivIs(l * 0x100_0000 + h * 256 + x + y * 0x1_0000, 0x1_0000, l * 256 + y);
  }

  lemma Twelve(x: nat)
    ensures x / 16 / 16 == x / 256
    ensures x / 256 % 16 * 256 + x % 256 == x % 4096
  {
    DivIs(x, 4096, x / 256 / 16);
  }

  /** Two nibbles share a byte without disturbing each other. */
  lemma SharedByte(h: int, l: int)
    requires 0 <= h < 16 && 0 <= l < 16
    ensures (h * 16 + l) / 16 == h && (h * 16 + l) % 16 == l
  {
  }

  lemma DecodeOf(h: int, l: int, aeLow: byte, afLow: byte)
    requires 0 <= h < 16 && 0 <= l < 16
    ensures DecodeAe(Cfg(h * 16 + l, aeLow, afLow)) == h * 256 + aeLow
    ensures DecodeAf(Cfg(h * 16 + l, aeLow, afLow)) == l * 256 + afLow
  {
    SharedByte(h, l);
  }

  /** The registers keep twelve bits of each threshold. */
  lemma DecodeEncode(base: uint16)
    ensures DecodeAe(Encode(base)) == base / 2 % 4096
    ensures DecodeAf(Encode(base)) == (base - base / 4) % 4096
  {
    EncodeBytes(AlmostEmpty(base), AlmostFull(base));
  }

  lemma EncodeBytes(ae: int, af: int)
    requires 0 <= ae && 0 <= af
    ensures var c := Cfg(ae / 16 / 16 % 16 * 16 + af / 256 % 16, ae % 256, af % 256);
            DecodeAe(c) == ae % 4096 && DecodeAf(c) == af % 4096
  {
    Twelve(ae);
    Twelve(af);
    DecodeOf(ae / 16 / 16 % 16, af / 256 % 16, ae % 256, af % 256);
  }

  lemma FitsTwelve(x: nat)
    ensures x % 4096 == x <==> x <= 4095
  {
  }

  /** Exactly which base addresses round-trip, and for which the two thresholds are
      strictly inside the FIFO. */
  lemma RoundTripIff(base: uint16)
    ensures DecodeAe(Encode(base)) == base / 2 <==> base <= 8191
    ensures DecodeAf(Encode(base)) == base - base / 4 <==> base <= 5460
    ensures base <= 5460 ==>
              (DecodeAe(Encode(base)) < DecodeAf(Encode(base)) < base <==> 4 <= base)
  {
    DecodeEncode(base);
    TwelveBitsIff(base, DecodeAe(Encode(base)), DecodeAf(Encode(base)));
  }

  lemma TwelveBitsIff(base: nat, ae: int, af: int)
    requires ae == base / 2 % 4096 && af == (base - base / 4) % 4096
    ensures ae == base / 2 <==> base <= 8191
    ensures af == base - base / 4 <==> base <= 5460
    ensures base <= 5460 ==> (ae < af < base <==> 4 <= base)
  {
    FitsTwelve(base / 2);
    FitsTwelve(base - base / 4);
    Quarters(base);
  }

  lemma Quarters(base: nat)
    ensures base / 2 <= 4095 <==> base <= 8191
    ensures base - base / 4 <= 4095 <==> base <= 5460
    ensures base / 2 < base - base / 4 < base <==> 4 <= base
  {
  }

  /** A wrapped threshold is lower, never higher, so the FIFO cannot overrun; but
      it can be zero, and then almost-full never clears and nothing is ever sent. */
  lemma WrappedThresholdIsLower(base: uint16)
    ensures 0 <= DecodeAf(Encode(base)) <= AlmostFull(base)
    ensures base == 5461 ==> DecodeAf(Encode(base)) == 0
  {
    DecodeEncode(base);
    ModLower(AlmostFull(base));
  }

  lemma ModLower(x: nat)
    ensures 0 <= x % 4096 <= x
    ensures x == 4096 ==> x % 4096 == 0
  {
    DivAtLeast(x, 4096, 0);
  }

  /** Where each nibble goes: for the largest FIFO whose thresholds fit, 0xAAA and 0xFFF
      become 0xAF, 0xAA and 0xFF, and for 4096 bytes 0x800 and 0xC00 become 0x8C, 0 and 0. */
  lemma RegisterLayout()
    ensures Encode(5460) == Cfg(0xAF, 0xAA, 0xFF) && Encode(4096) == Cfg(0x8C, 0x00, 0x00)
  {
  }
}
