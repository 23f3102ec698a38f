/** Byte registers, masked writes, and the driver's play modes. */
module Regs {

  /** enum aw_haptic_work_mode, and any other value a caller may pass. */
  datatype Mode = Standby | Ram | Rtp | Trig | Cont | RamLoop | Other(code: nat)

  /** haptic_hv_i2c_write_bits: mask keeps, its complement takes the data. */
  function WriteBits(reg: bv8, mask: bv8, data: bv8): (r: bv8)
    ensures r & mask == reg & mask && r & !mask == data & !mask
  {
    (reg & mask) | (data & !mask)
  }
}
