/** AW8693XS: the mode, brake, boost and auto-boost bits that share PLAYCFG3 and its
    neighbours, over every driver operation that writes them. */
module Aw8693xs {
  import opened Regs

  const PLAY_MASK: bv8 := 0xFC    // PLAYCFG3 ~(3<<0)
  const PLAY_RAM: bv8 := 0
  const PLAY_RTP: bv8 := 1
  const PLAY_CONT: bv8 := 2
  const PLAY_STOP: bv8 := 3
  const BRK: bv8 := 0x04          // PLAYCFG3 bit 2
  const AUTO_BST: bv8 := 0x10     // PLAYCFG3 bit 4
  const BST_MODE: bv8 := 0x20     // PLAYCFG1 bit 5
  const VBAT_HW: bv8 := 0x80      // DETCFG1 bit 7
  const STANDBY: bv8 := 0x20      // SYSCTRL3 bit 5
  const RAMINIT: bv8 := 0x04      // SYSCTRL3 bit 2

  datatype Chip = Chip(mode: Mode, autoBoost: bv8, playcfg1: bv8, playcfg3: bv8, sysctrl3: bv8, detcfg1: bv8)

  function SetBit(reg: bv8, bit: bv8, on: bool): bv8 {
    if on then reg | bit else reg & !bit
  }

  function BstReg(reg: bv8, mode: nat): bv8 {
    if mode == 1 then reg | BST_MODE else if mode == 0 then reg & !BST_MODE else reg
  }

  function ModeReg(reg: bv8, bits: bv8): bv8 {
    (reg & PLAY_MASK) | bits
  }

  function PlayBits(m: Mode): bv8 {
    match m
    case Rtp => PLAY_RTP
    case Cont => PLAY_CONT
    case _ => PLAY_RAM
  }

  /** Which modes brake automatically and which bypass the boost. */
  predicate Brakes(m: Mode) { m.RamLoop? || m.Rtp? || m.Cont? }

  predicate Bypasses(m: Mode) { m.RamLoop? || m.Cont? }

  function PlayModeSpec(c: Chip, m: Mode): Chip {
    match m
    case Other(_) => c
    case Standby => c.(mode := Standby, sysctrl3 := SetBit(c.sysctrl3, STANDBY, false))
    case _ =>
      var cfg3 := ModeReg(c.playcfg3, PlayBits(m));
      c.(mode := m,
         playcfg3 := if m.Trig? then cfg3 else SetBit(cfg3, BRK, Brakes(m)),
         playcfg1 := if m.Trig? then c.playcfg1 else BstReg(c.playcfg1, if Bypasses(m) then 0 else 1),
         detcfg1 := SetBit(c.detcfg1, VBAT_HW, Bypasses(m)))
  }

  /** stop: the forced standby only clears a bit a further time. */
  function StopSpec(c: Chip, reached: bool): Chip {
    var d := c.(mode := Standby, playcfg3 := c.playcfg3 | PLAY_STOP, sysctrl3 := c.sysctrl3 & !RAMINIT);
    if reached then d else PlayModeSpec(d, Standby)
  }

  lemma PulseClears(reg: bv8)
    ensures SetBit(SetBit(reg, RAMINIT, true), RAMINIT, false) == reg & !RAMINIT == reg & 0xFB
    ensures SetBit(reg, RAMINIT, true) == reg | 0x04
  {
  }

  lemma StopBits(reg: bv8)
    ensures WriteBits(reg, PLAY_MASK, PLAY_STOP) == reg | PLAY_STOP
  {
  }

  lemma ModeBits(reg: bv8, bits: bv8)
    requires bits == PLAY_RAM || bits == PLAY_RTP || bits == PLAY_CONT
    ensures WriteBits(reg, PLAY_MASK, bits) == ModeReg(reg, bits)
  {
  }

  lemma StandbyPulse(reg: bv8)
    ensures WriteBits(reg, !STANDBY, STANDBY) == reg | 0x20
    ensures WriteBits(reg | 0x20, !STANDBY, 0) == SetBit(reg, STANDBY, false) == reg & 0xDF
  {
  }

  class Haptic {
    var playMode: Mode
    var autoBoost: bv8
    var playcfg1: bv8
    var playcfg3: bv8
    var playcfg4: bv8
    var sysctrl3: bv8
    var detcfg1: bv8
    ghost var sysctrl3Writes: seq<bv8>   // every value SYSCTRL3 was given

    function View(): Chip
      reads this
    {
      Chip(playMode, autoBoost, playcfg1, playcfg3, sysctrl3, detcfg1)
    }

    method AutoBrakeMode(flag: bool)
      modifies this`playcfg3
      ensures playcfg3 == SetBit(old(playcfg3), BRK, flag)
    {
      playcfg3 := WriteBits(playcfg3, !BRK, if flag then BRK else 0);
    }

    method BstModeConfig(mode: nat)
      modifies this`playcfg1
      ensures playcfg1 == BstReg(old(playcfg1), mode)
    {
      if mode == 1 {
        playcfg1 := WriteBits(playcfg1, !BST_MODE, BST_MODE);
      } else if mode == 0 {
        playcfg1 := WriteBits(playcfg1, !BST_MODE, 0);
      }
    }

    method VbatModeConfig(flag: nat)
      modifies this`detcfg1
      ensures detcfg1 == SetBit(old(detcfg1), VBAT_HW, flag == 1)
    {
      detcfg1 := WriteBits(detcfg1, !VBAT_HW, if flag == 1 then VBAT_HW else 0);
    }

    method WriteSysctrl3(mask: bv8, data: bv8)
      modifies this`sysctrl3, this`sysctrl3Writes
      ensures sysctrl3 == WriteBits(old(sysctrl3), mask, data)
      ensures sysctrl3Writes == old(sysctrl3Writes) + [sysctrl3]
    {
      sysctrl3 := WriteBits(sysctrl3, mask, data);
      sysctrl3Writes := sysctrl3Writes + [sysctrl3];
    }

    method RamInit(flag: bool)
      modifies this`sysctrl3, this`sysctrl3Writes
      ensures sysctrl3 == SetBit(old(sysctrl3), RAMINIT, flag)
      ensures sysctrl3Writes == old(sysctrl3Writes) + [sysctrl3]
    {
      WriteSysctrl3(!RAMINIT, if flag then RAMINIT else 0);
    }

    /** The sequence four of the modes share: mode bits, brake, boost, battery mode. */
    method EnterMode(m: Mode, bits: bv8, brake: bool, boost: nat, vbat: nat)
      requires bits == PLAY_RAM || bits == PLAY_RTP || bits == PLAY_CONT
      modifies this`playMode, this`playcfg1, this`playcfg3, this`detcfg1
      ensures playMode == m && playcfg3 == SetBit(ModeReg(old(playcfg3), bits), BRK, brake)
      ensures playcfg1 == BstReg(old(playcfg1), boost) && detcfg1 == SetBit(old(detcfg1), VBAT_HW, vbat == 1)
    {
      ModeBits(playcfg3, bits);
      playMode := m;
      playcfg3 := WriteBits(playcfg3, PLAY_MASK, bits);
      AutoBrakeMode(brake);
      BstModeConfig(boost);
      VbatModeConfig(vbat);
    }

    /** The standby bit is pulsed. */
    method EnterStandby()
      modifies this`playMode, this`sysctrl3, this`sysctrl3Writes
      ensures playMode == Standby && sysctrl3 == SetBit(old(sysctrl3), STANDBY, false)
      ensures sysctrl3Writes == old(sysctrl3Writes) + [old(sysctrl3) | 0x20, old(sysctrl3) & 0xDF]
    {
      StandbyPulse(sysctrl3);
      playMode := Standby;
      WriteSysctrl3(!STANDBY, STANDBY);
      WriteSysctrl3(!STANDBY, 0);
    }

    /** Trigger mode leaves brake and boost to the trigger's own settings. */
    method EnterTrig()
      modifies this`playMode, this`playcfg3, this`detcfg1
      ensures playMode == Trig && playcfg3 == ModeReg(old(playcfg3), PLAY_RAM)
      ensures detcfg1 == SetBit(old(detcfg1), VBAT_HW, false)
    {
      ModeBits(playcfg3, PLAY_RAM);
      playMode := Trig;
      playcfg3 := WriteBits(playcfg3, PLAY_MASK, PLAY_RAM);
      VbatModeConfig(0);
    }

    method PlayMode(m: Mode)
      modifies this`playMode, this`playcfg1, this`playcfg3, this`sysctrl3, this`detcfg1, this`sysctrl3Writes
      ensures View() == PlayModeSpec(old(View()), m)
      ensures sysctrl3Writes == old(sysctrl3Writes)
                                + if m.Standby? then [old(sysctrl3) | 0x20, old(sysctrl3) & 0xDF] else []
    {
      match m
      case Standby => EnterStandby();
      case Ram => EnterMode(Ram, PLAY_RAM, false, 1, 0);
      case RamLoop => EnterMode(RamLoop, PLAY_RAM, true, 0, 1);
      case Rtp => EnterMode(Rtp, PLAY_RTP, true, 1, 0);
      case Trig => EnterTrig();
      case Cont => EnterMode(Cont, PLAY_CONT, true, 0, 1);
      case Other(_) =>
    }

    /** stop's writes, up to the poll for standby: the RAM-init bit is on around the stop
        mode and the go that makes it effective. */
    method StopGo()
      modifies this
      ensures View() == StopSpec(old(View()), true) && playcfg4 == 0x01
      ensures sysctrl3Writes == old(sysctrl3Writes) + [old(sysctrl3) | 0x04, old(sysctrl3) & 0xFB]
    {
      playMode := Standby;
      PulseClears(sysctrl3);
      StopBits(playcfg3);
      RamInit(true);
      playcfg3 := WriteBits(playcfg3, PLAY_MASK, PLAY_STOP);
      playcfg4 := 0x01;
      RamInit(false);
    }

    /** reached tells whether the chip was seen in standby before the poll gave up. */
    method Stop(reached: bool)
      modifies this
      ensures View() == StopSpec(old(View()), reached) && playcfg4 == 0x01
      ensures sysctrl3Writes == old(sysctrl3Writes) + [old(sysctrl3) | 0x04, old(sysctrl3) & 0xFB]
                                + if reached then [] else [(old(sysctrl3) & 0xFB) | 0x20, old(sysctrl3) & 0xFB & 0xDF]
    {
      StopGo();
      if !reached {
        PlayMode(Standby);
      }
    }

    method AutoBstEnable(flag: bv8)
      modifies this`autoBoost, this`playcfg3
      ensures View() == Step(old(View()), OpAutoBst(flag))
    {
      autoBoost := flag;
      if flag != 0 {
        playcfg3 := WriteBits(playcfg3, !AUTO_BST, AUTO_BST);
      } else {
        playcfg3 := WriteBits(playcfg3, !AUTO_BST, 0);
      }
    }

    /** The mode and brake writes of aw8693xs_get_f0 (m == Cont) and
        aw8693xs_ram_get_f0 (m == Ram). The first gives up early when f0_pre is zero. The
        brake put back is the one that the measurement's own mode switch made, so the
        caller's setting survives exactly when it already was that one. */
    method GetF0(m: Mode, reached: bool, preZero: bool)
      requires m.Cont? || m.Ram?
      modifies this
      ensures View() == Step(old(View()), OpGetF0(m, reached, preZero))
      ensures playcfg3 & BRK != 0 <==> m.Cont?
      ensures playcfg3 & BRK == old(playcfg3) & BRK <==> (old(playcfg3) & BRK != 0 <==> m.Cont?)
    {
      Stop(reached);
      PlayMode(m);
      ModeSetsBrake(old(StopSpec(View(), reached)), m);
      BrakeAgain(playcfg3);
      var brkEnDefault := playcfg3 & BRK;
      AutoBrakeMode(true);
      if m.Cont? && preZero {
        return;
      }
      if brkEnDefault != 0 {
        AutoBrakeMode(true);
      } else {
        AutoBrakeMode(false);
      }
    }
  }

  lemma ModeSetsBrake(c: Chip, m: Mode)
    requires m.Cont? || m.Ram?
    ensures PlayModeSpec(c, m).playcfg3 & BRK != 0 <==> m.Cont?
  {
  }

  /** Switching the brake on and back is no change. */
  lemma BrakeAgain(reg: bv8)
    ensures reg & BRK != 0 ==> SetBit(reg, BRK, true) == reg
    ensures reg & BRK == 0 ==> SetBit(SetBit(reg, BRK, true), BRK, false) == reg
  {
  }

  // ------------------------------------------------------------- whole runs

  datatype Op =
    | OpPlayMode(m: Mode)
    | OpStop(reached: bool)
    | OpRamInit(on: bool)
    | OpBst(bst: nat)
    | OpVbat(flag: nat)
    | OpAutoBst(auto: bv8)
    | OpGetF0(probe: Mode, reached: bool, preZero: bool)

  function Step(c: Chip, op: Op): Chip {
    match op
    case OpPlayMode(m) => PlayModeSpec(c, m)
    case OpStop(reached) => StopSpec(c, reached)
    case OpRamInit(on) => c.(sysctrl3 := SetBit(c.sysctrl3, RAMINIT, on))
    case OpBst(bst) => c.(playcfg1 := BstReg(c.playcfg1, bst))
    case OpVbat(flag) => c.(detcfg1 := SetBit(c.detcfg1, VBAT_HW, flag == 1))
    case OpAutoBst(auto) => c.(autoBoost := auto, playcfg3 := SetBit(c.playcfg3, AUTO_BST, auto != 0))
    case OpGetF0(probe, reached, preZero) => PlayModeSpec(StopSpec(c, reached), probe)
  }

  /** The measurement is only ever taken in one of two modes. */
  predicate Issued(op: Op) {
    op.OpGetF0? ==> op.probe.Cont? || op.probe.Ram?
  }

  function Run(c: Chip, ops: seq<Op>): Chip
    decreases |ops|
  {
    if ops == [] then c else Run(Step(c, ops[0]), ops[1..])
  }

  /** PLAYCFG3 carries the driver's mode and auto-boost flag. */
  predicate Agrees(c: Chip) {
    BitsAgree(c.mode, c.autoBoost, c.playcfg3)
  }

  predicate BitsAgree(mode: Mode, autoBoost: bv8, playcfg3: bv8) {
    && (mode.Ram? || mode.RamLoop? || mode.Trig? ==> playcfg3 & 0x03 == 0x00)
    && (mode.Rtp? ==> playcfg3 & 0x03 == 0x01)
    && (mode.Cont? ==> playcfg3 & 0x03 == 0x02)
    && (playcfg3 & 0x10 != 0 <==> autoBoost != 0)
    && !mode.Other?
  }

  lemma PlayModeAgrees(c: Chip, m: Mode)
    requires Agrees(c)
    ensures Agrees(PlayModeSpec(c, m))
  {
    match m
    case Rtp =>
    case Cont =>
    case _ =>
  }

  lemma StopAgrees(c: Chip, reached: bool)
    requires Agrees(c)
    ensures Agrees(StopSpec(c, reached))
  {
  }

  lemma AutoBstAgrees(c: Chip, auto: bv8)
    requires Agrees(c)
    ensures Agrees(Step(c, OpAutoBst(auto)))
  {
  }

  lemma StepAgrees(c: Chip, op: Op)
    requires Agrees(c)
    ensures Agrees(Step(c, op))
  {
    match op
    case OpPlayMode(m) => PlayModeAgrees(c, m);
    case OpStop(reached) => StopAgrees(c, reached);
    case OpGetF0(probe, reached, _) =>
      StopAgrees(c, reached);
      PlayModeAgrees(StopSpec(c, reached), probe);
    case OpAutoBst(auto) => AutoBstAgrees(c, auto);
    case _ => OtherAgrees(c, op);
  }

  lemma OtherAgrees(c: Chip, op: Op)
    requires Agrees(c) && (op.OpRamInit? || op.OpBst? || op.OpVbat?)
    ensures Agrees(Step(c, op))
  {
    match op
    case OpRamInit(on) =>
    case OpBst(bst) =>
    case OpVbat(flag) =>
  }

  lemma {:induction false} RunAgrees(c: Chip, ops: seq<Op>)
    requires Agrees(c)
    ensures Agrees(Run(c, ops))
    decreases |ops|
  {
    if ops != [] {
      StepAgrees(c, ops[0]);
      RunAgrees(Step(c, ops[0]), ops[1..]);
    }
  }

  /** haptic_init up to the auto-boost setting, from any register contents. */
  function Init(reset: Chip, autoBst: bv8): Chip {
    Step(Step(reset, OpPlayMode(Standby)), OpAutoBst(autoBst))
  }

  /** After initialisation and any run of driver operations, a mode that plays is in the
      chip's mode bits and the auto-boost bit equals the driver's flag. */
  lemma ModeBitsAgree(reset: Chip, autoBst: bv8, ops: seq<Op>)
    ensures var c := Run(Init(reset, autoBst), ops);
            && (c.mode.Ram? || c.mode.RamLoop? || c.mode.Trig? ==> c.playcfg3 & 0x03 == 0x00)
            && (c.mode.Rtp? ==> c.playcfg3 & 0x03 == 0x01)
            && (c.mode.Cont? ==> c.playcfg3 & 0x03 == 0x02)
            && (c.playcfg3 & 0x10 != 0 <==> c.autoBoost != 0)
  {
    RunAgrees(Init(reset, autoBst), ops);
  }

  /** Mode writes keep every PLAYCFG3 bit but the mode and the brake; the brake itself
      is left by trigger mode and by the writes of other operations. */
  lemma WritesKeepForeignBits(c: Chip, op: Op)
    requires Issued(op)
    ensures Step(c, op).playcfg3 & 0xE8 == c.playcfg3 & 0xE8
    ensures !op.OpAutoBst? ==> Step(c, op).playcfg3 & AUTO_BST == c.playcfg3 & AUTO_BST
    ensures op.OpAutoBst? ==> Step(c, op).playcfg3 & 0x07 == c.playcfg3 & 0x07
    ensures op.OpStop? || op == OpPlayMode(Trig) ==> Step(c, op).playcfg3 & BRK == c.playcfg3 & BRK
  {
    match op
    case OpPlayMode(m) => ModeKeeps(c, m);
    case OpStop(reached) => StopKeeps(c, reached);
    case OpGetF0(probe, reached, _) =>
      StopKeeps(c, reached);
      ModeKeeps(StopSpec(c, reached), probe);
    case OpAutoBst(auto) => AutoBstKeeps(c, auto);
    case _ =>
  }

  lemma StopKeeps(c: Chip, reached: bool)
    ensures StopSpec(c, reached).playcfg3 & 0xE8 == c.playcfg3 & 0xE8
    ensures StopSpec(c, reached).playcfg3 & BRK == c.playcfg3 & BRK
    ensures StopSpec(c, reached).playcfg3 & AUTO_BST == c.playcfg3 & AUTO_BST
  {
    assert StopSpec(c, reached).playcfg3 == c.playcfg3 | PLAY_STOP;
  }

  lemma AutoBstKeeps(c: Chip, auto: bv8)
    ensures Step(c, OpAutoBst(auto)).playcfg3 & 0xE8 == c.playcfg3 & 0xE8
    ensures Step(c, OpAutoBst(auto)).playcfg3 & 0x07 == c.playcfg3 & 0x07
  {
  }

  lemma ModeKeeps(c: Chip, m: Mode)
    ensures PlayModeSpec(c, m).playcfg3 & 0xE8 == c.playcfg3 & 0xE8
    ensures PlayModeSpec(c, m).playcfg3 & AUTO_BST == c.playcfg3 & AUTO_BST
    ensures m.Trig? ==> PlayModeSpec(c, m).playcfg3 & BRK == c.playcfg3 & BRK
  {
    match m
    case Rtp =>
    case Cont =>
    case _ =>
  }

  /** A playing mode's boost, battery compensation and brake. Trigger mode only takes
      battery compensation from the hardware. */
  predicate SettingsFit(c: Chip) {
    SettingsAre(c.mode, c.playcfg1, c.playcfg3, c.detcfg1)
  }

  predicate SettingsAre(mode: Mode, playcfg1: bv8, playcfg3: bv8, detcfg1: bv8) {
    && (mode == Ram ==> playcfg1 & 0x20 != 0 && detcfg1 & 0x80 == 0 && playcfg3 & 0x04 == 0)
    && (mode == Rtp ==> playcfg1 & 0x20 != 0 && detcfg1 & 0x80 == 0 && playcfg3 & 0x04 != 0)
    && (mode == RamLoop || mode == Cont ==> playcfg1 & 0x20 == 0 && detcfg1 & 0x80 != 0 && playcfg3 & 0x04 != 0)
    && (mode == Trig ==> detcfg1 & 0x80 == 0)
  }

  lemma SettingBits(playcfg1: bv8, cfg3: bv8, detcfg1: bv8)
    ensures BstReg(playcfg1, 1) & 0x20 != 0 && BstReg(playcfg1, 0) & 0x20 == 0
    ensures SetBit(cfg3, BRK, true) & 0x04 != 0 && SetBit(cfg3, BRK, false) & 0x04 == 0
    ensures SetBit(detcfg1, VBAT_HW, true) & 0x80 != 0 && SetBit(detcfg1, VBAT_HW, false) & 0x80 == 0
  {
  }

  lemma ModeSettings(c: Chip, m: Mode)
    requires SettingsFit(c)
    ensures SettingsFit(PlayModeSpec(c, m))
  {
    SettingBits(c.playcfg1, ModeReg(c.playcfg3, PlayBits(m)), c.detcfg1);
  }

  lemma AutoBstSettings(c: Chip, auto: bv8)
    requires SettingsFit(c)
    ensures SettingsFit(Step(c, OpAutoBst(auto)))
  {
    BrakeKept(c.playcfg3, auto != 0);
  }

  lemma BrakeKept(reg: bv8, on: bool)
    ensures SetBit(reg, AUTO_BST, on) & 0x04 == reg & 0x04
  {
  }

  lemma StepSettings(c: Chip, op: Op)
    requires SettingsFit(c) && !op.OpBst? && !op.OpVbat?
    ensures SettingsFit(Step(c, op))
  {
    match op
    case OpPlayMode(m) => ModeSettings(c, m);
    case OpStop(reached) =>
    case OpGetF0(probe, reached, _) => ModeSettings(StopSpec(c, reached), probe);
    case OpAutoBst(auto) => AutoBstSettings(c, auto);
    case OpRamInit(_) =>
  }

  /** Over every run without direct boost or battery writes, RAM and RTP modes are boosted
      with battery compensation in software, loop and continuous modes bypass the boost and
      leave compensation to the hardware, and all but RAM mode brake automatically. */
  lemma {:induction false} SettingsFitOverRuns(c: Chip, ops: seq<Op>)
    requires SettingsFit(c) && (forall op :: op in ops ==> !op.OpBst? && !op.OpVbat?)
    ensures SettingsFit(Run(c, ops))
    decreases |ops|
  {
    if ops != [] {
      assert ops[0] in ops;
      StepSettings(c, ops[0]);
      SettingsFitOverRuns(Step(c, ops[0]), ops[1..]);
    }
  }

  /** A stop selects the stop mode and leaves RAM-init off; a forced one leaves the standby
      bit off, too. Neither touches boost or battery settings. */
  lemma StopLeaves(c: Chip, reached: bool)
    ensures var d := Step(c, OpStop(reached));
            && d.mode == Standby && d.playcfg3 & 0x03 == 0x03 && d.sysctrl3 & 0x04 == 0
            && d.sysctrl3 & 0xDB == c.sysctrl3 & 0xDB
            && (if reached then d.sysctrl3 & 0x20 == c.sysctrl3 & 0x20 else d.sysctrl3 & 0x20 == 0)
            && d.playcfg1 == c.playcfg1 && d.detcfg1 == c.detcfg1 && d.autoBoost == c.autoBoost
  {
    StopSysctrl(c.sysctrl3);
    StopMode(c.playcfg3);
  }

  lemma StopSysctrl(reg: bv8)
    ensures var r := reg & !RAMINIT;
            r & 0x04 == 0 && r & 0x20 == reg & 0x20 && r & 0xDB == reg & 0xDB
    ensures var r := SetBit(reg & !RAMINIT, STANDBY, false);
            r & 0x04 == 0 && r & 0x20 == 0 && r & 0xDB == reg & 0xDB
  {
  }

  lemma StopMode(reg: bv8)
    ensures (reg | PLAY_STOP) & 0x03 == 0x03
  {
  }

  /** The direct writes, each in its own bit; a third boost mode is not known. */
  lemma DirectWrites(c: Chip, on: bool, bst: nat, flag: nat)
    ensures Step(c, OpRamInit(on)) == c.(sysctrl3 := if on then c.sysctrl3 | 0x04 else c.sysctrl3 & 0xFB)
    ensures Step(c, OpBst(bst))
            == c.(playcfg1 := if bst == 1 then c.playcfg1 | 0x20 else if bst == 0 then c.playcfg1 & 0xDF else c.playcfg1)
    ensures Step(c, OpVbat(flag)) == c.(detcfg1 := if flag == 1 then c.detcfg1 | 0x80 else c.detcfg1 & 0x7F)
  {
  }
}
