/** AW869X: SYSCTRL and BST_AUTO follow the driver's play mode through the
    auto-boost write sequences. */
module Aw869x {
  import opened Regs

  const RAMINIT: bv8 := 0x20
  const PLAY_MASK: bv8 := 0xF3   // ~(3<<2)
  const PLAY_RAM: bv8 := 0x00
  const PLAY_RTP: bv8 := 0x04
  const PLAY_CONT: bv8 := 0x08
  const BST_MASK: bv8 := 0xFD    // ~(1<<1)
  const BST_BOOST: bv8 := 0x02
  const WORK_MASK: bv8 := 0xFE   // ~(1<<0)
  const STANDBY: bv8 := 0x01
  const AUTO_RAM: bv8 := 0x01    // BST_AUTO bits
  const AUTO_RTP: bv8 := 0x02
  const AUTOSW: bv8 := 0x04
  const UVLO: bv8 := 0x20        // SYSINTM bit, set when the interrupt is masked
  const VBAT_HW: bv8 := 0x40     // ADCTEST bit: battery compensation in hardware
  const GO: bv8 := 0x01          // GO register

  /** The driver fields and chip registers involved. */
  datatype Chip = Chip(mode: Mode, autoBoost: nat, sysctrl: bv8, bstAuto: bv8, sysintm: bv8, adctest: bv8)

  /** What an activation finds in SYSCTRL and BST_AUTO. */
  datatype Activation = Activation(sysctrl: bv8, bstAuto: bv8)

  function PlayBits(m: Mode): bv8 {
    match m
    case Rtp => PLAY_RTP
    case Cont => PLAY_CONT
    case _ => PLAY_RAM
  }

  /** SYSCTRL of an active chip: the low nibble is the mode's, the high one is kept. */
  function ModeReg(sysctrl: bv8, bits: bv8, boosted: bool): bv8 {
    (sysctrl & 0xF0) | bits | (if boosted then BST_BOOST else 0)
  }

  predicate Boosted(m: Mode) {
    m.Ram? || m.Rtp? || m.Trig?
  }

  /** BST_AUTO after the mode's sequence: the enable bit follows the boost. */
  function AutoBits(c: Chip, m: Mode): bv8 {
    if c.autoBoost == 0 then c.bstAuto
    else if m.Rtp? then c.bstAuto | AUTO_RTP
    else if Boosted(m) then c.bstAuto | AUTO_RAM
    else c.bstAuto & !AUTO_RAM
  }

  /** play_mode as one step: the net effect of its write sequence. */
  function PlayModeSpec(c: Chip, m: Mode): Chip {
    match m
    case Other(_) => c
    case Standby => c.(mode := Standby, sysctrl := c.sysctrl | STANDBY, sysintm := c.sysintm | UVLO)
    case _ => Entered(c, m)
  }

  function Entered(c: Chip, m: Mode): Chip {
    c.(mode := m,
       sysctrl := ModeReg(c.sysctrl, PlayBits(m), Boosted(m)),
       bstAuto := AutoBits(c, m),
       sysintm := c.sysintm & !UVLO,
       adctest := if m.Cont? then c.adctest | VBAT_HW else c.adctest & !VBAT_HW)
  }

  /** SYSCTRL once a bypassed mode has been activated and boosted. */
  function BoostTail(reg: bv8): bv8 {
    (reg & 0xFC) | BST_BOOST
  }

  /** bst_mode_config knows two modes. */
  function BstReg(reg: bv8, bst: nat): bv8 {
    if bst == 1 then reg | BST_BOOST else if bst == 0 then reg & BST_MASK else reg
  }

  /** Both ways of boosting end in the same register. */
  lemma BoostTailIs(reg: bv8)
    ensures WriteBits(WriteBits(reg, WORK_MASK, 0), BST_MASK, BST_BOOST) == BoostTail(reg)
    ensures WriteBits(WriteBits(WriteBits(reg, WORK_MASK, 0), BST_MASK & WORK_MASK, BST_BOOST | STANDBY), WORK_MASK, 0)
            == BoostTail(reg)
  {
  }

  lemma BoostedBits(reg: bv8, bits: bv8)
    requires bits == PLAY_RAM || bits == PLAY_RTP
    ensures BoostTail(WriteBits(reg, PLAY_MASK & BST_MASK, bits)) == ModeReg(reg, bits, true)
  {
  }

  lemma BypassBits(reg: bv8, bits: bv8)
    requires bits == PLAY_RAM || bits == PLAY_CONT
    ensures WriteBits(WriteBits(reg, PLAY_MASK & BST_MASK, bits), WORK_MASK, 0) == ModeReg(reg, bits, false)
  {
  }

  /** The activations of a boost, from SYSCTRL in bypass. */
  function BoostActivations(reg: bv8, bstAuto: bv8, autoBoost: nat, auto: bv8): seq<Activation> {
    if autoBoost != 0
    then [Activation(reg & WORK_MASK, bstAuto & !auto), Activation(BoostTail(reg), bstAuto | auto)]
    else [Activation(reg & WORK_MASK, bstAuto)]
  }

  /** The activations of a mode switch. */
  function Activations(c: Chip, m: Mode): seq<Activation> {
    match m
    case Other(_) => []
    case Standby => []
    case RamLoop => [Activation(Entered(c, m).sysctrl, Entered(c, m).bstAuto)]
    case Cont => [Activation(Entered(c, m).sysctrl, Entered(c, m).bstAuto)]
    case _ => BoostActivations(WriteBits(c.sysctrl, PLAY_MASK & BST_MASK, PlayBits(m)), c.bstAuto, c.autoBoost,
                               if m.Rtp? then AUTO_RTP else AUTO_RAM)
  }

  /** The net effect of the boosted modes' writes. */
  lemma BoostedView(c: Chip, m: Mode, d: Chip)
    requires Boosted(m) && d.mode == m && d.autoBoost == c.autoBoost
    requires d.sysctrl == BoostTail(WriteBits(c.sysctrl, PLAY_MASK & BST_MASK, PlayBits(m)))
    requires d.bstAuto == if c.autoBoost != 0 then c.bstAuto | (if m.Rtp? then AUTO_RTP else AUTO_RAM) else c.bstAuto
    requires d.sysintm == c.sysintm & !UVLO && d.adctest == c.adctest & !VBAT_HW
    ensures d == Entered(c, m)
  {
    BoostedBits(c.sysctrl, PlayBits(m));
  }

  lemma Cleared(reg: bv8, mask: bv8)
    ensures WriteBits(reg, mask, 0) == reg & mask
  {
  }

  lemma GoCleared(reg: bv8)
    ensures WriteBits(reg, !GO, 0) & 0x01 == 0 && WriteBits(reg, !GO, 0) & 0xFE == reg & 0xFE
  {
  }

  lemma Toggled(reg: bv8, bit: bv8)
    ensures WriteBits(WriteBits(reg, !bit, 0), !bit, bit) == reg | bit
  {
  }

  lemma MaskTwice(reg: bv8)
    ensures reg & !UVLO & !UVLO == reg & !UVLO
  {
  }

  class Haptic {
    var playMode: Mode
    var autoBoost: nat
    var sysctrl: bv8
    var bstAuto: bv8
    var sysintm: bv8
    var sysint: bv8
    var adctest: bv8
    var go: bv8
    ghost var activations: seq<Activation>

    function View(): Chip
      reads this
    {
      Chip(playMode, autoBoost, sysctrl, bstAuto, sysintm, adctest)
    }

    /** aw869x_irq_clear: reading SYSINT clears it. */
    method IrqClear()
      modifies this`sysint
      ensures sysint == 0
    {
      sysint := 0;
    }

    method Active()
      modifies this`sysctrl, this`sysintm, this`sysint, this`activations
      ensures sysctrl == WriteBits(old(sysctrl), WORK_MASK, 0) && sysintm == old(sysintm) & !UVLO
      ensures activations == old(activations) + [Activation(sysctrl, bstAuto)]
    {
      sysctrl := WriteBits(sysctrl, WORK_MASK, 0);
      activations := activations + [Activation(sysctrl, bstAuto)];
      IrqClear();
      sysintm := WriteBits(sysintm, !UVLO, 0);
    }

    method VbatModeConfig(flag: nat)
      modifies this`adctest
      ensures adctest == if flag == 1 then old(adctest) | VBAT_HW else old(adctest) & !VBAT_HW
    {
      if flag == 1 {
        adctest := WriteBits(adctest, !VBAT_HW, VBAT_HW);
      } else {
        adctest := WriteBits(adctest, !VBAT_HW, 0);
      }
    }

    /** Boost without auto-boost: activate in bypass, then switch the boost on. */
    method BoostByHand()
      modifies this`sysctrl, this`sysintm, this`sysint, this`activations
      ensures sysctrl == BoostTail(old(sysctrl)) && sysintm == old(sysintm) & !UVLO
      ensures activations == old(activations) + [Activation(old(sysctrl) & WORK_MASK, bstAuto)]
    {
      BoostTailIs(sysctrl);
      Cleared(sysctrl, WORK_MASK);
      Active();
      sysctrl := WriteBits(sysctrl, BST_MASK, BST_BOOST);
    }

    /** Boost under auto-boost: the enable bit is off around the first activation, then
        the chip goes through standby with it on. */
    method BoostByItself(auto: bv8)
      modifies this`sysctrl, this`sysintm, this`sysint, this`bstAuto, this`activations
      ensures sysctrl == BoostTail(old(sysctrl)) && sysintm == old(sysintm) & !UVLO
      ensures bstAuto == old(bstAuto) | auto
      ensures activations == old(activations) + [Activation(old(sysctrl) & WORK_MASK, old(bstAuto) & !auto),
                                                 Activation(BoostTail(old(sysctrl)), old(bstAuto) | auto)]
    {
      BoostTailIs(sysctrl);
      Cleared(sysctrl, WORK_MASK);
      Cleared(bstAuto, !auto);
      Toggled(bstAuto, auto);
      MaskTwice(sysintm);
      bstAuto := WriteBits(bstAuto, !auto, 0);
      Active();
      bstAuto := WriteBits(bstAuto, !auto, auto);
      sysctrl := WriteBits(sysctrl, BST_MASK & WORK_MASK, BST_BOOST | STANDBY);
      Active();
    }

    /** Boost one way or the other. */
    method Boost(auto: bv8)
      modifies this`sysctrl, this`sysintm, this`sysint, this`bstAuto, this`activations
      ensures sysctrl == BoostTail(old(sysctrl)) && sysintm == old(sysintm) & !UVLO
      ensures activations == old(activations) + BoostActivations(old(sysctrl), old(bstAuto), autoBoost, auto)
      ensures bstAuto == if autoBoost != 0 then old(bstAuto) | auto else old(bstAuto)
    {
      if autoBoost != 0 {
        BoostByItself(auto);
      } else {
        BoostByHand();
      }
    }

    /** The sequence the boosted modes share: mode bits in bypass, then boost. */
    method EnterBoosted(m: Mode, bits: bv8, auto: bv8)
      requires Boosted(m) && bits == PlayBits(m) && auto == if m.Rtp? then AUTO_RTP else AUTO_RAM
      modifies this`playMode, this`sysctrl, this`bstAuto, this`sysintm, this`sysint, this`adctest, this`activations
      ensures View() == Entered(old(View()), m)
      ensures activations == old(activations) + BoostActivations(WriteBits(old(sysctrl), PLAY_MASK & BST_MASK, bits), old(bstAuto), autoBoost, auto)
    {
      playMode := m;
      BoostFrom(bits, auto);
      VbatModeConfig(0);
      BoostedView(old(View()), m, View());
    }

    /** The mode bits in bypass, then the boost. */
    method BoostFrom(bits: bv8, auto: bv8)
      modifies this`sysctrl, this`sysintm, this`sysint, this`bstAuto, this`activations
      ensures sysctrl == BoostTail(WriteBits(old(sysctrl), PLAY_MASK & BST_MASK, bits))
      ensures sysintm == old(sysintm) & !UVLO
      ensures bstAuto == if autoBoost != 0 then old(bstAuto) | auto else old(bstAuto)
      ensures activations == old(activations)
                             + BoostActivations(WriteBits(old(sysctrl), PLAY_MASK & BST_MASK, bits), old(bstAuto), autoBoost, auto)
    {
      sysctrl := WriteBits(sysctrl, PLAY_MASK & BST_MASK, bits);
      Boost(auto);
    }

    /** The sequence the bypass modes share. */
    method EnterBypass(m: Mode, bits: bv8, vbat: nat)
      requires (m.RamLoop? || m.Cont?) && bits == PlayBits(m) && (vbat == 1 <==> m.Cont?)
      modifies this`playMode, this`sysctrl, this`bstAuto, this`sysintm, this`sysint, this`adctest, this`activations
      ensures View() == Entered(old(View()), m)
      ensures activations == old(activations) + [Activation(sysctrl, bstAuto)]
    {
      BypassBits(sysctrl, bits);
      playMode := m;
      sysctrl := WriteBits(sysctrl, PLAY_MASK & BST_MASK, bits);
      RamBoostOff();
      Active();
      VbatModeConfig(vbat);
    }

    method RamBoostOff()
      modifies this`bstAuto
      ensures bstAuto == if autoBoost != 0 then old(bstAuto) & !AUTO_RAM else old(bstAuto)
    {
      if autoBoost != 0 {
        bstAuto := WriteBits(bstAuto, !AUTO_RAM, 0);
      }
    }

    method EnterStandby()
      modifies this`playMode, this`sysctrl, this`bstAuto, this`sysintm, this`sysint, this`adctest, this`activations
      ensures View() == PlayModeSpec(old(View()), Standby)
      ensures activations == old(activations)
    {
      playMode := Standby;
      sysintm := WriteBits(sysintm, !UVLO, UVLO);
      sysctrl := WriteBits(sysctrl, WORK_MASK, STANDBY);
    }

    method PlayMode(m: Mode)
      modifies this`playMode, this`sysctrl, this`bstAuto, this`sysintm, this`sysint, this`adctest, this`activations
      ensures View() == PlayModeSpec(old(View()), m)
      ensures activations == old(activations) + Activations(old(View()), m)
    {
      match m
      case Standby => EnterStandby();
      case Ram => EnterBoosted(Ram, PLAY_RAM, AUTO_RAM);
      case RamLoop => EnterBypass(RamLoop, PLAY_RAM, 0);
      case Rtp => EnterBoosted(Rtp, PLAY_RTP, AUTO_RTP);
      case Trig => EnterBoosted(Trig, PLAY_RAM, AUTO_RAM);
      case Cont => EnterBypass(Cont, PLAY_CONT, 1);
      case Other(_) =>
    }

    method Stop()
      modifies this
      ensures View() == Step(old(View()), OpStop) && go & 0x01 == 0 && go & 0xFE == old(go) & 0xFE
    {
      GoCleared(go);
      playMode := Standby;
      go := WriteBits(go, !GO, 0);
      PlayMode(Standby);
    }

    method RamInit(flag: bool)
      modifies this`sysctrl
      ensures View() == Step(old(View()), OpRamInit(flag))
    {
      if flag {
        sysctrl := WriteBits(sysctrl, !RAMINIT, RAMINIT);
      } else {
        sysctrl := WriteBits(sysctrl, !RAMINIT, 0);
      }
    }

    method BstModeConfig(mode: nat)
      modifies this`sysctrl
      ensures View() == Step(old(View()), OpBst(mode))
    {
      if mode == 1 {
        sysctrl := WriteBits(sysctrl, BST_MASK, BST_BOOST);
      } else if mode == 0 {
        sysctrl := WriteBits(sysctrl, BST_MASK, 0);
      }
    }

    method AutoBstEnable(flag: nat)
      modifies this`autoBoost, this`bstAuto
      ensures View() == Step(old(View()), OpAutoBst(flag))
    {
      autoBoost := flag;
      if flag != 0 {
        bstAuto := WriteBits(bstAuto, !AUTOSW, AUTOSW);
      } else {
        bstAuto := WriteBits(bstAuto, !AUTOSW, 0);
      }
    }

    /** aw869x_judge_rtp_going. */
    method JudgeRtpGoing() returns (going: bool)
      ensures going == RtpGoing(View())
    {
      going := sysctrl & PLAY_RTP != 0 && sysctrl & STANDBY == 0;
    }
  }

  predicate RtpGoing(c: Chip) {
    c.sysctrl & PLAY_RTP != 0 && c.sysctrl & STANDBY == 0
  }

  // ------------------------------------------------------------- whole runs

  datatype Op = OpPlayMode(m: Mode) | OpStop | OpRamInit(on: bool) | OpBst(bst: nat) | OpAutoBst(flag: nat)

  function Step(c: Chip, op: Op): Chip {
    match op
    case OpPlayMode(m) => PlayModeSpec(c, m)
    case OpStop => PlayModeSpec(c, Standby)
    case OpRamInit(on) => c.(sysctrl := if on then c.sysctrl | RAMINIT else c.sysctrl & !RAMINIT)
    case OpBst(bst) => c.(sysctrl := BstReg(c.sysctrl, bst))
    case OpAutoBst(flag) =>
      c.(autoBoost := flag, bstAuto := if flag != 0 then c.bstAuto | AUTOSW else c.bstAuto & !AUTOSW)
  }

  function Run(c: Chip, ops: seq<Op>): Chip
    decreases |ops|
  {
    if ops == [] then c else Run(Step(c, ops[0]), ops[1..])
  }

  /** Chip and driver agree: standby, mode bits, and the undervoltage mask. */
  predicate Agrees(c: Chip) {
    && (c.mode.Standby? <==> c.sysctrl & STANDBY != 0)
    && (c.mode.Ram? || c.mode.RamLoop? || c.mode.Trig? ==> c.sysctrl & 0x0C == 0x00)
    && (c.mode.Rtp? ==> c.sysctrl & 0x0C == 0x04)
    && (c.mode.Cont? ==> c.sysctrl & 0x0C == 0x08)
    && (c.mode.Standby? <==> c.sysintm & UVLO != 0)
    && !c.mode.Other?
  }

  lemma {:induction false} RunAgrees(c: Chip, ops: seq<Op>)
    requires Agrees(c)
    ensures Agrees(Run(c, ops))
    decreases |ops|
  {
    if ops != [] {
      StepAgrees(c, ops[0]);
      RunAgrees(Step(c, ops[0]), ops[1..]);
    }
  }

  lemma StepAgrees(c: Chip, op: Op)
    requires Agrees(c)
    ensures Agrees(Step(c, op))
  {
    match op
    case OpPlayMode(m) => ModeAgrees(c, m);
    case OpStop => ModeAgrees(c, Standby);
    case OpRamInit(on) => OthersKept(c.sysctrl, 0);
    case OpBst(bst) => OthersKept(c.sysctrl, bst);
    case OpAutoBst(_) =>
  }

  /** RAM-init and boost writes leave standby and mode bits alone. */
  lemma OthersKept(reg: bv8, bst: nat)
    ensures (reg | RAMINIT) & 0x0C == reg & 0x0C && (reg & !RAMINIT) & 0x0C == reg & 0x0C
    ensures (reg | RAMINIT) & STANDBY == reg & STANDBY && (reg & !RAMINIT) & STANDBY == reg & STANDBY
    ensures BstReg(reg, bst) & 0x0C == reg & 0x0C && BstReg(reg, bst) & STANDBY == reg & STANDBY
  {
  }

  lemma ActiveBits(reg: bv8, bits: bv8, boosted: bool, sysintm: bv8)
    requires bits == PLAY_RAM || bits == PLAY_RTP || bits == PLAY_CONT
    ensures ModeReg(reg, bits, boosted) & STANDBY == 0
    ensures ModeReg(reg, bits, boosted) & 0x0C == bits
    ensures sysintm & !UVLO & UVLO == 0
  {
  }

  lemma StandbyBits(reg: bv8, sysintm: bv8)
    ensures (reg | STANDBY) & STANDBY != 0 && (sysintm | UVLO) & UVLO != 0
  {
  }

  lemma EnteredAgrees(c: Chip, m: Mode)
    requires !m.Other? && !m.Standby?
    ensures Agrees(Entered(c, m))
  {
    ActiveBits(c.sysctrl, PlayBits(m), Boosted(m), c.sysintm);
  }

  lemma ModeAgrees(c: Chip, m: Mode)
    requires Agrees(c)
    ensures Agrees(PlayModeSpec(c, m))
  {
    match m
    case Other(_) =>
    case Standby => StandbyBits(c.sysctrl, c.sysintm);
    case _ => EnteredAgrees(c, m);
  }

  /** From the probe's standby on, whatever the registers held at reset and whatever the
      auto-boost setting, the going test answers exactly for RTP mode. */
  lemma RtpGoingIff(reset: Chip, ops: seq<Op>)
    ensures var c := Run(Step(reset, OpPlayMode(Standby)), ops);
            RtpGoing(c) <==> c.mode == Rtp
  {
    var c0 := Step(reset, OpPlayMode(Standby));
    assert Agrees(c0);
    RunAgrees(c0, ops);
    GoingFromAgreement(Run(c0, ops));
  }

  lemma GoingFromAgreement(c: Chip)
    requires Agrees(c)
    ensures RtpGoing(c) <==> c.mode == Rtp
  {
    match c.mode
    case Rtp =>
    case Cont =>
    case _ =>
  }

  /** A play mode leaves the wave-rate and RAM-init bits alone, and its boost bit is set
      by the mode, not by the auto-boost setting. */
  lemma ModeKeepsOtherBits(c: Chip, m: Mode)
    requires !m.Other?
    ensures var d := PlayModeSpec(c, m); d.sysctrl & 0xF0 == c.sysctrl & 0xF0
    ensures m == Ram || m == Rtp || m == Trig ==> PlayModeSpec(c, m).sysctrl & 0x02 != 0
    ensures m == RamLoop || m == Cont ==> PlayModeSpec(c, m).sysctrl & 0x02 == 0
    ensures m == Standby ==> PlayModeSpec(c, m).sysctrl & 0x0E == c.sysctrl & 0x0E
  {
    match m
    case Rtp =>
    case Cont =>
    case _ =>
  }

  /** The automatic-boost enable bits: a boosted mode sets its own and leaves the other's, a
      bypassed one clears the RAM bit, and without auto-boost, or in standby, nothing moves. */
  lemma AutoBitsFollowMode(c: Chip, m: Mode)
    ensures var was, now := c.bstAuto, PlayModeSpec(c, m).bstAuto;
            && now & 0xFC == was & 0xFC
            && (c.autoBoost == 0 || m == Standby || m.Other? ==> now == was)
            && (c.autoBoost != 0 && m == Rtp ==> now & 0x02 != 0 && now & 0x01 == was & 0x01)
            && (c.autoBoost != 0 && (m == Ram || m == Trig) ==> now & 0x01 != 0 && now & 0x02 == was & 0x02)
            && (c.autoBoost != 0 && (m == RamLoop || m == Cont) ==> now & 0x01 == 0 && now & 0x02 == was & 0x02)
  {
    match m
    case Other(_) =>
    case Standby =>
    case _ =>
  }

  /** Every boosted mode is activated in bypass first. With auto-boost the mode's automatic
      boost is off during that activation and on in a second one, boosted; without it the
      boost is switched on by hand afterwards. A bypassed mode is activated once, as it is
      going to stay. */
  lemma ActivatesInBypass(c: Chip, m: Mode)
    requires m != Standby && !m.Other?
    ensures var acts := Activations(c, m);
            && |acts| == (if c.autoBoost != 0 && (m == Ram || m == Rtp || m == Trig) then 2 else 1)
            && acts[0].sysctrl & 0x03 == 0 && acts[0].sysctrl & 0x0C == PlayModeSpec(c, m).sysctrl & 0x0C
            && (c.autoBoost == 0 ==> acts[0].bstAuto == c.bstAuto)
            && (c.autoBoost != 0 ==> acts[0].bstAuto & (if m == Rtp then 0x02 else 0x01) == 0)
            && (|acts| == 2 ==> acts[1] == Activation(PlayModeSpec(c, m).sysctrl, PlayModeSpec(c, m).bstAuto))
  {
    match m
    case RamLoop => BypassOnce(c, m);
    case Cont => BypassOnce(c, m);
    case _ => BypassThenBoost(c, m);
  }

  lemma BypassOnce(c: Chip, m: Mode)
    requires m.RamLoop? || m.Cont?
    ensures var d := PlayModeSpec(c, m);
            d.sysctrl & 0x03 == 0 && (if c.autoBoost == 0 then d.bstAuto == c.bstAuto else d.bstAuto & 0x01 == 0)
  {
    ModeNibble(c.sysctrl, PlayBits(m));
    AutoOff(c.bstAuto);
  }

  lemma BypassThenBoost(c: Chip, m: Mode)
    requires Boosted(m)
    ensures var acts, d := Activations(c, m), PlayModeSpec(c, m);
            && |acts| == (if c.autoBoost != 0 then 2 else 1)
            && acts[0].sysctrl & 0x03 == 0 && acts[0].sysctrl & 0x0C == d.sysctrl & 0x0C
            && (if c.autoBoost == 0 then acts[0].bstAuto == c.bstAuto
                else acts[0].bstAuto & (if m == Rtp then 0x02 else 0x01) == 0 && acts[1] == Activation(d.sysctrl, d.bstAuto))
  {
    var reg, auto := WriteBits(c.sysctrl, PLAY_MASK & BST_MASK, PlayBits(m)), if m.Rtp? then AUTO_RTP else AUTO_RAM;
    BoostActivationsAre(reg, c.bstAuto, c.autoBoost, auto);
    BypassFirst(c.sysctrl, PlayBits(m));
    BoostedBits(c.sysctrl, PlayBits(m));
    AutoOff(c.bstAuto);
  }

  lemma BoostActivationsAre(reg: bv8, bstAuto: bv8, autoBoost: nat, auto: bv8)
    ensures var acts := BoostActivations(reg, bstAuto, autoBoost, auto);
            && |acts| == (if autoBoost != 0 then 2 else 1) && acts[0].sysctrl == reg & WORK_MASK
            && (if autoBoost == 0 then acts[0].bstAuto == bstAuto
                else acts[0].bstAuto == bstAuto & !auto && acts[1] == Activation(BoostTail(reg), bstAuto | auto))
  {
  }

  lemma BypassFirst(reg: bv8, bits: bv8)
    requires bits == PLAY_RAM || bits == PLAY_RTP
    ensures var r := WriteBits(reg, PLAY_MASK & BST_MASK, bits) & WORK_MASK;
            r & 0x03 == 0 && r & 0x0C == ModeReg(reg, bits, true) & 0x0C
  {
  }

  lemma ModeNibble(reg: bv8, bits: bv8)
    requires bits == PLAY_RAM || bits == PLAY_CONT
    ensures ModeReg(reg, bits, false) & 0x03 == 0
  {
  }

  lemma AutoOff(reg: bv8)
    ensures (reg & !AUTO_RTP) & 0x02 == 0 && (reg & !AUTO_RAM) & 0x01 == 0
  {
  }

  lemma RamInitBit(c: Chip, on: bool)
    ensures var r := Step(c, OpRamInit(on)).sysctrl; (r & 0x20 != 0 <==> on) && r & 0xDF == c.sysctrl & 0xDF
    ensures Step(c, OpRamInit(on)) == c.(sysctrl := Step(c, OpRamInit(on)).sysctrl)
  {
  }

  /** bst_mode_config sets or clears the boost bit and knows no third mode. */
  lemma BoostBit(c: Chip, bst: nat)
    ensures Step(c, OpBst(bst)) == c.(sysctrl := Step(c, OpBst(bst)).sysctrl)
    ensures Step(c, OpBst(bst)).sysctrl == if bst == 1 then c.sysctrl | 0x02
                                           else if bst == 0 then c.sysctrl & 0xFD else c.sysctrl
  {
  }

  lemma AutoBoostBit(c: Chip, flag: nat)
    ensures var d := Step(c, OpAutoBst(flag));
            && d.autoBoost == flag && (d.bstAuto & 0x04 != 0 <==> flag != 0) && d.bstAuto & 0xFB == c.bstAuto & 0xFB
            && d == c.(autoBoost := flag, bstAuto := d.bstAuto)
  {
  }

  /** A playing mode's boost and battery compensation, as long as nothing else writes the
      boost bit. */
  predicate BoostFits(c: Chip) {
    && (c.mode == Ram || c.mode == Rtp || c.mode == Trig ==> c.sysctrl & 0x02 != 0 && c.adctest & 0x40 == 0)
    && (c.mode == RamLoop ==> c.sysctrl & 0x02 == 0 && c.adctest & 0x40 == 0)
    && (c.mode == Cont ==> c.sysctrl & 0x02 == 0 && c.adctest & 0x40 != 0)
  }

  lemma ModeBoostFits(c: Chip, m: Mode)
    requires BoostFits(c)
    ensures BoostFits(PlayModeSpec(c, m))
  {
    if m != Standby && !m.Other? {
      ModeKeepsOtherBits(c, m);
      CompensationBits(c.adctest);
    }
  }

  lemma OtherOpsFit(c: Chip, op: Op)
    requires BoostFits(c) && (op.OpRamInit? || op.OpAutoBst?)
    ensures BoostFits(Step(c, op))
  {
    match op
    case OpRamInit(on) =>
      RamInitBit(c, on);
      BoostBitKept(c.sysctrl, Step(c, op).sysctrl);
    case OpAutoBst(flag) => AutoBoostBit(c, flag);
  }

  lemma BoostBitKept(was: bv8, now: bv8)
    requires now & 0xDF == was & 0xDF
    ensures now & 0x02 == was & 0x02
  {
    assert now & 0x02 == (now & 0xDF) & 0x02 && was & 0x02 == (was & 0xDF) & 0x02;
  }

  lemma CompensationBits(reg: bv8)
    ensures (reg | VBAT_HW) & 0x40 != 0 && (reg & !VBAT_HW) & 0x40 == 0
  {
  }

  lemma StepBoostFits(c: Chip, op: Op)
    requires BoostFits(c) && !op.OpBst?
    ensures BoostFits(Step(c, op))
  {
    match op
    case OpPlayMode(m) => ModeBoostFits(c, m);
    case OpStop => ModeBoostFits(c, Standby);
    case OpRamInit(_) => OtherOpsFit(c, op);
    case OpAutoBst(_) => OtherOpsFit(c, op);
  }

  /** After any run of mode switches, stops, RAM-init and auto-boost writes: RAM, RTP and
      trigger modes are boosted, loop and continuous modes bypass the boost, and only the
      continuous one leaves battery compensation to the hardware. */
  lemma {:induction false} BoostFitsOverRuns(c: Chip, ops: seq<Op>)
    requires BoostFits(c) && (forall op :: op in ops ==> !op.OpBst?)
    ensures BoostFits(Run(c, ops))
    decreases |ops|
  {
    if ops != [] {
      assert ops[0] in ops;
      StepBoostFits(c, ops[0]);
      BoostFitsOverRuns(Step(c, ops[0]), ops[1..]);
    }
  }
}
