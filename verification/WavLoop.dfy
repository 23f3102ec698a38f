/** The packed loop table of the 8693XS: eight 4-bit slots in WAVCFG9-12 behave like an
    array of eight cells. */
module WavLoop {
  import opened CInt
  import opened Regs

  const WAVCFG9 := 0x12
  const SLOTS := 8
  const REG_COUNT := 256

  /** Slot k of the table: even slots in the high nibble, odd ones in the low. */
  function Slot(regs: seq<bv8>, k: nat): bv8
    requires |regs| == REG_COUNT && k < SLOTS
  {
    var reg := regs[WAVCFG9 + k / 2];
    if k % 2 == 1 then reg & 0x0F else (reg >> 4) & 0x0F
  }

  function Slots(regs: seq<bv8>): (t: seq<bv8>)
    requires |regs| == REG_COUNT
    ensures |t| == SLOTS
  {
    seq(SLOTS, k requires 0 <= k < SLOTS => Slot(regs, k))
  }

  /** The masked write of one nibble. */
  function NewReg(reg: bv8, wav: byte, count: bv8): bv8 {
    if wav % 2 == 1 then WriteBits(reg, 0xF0, count) else WriteBits(reg, 0x0F, count << 4)
  }

  lemma HighNibble(reg: bv8, count: bv8)
    ensures var r := WriteBits(reg, 0x0F, count << 4);
            (r >> 4) & 0x0F == count & 0x0F && r & 0x0F == reg & 0x0F
  {
  }

  lemma TopNibble(reg: bv8)
    ensures (reg >> 4) & 0x0F == reg >> 4
  {
  }

  lemma LowNibble(reg: bv8, count: bv8)
    ensures var r := WriteBits(reg, 0xF0, count);
            r & 0x0F == count & 0x0F && (r >> 4) & 0x0F == (reg >> 4) & 0x0F
  {
  }

  /** The registers after one set_wav_loop. */
  function Written(regs: seq<bv8>, wav: byte, count: bv8): (r: seq<bv8>)
    requires |regs| == REG_COUNT
    ensures |r| == REG_COUNT
  {
    var k := WAVCFG9 + wav / 2;
    regs[k := NewReg(regs[k], wav, count)]
  }

  /** One slot changes and no other; an index above 7 changes none. */
  lemma SlotWritten(regs: seq<bv8>, wav: byte, count: bv8, k: nat)
    requires |regs| == REG_COUNT && k < SLOTS
    ensures Slot(Written(regs, wav, count), k) == if k == wav then count & 0x0F else Slot(regs, k)
  {
    var r := WAVCFG9 + wav / 2;
    HighNibble(regs[r], count);
    LowNibble(regs[r], count);
    if k / 2 == wav / 2 && k != wav {
      assert k % 2 != wav % 2;
    }
  }

  lemma SlotsWritten(regs: seq<bv8>, wav: byte, count: bv8)
    requires |regs| == REG_COUNT
    ensures Slots(Written(regs, wav, count)) == if wav < SLOTS then Slots(regs)[wav := count & 0x0F] else Slots(regs)
  {
    forall k | 0 <= k < SLOTS
      ensures Slot(Written(regs, wav, count), k) == if k == wav then count & 0x0F else Slot(regs, k)
    {
      SlotWritten(regs, wav, count, k);
    }
  }

  class Haptic {
    var regs: array<bv8>
    var loop: array<bv8>   // the driver's copy, filled by get_wav_loop

    ghost predicate Valid()
      reads this
    {
      regs.Length == REG_COUNT && loop.Length == SLOTS && regs != loop
    }

    constructor (reset: seq<bv8>)
      requires |reset| == REG_COUNT
      ensures Valid() && regs[..] == reset && fresh(regs) && fresh(loop)
    {
      var chip := new bv8[REG_COUNT](i requires 0 <= i < REG_COUNT => reset[i]);
      regs := chip;
      loop := new bv8[SLOTS](_ => 0);
      new;
      assert regs[..] == reset;
    }

    /** aw8693xs_set_wav_loop. A slot of the table takes the loop count modulo 16; a
        larger index leaves the table alone and changes one other register. */
    method SetWavLoop(wav: byte, count: bv8)
      requires Valid()
      modifies regs
      ensures regs[..] == Written(old(regs[..]), wav, count)
      ensures var was, now := old(regs[0x12 + wav / 2]), regs[0x12 + wav / 2];
              if wav % 2 == 0 then now >> 4 == count & 0x0F && now & 0x0F == was & 0x0F
              else now & 0x0F == count & 0x0F && now >> 4 == was >> 4
      ensures Slots(regs[..]) == if wav < SLOTS then Slots(old(regs[..]))[wav := count & 0x0F] else Slots(old(regs[..]))
    {
      var r := WAVCFG9 + wav / 2;
      SlotsWritten(regs[..], wav, count);
      HighNibble(regs[r], count);
      LowNibble(regs[r], count);
      TopNibble(regs[r]);
      TopNibble(NewReg(regs[r], wav, count));
      if wav % 2 == 1 {
        regs[r] := WriteBits(regs[r], 0xF0, count);
      } else {
        regs[r] := WriteBits(regs[r], 0x0F, count << 4);
      }
    }

    /** aw8693xs_get_wav_loop: unpack the four registers. */
    method GetWavLoop()
      requires Valid()
      modifies loop
      ensures loop[..] == Slots(regs[..])
      ensures forall i :: 0 <= i < 4 ==> loop[2 * i] == regs[0x12 + i] >> 4 && loop[2 * i + 1] == regs[0x12 + i] & 0x0F
    {
      for i := 0 to 4
        invariant forall k :: 0 <= k < 2 * i ==> loop[k] == Slot(regs[..], k)
        invariant forall j :: 0 <= j < i ==> loop[2 * j] == regs[0x12 + j] >> 4 && loop[2 * j + 1] == regs[0x12 + j] & 0x0F
      {
        var reg := regs[WAVCFG9 + i];
        loop[i * 2 + 0] := (reg >> 4) & 0x0F;
        loop[i * 2 + 1] := (reg >> 0) & 0x0F;
        TopNibble(reg);
        assert Slot(regs[..], i * 2) == (reg >> 4) & 0x0F && Slot(regs[..], i * 2 + 1) == reg & 0x0F;
      }
    }
  }

  // ----------------------------------------------------------------- sequences

  datatype Write = Write(wav: byte, count: bv8)

  /** The registers after a sequence of set_wav_loop calls. */
  function RegsAfter(regs: seq<bv8>, writes: seq<Write>): (r: seq<bv8>)
    requires |regs| == REG_COUNT
    ensures |r| == REG_COUNT
    decreases |writes|
  {
    if writes == [] then regs
    else Written(RegsAfter(regs, writes[..|writes| - 1]), writes[|writes| - 1].wav, writes[|writes| - 1].count)
  }

  /** The same calls on a table of eight cells. */
  function CellsAfter(table: seq<bv8>, writes: seq<Write>): (t: seq<bv8>)
    requires |table| == SLOTS
    ensures |t| == SLOTS
    decreases |writes|
  {
    if writes == [] then table
    else
      var before := CellsAfter(table, writes[..|writes| - 1]);
      var w := writes[|writes| - 1];
      if w.wav < SLOTS then before[w.wav := w.count & 0x0F] else before
  }

  /** The packed registers refine the cells: any sequence of masked nibble writes, unpacked,
      is the sequence of cell writes on what was packed before. */
  lemma {:induction false} PackedIsCells(regs: seq<bv8>, writes: seq<Write>)
    requires |regs| == REG_COUNT
    ensures Slots(RegsAfter(regs, writes)) == CellsAfter(Slots(regs), writes)
    decreases |writes|
  {
    if writes != [] {
      PackedIsCells(regs, writes[..|writes| - 1]);
      var w := writes[|writes| - 1];
      SlotsWritten(RegsAfter(regs, writes[..|writes| - 1]), w.wav, w.count);
    }
  }

  /** Position of the last write to slot k, or -1. */
  function LastWrite(writes: seq<Write>, k: nat): (j: int)
    ensures -1 <= j < |writes|
    ensures j >= 0 ==> writes[j].wav == k
    ensures forall i :: j < i < |writes| ==> writes[i].wav != k
    decreases |writes|
  {
    if writes == [] then -1
    else if writes[|writes| - 1].wav == k then |writes| - 1
    else
      var j := LastWrite(writes[..|writes| - 1], k);
      assert forall i :: 0 <= i < |writes| - 1 ==> writes[..|writes| - 1][i] == writes[i];
      j
  }

  /** After any sequence of writes to the packed registers every slot reads back the count
      last written to it, modulo 16, or the nibble it held. */
  lemma {:induction false} SlotsAreCells(regs: seq<bv8>, writes: seq<Write>, k: nat)
    requires |regs| == REG_COUNT && k < SLOTS
    ensures var j := LastWrite(writes, k);
            Slot(RegsAfter(regs, writes), k) == if j < 0 then Slot(regs, k) else writes[j].count & 0x0F
    decreases |writes|
  {
    if writes != [] {
      var w := writes[|writes| - 1];
      SlotsAreCells(regs, writes[..|writes| - 1], k);
      SlotWritten(RegsAfter(regs, writes[..|writes| - 1]), w.wav, w.count, k);
    }
  }

  /** The table's registers aside, a write changes nothing while the index is a slot. */
  lemma {:induction false} OtherRegsKept(regs: seq<bv8>, writes: seq<Write>, r: nat)
    requires |regs| == REG_COUNT && r < REG_COUNT
    requires forall w :: w in writes ==> w.wav < SLOTS
    requires r < WAVCFG9 || WAVCFG9 + SLOTS / 2 <= r
    ensures RegsAfter(regs, writes)[r] == regs[r]
    decreases |writes|
  {
    if writes != [] {
      assert writes[|writes| - 1] in writes;
      OtherRegsKept(regs, writes[..|writes| - 1], r);
    }
  }
}
