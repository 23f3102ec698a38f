/** What every run of the streaming protocol keeps, and exactly which interleavings
    break it. */
module RtpRuns {
  import opened CInt
  import opened Regs
  import opened FifoThreshold
  import opened RtpStream

  // ------------------------------------------------------------- every run

  lemma {:induction false} RunInv(s: State, steps: seq<Step>)
    requires Inv(s) && Legal(s, steps) && AllOrderly(s, steps)
    ensures Inv(Run(s, steps))
    decreases |steps|
  {
    if steps != [] {
      NextInv(s, steps[0]);
      RunInv(Next(s, steps[0]), steps[1..]);
    }
  }

  /** What the protocol promises: while a stream plays, what the chip consumed plus what it
      still holds is data[..rtp_cnt]; a completed stream has sent exactly its data; no chunk
      left the buffer, none was sent outside a stream, and the FIFO never held more than
      base_addr bytes. */
  predicate Promised(t: State) {
    && |t.fifo| <= t.base && t.inBounds && !t.stray
    && (t.outcome.Streaming? && t.mode.Rtp? ==>
          (t.buffer.Bytes? && t.cnt <= |t.buffer.bytes| && t.played + t.fifo == t.buffer.bytes[..t.cnt]))
    && (t.outcome.Completed? ==> t.buffer.Bytes? && t.sent == t.buffer.bytes)
    && (t.outcome.Suspended? ==> t.buffer.Bytes? && t.sent <= t.buffer.bytes)
  }

  lemma ConservedFrom(s: State, steps: seq<Step>)
    requires Inv(s) && Legal(s, steps) && AllOrderly(s, steps)
    ensures Promised(Run(s, steps))
  {
    RunInv(s, steps);
  }

  /** Conservation and FIFO safety at the end of every orderly run. */
  lemma ConservedOverRuns(s: State, steps: seq<Step>)
    requires Initial(s) && Legal(s, steps) && AllOrderly(s, steps)
    ensures Promised(Run(s, steps))
  {
    InitialInv(s);
    ConservedFrom(s, steps);
  }

  /** Burst sizes: the full-size burst goes only to an empty FIFO at rtp_cnt == 0; every
      other burst is at most a quarter and starts below the threshold. */
  lemma BurstSizes(s: State, standby: bool)
    requires Inv(s) && Enabled(s, Pass(standby))
    ensures var n := BufLen(s.base, |s.buffer.bytes|, s.cnt);
            if s.cnt == 0 then s.fifo == [] && n == Min(s.base, |s.buffer.bytes|)
            else n == Min(s.base / 4, |s.buffer.bytes| - s.cnt) && |s.fifo| < s.base - s.base / 4
  {
    PassIsLive(s, standby);
    BufLenIs(s.base, |s.buffer.bytes|, s.cnt);
  }

  /** In the middle of a stream a pass sends something exactly when base_addr >= 4; below
      that the quarter is empty and the loop turns without end. */
  lemma MidStreamProgressIff(s: State, standby: bool)
    requires Inv(s) && Enabled(s, Pass(standby)) && 0 < s.cnt
    ensures BufLen(s.base, |s.buffer.bytes|, s.cnt) > 0 <==> s.base >= 4
    ensures s.base < 4 && !standby ==> PassSpec(s, standby) == s
  {
    LivePass(s, standby);
    BurstSizes(s, standby);
    if s.base < 4 && !standby {
      var t := PassSpec(s, standby);
      assert Chunk(s.buffer.bytes, s.cnt, 0) == [];
      assert t.fifo == s.fifo && t.sent == s.sent;
    }
  }

  /** A chip seen in standby ends the stream: the section is over, the cursor is back at the
      start, and rtp_init stays clear until the next arming. It has completed exactly if
      everything had been sent. */
  lemma StandbyEndsStream(s: State)
    requires Inv(s) && Enabled(s, Pass(true))
    ensures var t := Next(s, Pass(true));
            && !t.init && t.cnt == 0 && !Owned(t) && !t.outcome.Streaming?
            && (t.outcome.Completed? <==> t.sent == s.buffer.bytes)
  {
    SendConserves(s, true);
    PassIsLive(s, true);
  }

  // ------------------------------------------------------- streams are served

  lemma OneStep(s: State, a: Step)
    requires Enabled(s, a) && Orderly(s, a)
    ensures Legal(s, [a]) && AllOrderly(s, [a]) && Run(s, [a]) == Next(s, a)
  {
    assert [a][1..] == [];
  }

  lemma TwoSteps(s: State, a: Step, b: Step)
    requires Enabled(s, a) && Orderly(s, a)
    requires Enabled(Next(s, a), b) && Orderly(Next(s, a), b)
    ensures Legal(s, [a, b]) && AllOrderly(s, [a, b]) && Run(s, [a, b]) == Next(Next(s, a), b)
  {
    OneStep(Next(s, a), b);
    assert [a, b][1..] == [b];
  }

  /** From a quiet driver a work item gets the first burst of its file out at once, and a
      file that fits the FIFO is complete with it. */
  lemma WorkItemStarts(s: State, file: seq<byte>)
    requires Inv(s) && Enabled(s, Begin) && !Owned(s) && |file| <= INT_MAX && 0 < s.af
    ensures var steps := [Begin, Load(file), Arm(true), Enter, Pass(false)];
            && Legal(s, steps)
            && var t := Run(s, steps);
               && t.sent == t.fifo == file[..Min(s.base, |file|)] && t.mode.Rtp?
               && t.outcome == (if |file| <= s.base then Completed else Streaming)
  {
    var t := Next(Next(Next(s, Begin), Load(file)), Arm(true));
    assert Enabled(t, Enter) && t.buffer == Bytes(file) && t.base == s.base && t.af == s.af && t.fifo == [];
    FirstBurstIs(t);
    LegalThrough(s, Begin, [Load(file), Arm(true), Enter, Pass(false)]);
    LegalThrough(Next(s, Begin), Load(file), [Arm(true), Enter, Pass(false)]);
    LegalThrough(Next(Next(s, Begin), Load(file)), Arm(true), [Enter, Pass(false)]);
  }

  lemma FirstBurstIs(t: State)
    requires Enabled(t, Enter) && t.mode.Rtp? && t.buffer.Bytes? && |t.buffer.bytes| <= INT_MAX
    requires t.fifo == [] && 0 < t.af
    ensures Legal(t, [Enter, Pass(false)])
    ensures var u, file := Run(t, [Enter, Pass(false)]), t.buffer.bytes;
            && u.sent == u.fifo == file[..Min(t.base, |file|)] && u.mode.Rtp?
            && u.outcome == (if |file| <= t.base then Completed else Streaming)
  {
    TwoSteps(t, Enter, Pass(false));
    BufLenIs(t.base, |t.buffer.bytes|, 0);
  }

  lemma LegalThrough(s: State, step: Step, rest: seq<Step>)
    requires Enabled(s, step) && Legal(Next(s, step), rest)
    ensures Legal(s, [step] + rest) && Run(s, [step] + rest) == Run(Next(s, step), rest)
  {
    assert ([step] + rest)[1..] == rest;
  }

  /** A stream that plays after the work item is gone can always be refilled: its interrupt
      is unmasked and the handler's test succeeds, so that a FIFO below the threshold gets
      its next chunk. */
  lemma PlayingStreamIsServed(s: State, standby: bool)
    requires Inv(s) && s.outcome.Streaming? && s.mode.Rtp? && s.worker.Idle? && s.handler.Resting?
    ensures Legal(s, [Flag, Test, Join])
    ensures var t := Run(s, [Flag, Test, Join]);
            && Owned(t) && t == s.(handler := Refilling)
            && (|s.fifo| < s.af ==> Enabled(t, Pass(standby)))
  {
    OneStep(Next(Next(s, Flag), Test), Join);
    LegalThrough(Next(s, Flag), Test, [Join]);
    LegalThrough(s, Flag, [Test, Join]);
  }

  /** Steps that put something else in place of the stream's bytes. */
  predicate Replaces(step: Step) {
    step.Load? || step.LoadNoMemory? || step.CaliNoMemory? || step.Calibrate?
  }

  lemma StepKeepsBuffer(s: State, step: Step)
    requires Enabled(s, step) && !Replaces(step)
    ensures Next(s, step).buffer == s.buffer
  {
    match step
    case Pass(standby) => PassKeepsBuffer(s, standby);
    case _ =>
  }

  lemma PassKeepsBuffer(s: State, standby: bool)
    requires s.buffer.Bytes?
    ensures PassSpec(s, standby).buffer == s.buffer
  {
  }

  lemma {:induction false} BufferKept(s: State, steps: seq<Step>)
    requires Legal(s, steps) && (forall step :: step in steps ==> !Replaces(step))
    ensures Run(s, steps).buffer == s.buffer
    decreases |steps|
  {
    if steps != [] {
      assert steps[0] in steps;
      StepKeepsBuffer(s, steps[0]);
      BufferKept(Next(s, steps[0]), steps[1..]);
    }
  }

  /** What plays is the file that was loaded: a stream completed before anything replaces it
      has sent the file, and a playing chip has consumed or still holds all of it. */
  lemma PlaysTheFile(s: State, file: seq<byte>, steps: seq<Step>)
    requires Inv(s) && Enabled(s, Load(file))
    requires Legal(Next(s, Load(file)), steps) && AllOrderly(Next(s, Load(file)), steps)
    requires forall step :: step in steps ==> !Replaces(step)
    ensures var t := Run(Next(s, Load(file)), steps);
            && (t.outcome.Completed? ==> t.sent == file && (t.mode.Rtp? ==> t.played + t.fifo == file))
            && (t.outcome.Streaming? && t.mode.Rtp? ==> t.cnt <= |file| && t.played + t.fifo == file[..t.cnt])
            && (t.outcome.Suspended? ==> t.sent <= file)
  {
    NextInv(s, Load(file));
    RunInv(Next(s, Load(file)), steps);
    BufferKept(Next(s, Load(file)), steps);
  }

  // ------------------------------------------------- silence until the re-arm

  /** Every stop empties the FIFO and keeps both refill loops from sending. A work item with
      state zero ends there, with its interrupt masked and nothing left to resume. */
  lemma StopsAreQuiet(s: State, step: Step, standby: bool)
    requires Inv(s) && Enabled(s, step)
    requires step.Begin? || step.BeginIdle? || step.OtherMode? || step.CaliNoMemory? || step == Arm(false)
    ensures var t := Next(s, step);
            && t.fifo == [] && !Enabled(t, Pass(standby))
            && t.mode == (if step.OtherMode? then step.m else Standby)
            && (step.Begin? || step.BeginIdle? ==> !t.aei && !Enabled(t, Flag))
            && (step.CaliNoMemory? ==> !t.init && t.cnt == 0 && t.buffer.NoBuffer?)
            && (step.BeginIdle? || step == Arm(false) ==> t.worker.Idle? && Silent(t))
  {
  }

  /** The handler's last lines mask the interrupt outside RTP mode, the worker's unmask it
      in RTP mode, and neither touches it otherwise. */
  lemma SectionsSetMask(s: State, step: Step)
    requires Inv(s) && Enabled(s, step) && (step.Ignore? || step.Leave?)
    ensures var t := Next(s, step);
            if s.worker.Filling? && step.Leave? then t.worker.Idle? && t.aei == (s.aei || s.mode == Rtp)
            else t.handler.Resting? && t.aei == (s.aei && s.mode == Rtp)
  {
  }

  /** No stream is live and none can be resumed. */
  predicate Silent(s: State) {
    && !s.worker.Filling?
    && (s.mode.Rtp? && s.worker.Idle? ==> !s.init && !s.handler.Refilling?)
  }

  lemma SilentStep(s: State, step: Step)
    requires Inv(s) && Silent(s) && Enabled(s, step) && Orderly(s, step)
    requires !step.Enter?
    ensures Silent(Next(s, step)) && Next(s, step).sent == s.sent
  {
    match step
    case Pass(standby) => LivePass(s, standby);
    case _ =>
  }

  /** Once a stream has completed or been suspended, no byte of a stream is sent until a
      work item has armed again and starts to fill; a calibration plays only its own tone. */
  lemma {:induction false} SilentUntilRearmed(s: State, steps: seq<Step>)
    requires Inv(s) && Silent(s) && Legal(s, steps) && AllOrderly(s, steps)
    requires forall i :: 0 <= i < |steps| ==> !steps[i].Enter?
    ensures Run(s, steps).sent == s.sent
    decreases |steps|
  {
    if steps != [] {
      assert !steps[0].Enter?;
      NextInv(s, steps[0]);
      SilentStep(s, steps[0]);
      forall i | 0 <= i < |steps[1..]| ensures !steps[1..][i].Enter? {
        assert steps[1..][i] == steps[i + 1];
      }
      SilentUntilRearmed(Next(s, steps[0]), steps[1..]);
    }
  }

  /** The end of a stream is such a point. */
  lemma EndIsSilent(s: State, standby: bool)
    requires Inv(s) && Enabled(s, Pass(standby))
    requires Next(s, Pass(standby)).outcome.Completed? || Next(s, Pass(standby)).outcome.Suspended?
    ensures Silent(Next(s, Pass(standby)))
  {
    LivePass(s, standby);
  }

  // ------------------------------------------------- when the handler is late

  /** Some continuation, orderly after the join itself, writes a chunk while no stream
      is live. */
  ghost predicate JoinCanStray(s: State)
    requires Enabled(s, Join)
  {
    exists steps: seq<Step> ::
      && Legal(Next(s, Join), steps) && AllOrderly(Next(s, Join), steps)
      && Run(Next(s, Join), steps).stray
  }

  lemma OrderlyJoinNeverStrays(s: State)
    requires Inv(s) && Enabled(s, Join) && Orderly(s, Join)
    ensures !JoinCanStray(s)
  {
    var t := Next(s, Join);
    NextInv(s, Join);
    forall steps: seq<Step> | Legal(t, steps) && AllOrderly(t, steps)
      ensures !Run(t, steps).stray
    {
      RunInv(t, steps);
    }
  }

  lemma StrayWhileLoaded(s: State)
    requires Inv(s) && Enabled(s, Join) && 0 < s.af && s.worker.Loaded?
    ensures JoinCanStray(s)
  {
    var steps := [Arm(true), Pass(false)];
    TwoSteps(Next(s, Join), Arm(true), Pass(false));
    assert Run(Next(s, Join), steps).stray;
  }

  lemma StrayWhileReady(s: State)
    requires Inv(s) && Enabled(s, Join) && 0 < s.af && s.worker.Ready? && s.mode.Rtp?
    ensures JoinCanStray(s)
  {
    var steps := [Pass(false)];
    OneStep(Next(s, Join), Pass(false));
    assert Run(Next(s, Join), steps).stray;
  }

  lemma StrayAfterEnd(s: State)
    requires Inv(s) && Enabled(s, Join) && 0 < s.af && s.worker.Idle? && s.mode.Rtp? && !s.init
    ensures JoinCanStray(s)
  {
    var t := Next(s, Join);
    var steps := [Drain(|t.fifo|), Pass(false)];
    TwoSteps(t, Drain(|t.fifo|), Pass(false));
    assert Run(t, steps).stray;
  }

  /** The condition on the join is exact: it is the states where the joined handler
      cannot send outside a live stream, whatever happens next. */
  lemma JoinSafeIff(s: State)
    requires Inv(s) && Enabled(s, Join) && 0 < s.af
    ensures !JoinCanStray(s) <==> Orderly(s, Join)
  {
    if Orderly(s, Join) {
      OrderlyJoinNeverStrays(s);
    } else if s.worker.Loaded? {
      StrayWhileLoaded(s);
    } else if s.worker.Ready? {
      StrayWhileReady(s);
    } else {
      StrayAfterEnd(s);
    }
  }

  // ------------------------------------------------- when a calibration runs

  ghost predicate CanOverrun(t: State) {
    exists steps: seq<Step> ::
      && Legal(t, steps) && AllOrderly(t, steps)
      && |Run(t, steps).fifo| > Run(t, steps).base
  }

  /** Some calibration, made now, and an orderly continuation overrun the FIFO. */
  ghost predicate CalibrationCanOverrun(s: State) {
    exists tone: seq<byte>, upTo: nat, left: nat ::
      && Enabled(s, Calibrate(tone, upTo, left))
      && CanOverrun(Next(s, Calibrate(tone, upTo, left)))
  }

  function Zeros(n: nat): (z: seq<byte>)
    ensures |z| == n
  {
    seq(n, _ => 0)
  }

  lemma OverrunAfter(t: State, step: Step)
    requires Enabled(t, step) && Orderly(t, step) && CanOverrun(Next(t, step))
    ensures CanOverrun(t)
  {
    var rest: seq<Step> :| Legal(Next(t, step), rest) && AllOrderly(Next(t, step), rest)
                           && |Run(Next(t, step), rest).fifo| > Run(Next(t, step), rest).base;
    var steps := [step] + rest;
    assert steps[0] == step && steps[1..] == rest;
    assert Legal(t, steps) && AllOrderly(t, steps) && Run(t, steps) == Run(Next(t, step), rest);
  }

  /** A work item that is ready bursts on top of whatever the FIFO holds. */
  lemma ReadyOverruns(t: State, b: seq<byte>)
    requires t.worker.Ready? && t.mode.Rtp? && !Owned(t) && 1 < t.af && 0 < t.base
    requires t.buffer == Bytes(b) && |b| == t.base && |t.fifo| == 1
    ensures CanOverrun(t)
  {
    TwoSteps(t, Enter, Pass(false));
    var u := Next(Next(t, Enter), Pass(false));
    assert |u.fifo| == 1 + t.base;
    assert Run(t, [Enter, Pass(false)]) == u;
  }

  lemma LoadedOverruns(t: State, b: seq<byte>)
    requires t.worker.Loaded? && !Owned(t) && 1 < t.af && 0 < t.base
    requires t.buffer == Bytes(b) && |b| == t.base && |t.fifo| == 1
    ensures CanOverrun(t)
  {
    ReadyOverruns(Next(t, Arm(true)), b);
    OverrunAfter(t, Arm(true));
  }

  lemma QuietOverruns(t: State)
    requires t.worker.Quiet? && !Owned(t) && 1 < t.af && 0 < t.base && |t.fifo| == 1
    ensures CanOverrun(t)
  {
    var b := Zeros(t.base);
    LoadedOverruns(Next(t, Load(b)), b);
    OverrunAfter(t, Load(b));
  }

  lemma LowThresholdStep(s: State, step: Step)
    requires Enabled(s, step) && s.af <= 1 && |s.fifo| <= s.base
    ensures var t := Next(s, step); t.base == s.base && t.af == s.af && |t.fifo| <= t.base
  {
    match step
    case Pass(standby) => LowThresholdPass(s, standby);
    case _ =>
  }

  lemma LowThresholdPass(s: State, standby: bool)
    requires s.buffer.Bytes? && s.fifo == []
    ensures var t := PassSpec(s, standby); t.base == s.base && t.af == s.af && |t.fifo| <= t.base
  {
    BufLenFits(s.base, |s.buffer.bytes|, s.cnt);
  }

  lemma BufLenFits(base: uint16, len: int, cnt: uint32)
    ensures BufLen(base, len, cnt) <= base
  {
  }

  /** With a threshold of one or none the driver only ever writes to an empty FIFO. */
  lemma {:induction false} LowThresholdHolds(s: State, steps: seq<Step>)
    requires Legal(s, steps) && s.af <= 1 && |s.fifo| <= s.base
    ensures |Run(s, steps).fifo| <= Run(s, steps).base
    decreases |steps|
  {
    if steps != [] {
      LowThresholdStep(s, steps[0]);
      LowThresholdHolds(Next(s, steps[0]), steps[1..]);
    }
  }

  lemma CalibrationHolds(s: State, step: Step)
    requires Inv(s) && Enabled(s, step) && step.Calibrate?
    requires s.worker.Idle? || s.af <= 1
    ensures !CanOverrun(Next(s, step))
  {
    var t := Next(s, step);
    forall steps: seq<Step> | Legal(t, steps) && AllOrderly(t, steps)
      ensures |Run(t, steps).fifo| <= Run(t, steps).base
    {
      if s.worker.Idle? {
        NextInv(s, step);
        RunInv(t, steps);
      } else {
        LowThresholdHolds(t, steps);
      }
    }
  }

  /** A calibration is dangerous to the FIFO exactly while a work item is between two of
      its sections, unless the threshold lets nothing in above an empty FIFO. */
  lemma CalibrationCanOverrunIff(s: State)
    requires Inv(s) && !Owned(s)
    ensures CalibrationCanOverrun(s) <==> !s.worker.Idle? && 1 < s.af
  {
    if s.worker.Idle? || s.af <= 1 {
      forall tone: seq<byte>, upTo: nat, left: nat | Enabled(s, Calibrate(tone, upTo, left))
        ensures !CanOverrun(Next(s, Calibrate(tone, upTo, left)))
      {
        CalibrationHolds(s, Calibrate(tone, upTo, left));
      }
    } else {
      var tone := Zeros(s.base);
      assert Enabled(s, Calibrate(tone, 1, 1));
      var t := Next(s, Calibrate(tone, 1, 1));
      match s.worker
      case Quiet => QuietOverruns(t);
      case Loaded => LoadedOverruns(t, tone);
      case Ready => ReadyOverruns(t, tone);
    }
  }

  /** Everything that can follow the calibration's first line keeps the promises. */
  ghost predicate ResetIsSafe(s: State) {
    forall steps: seq<Step> ::
      Legal(Next(s, CaliReset), steps) && AllOrderly(Next(s, CaliReset), steps)
      ==> Promised(Run(Next(s, CaliReset), steps))
  }

  /** The cursor is cleared without a lock: that is harmless exactly while no stream that
      has sent something is playing. */
  lemma ResetSafeIff(s: State)
    requires Inv(s)
    ensures ResetIsSafe(s) <==> !(s.outcome.Streaming? && s.mode.Rtp? && s.cnt > 0)
  {
    var t := Next(s, CaliReset);
    if Orderly(s, CaliReset) {
      NextInv(s, CaliReset);
      forall steps: seq<Step> | Legal(t, steps) && AllOrderly(t, steps)
        ensures Promised(Run(t, steps))
      {
        ConservedFrom(t, steps);
      }
    } else {
      assert s.played + s.fifo == s.buffer.bytes[..s.cnt];
      assert Legal(t, []) && AllOrderly(t, []) && Run(t, []) == t;
      assert !Promised(t);
    }
  }

  // -------------------------------------------- what rtp_lock would have to cover

  /** The first of the handler's lines inside rtp_lock: the refill, as the code has it, or
      the rtp_init test, or the reading of the flag. */
  datatype Section = Refill | TestAndRefill | FlagTestAndRefill

  /** A locking discipline; anyTime lets a calibration run wherever the code lets it, and
      otherwise only where it is orderly. */
  datatype Policy = Policy(section: Section, anyTime: bool)

  const AS_WRITTEN := Policy(Refill, true)
  const STRICT := Policy(FlagTestAndRefill, false)

  /** The handler is inside its section. */
  predicate Holds(h: Handler, section: Section) {
    h.Refilling? || (h.Pending? && !section.Refill?) || (h.Flagged? && section.FlagTestAndRefill?)
  }

  /** The step with which the handler's section begins. */
  predicate Opens(step: Step, section: Section) {
    match section
    case Refill => step.Join?
    case TestAndRefill => step.Test?
    case FlagTestAndRefill => step.Flag?
  }

  predicate NeedsLock(step: Step) {
    step.Load? || step.LoadFails? || step.LoadNoMemory? || step.Enter? || step.CaliNoMemory? || step.Calibrate?
  }

  predicate Calibrates(step: Step) {
    step.CaliReset? || step.CaliNoMemory? || step.Calibrate?
  }

  predicate Guarded(s: State, step: Step, p: Policy) {
    && (NeedsLock(step) ==> !Holds(s.handler, p.section))
    && (Opens(step, p.section) ==> !s.worker.Filling?)
    && (Calibrates(step) ==> p.anyTime || Orderly(s, step))
  }

  predicate AllGuarded(s: State, steps: seq<Step>, p: Policy)
    requires Legal(s, steps)
    decreases |steps|
  {
    steps == [] || (Guarded(s, steps[0], p) && AllGuarded(Next(s, steps[0]), steps[1..], p))
  }

  /** The machine's own runs are those of the discipline as written. */
  lemma {:induction false} AllRunsAsWritten(s: State, steps: seq<Step>)
    requires Legal(s, steps)
    ensures AllGuarded(s, steps, AS_WRITTEN)
    decreases |steps|
  {
    if steps != [] {
      AllRunsAsWritten(Next(s, steps[0]), steps[1..]);
    }
  }

  lemma {:induction false} LaxerAllows(s: State, steps: seq<Step>, p: Policy, q: Policy)
    requires Legal(s, steps) && AllGuarded(s, steps, p)
    requires q.section == p.section || (q.section == Refill && p.section == TestAndRefill)
    requires p.anyTime ==> q.anyTime
    ensures AllGuarded(s, steps, q)
    decreases |steps|
  {
    if steps != [] {
      LaxerAllows(Next(s, steps[0]), steps[1..], p, q);
    }
  }

  /** With the flag read inside the section, no work item gets past its first section
      while the handler is in its own. */
  predicate Shielded(s: State) {
    && (s.handler.Flagged? || s.handler.Pending? ==> s.worker.Idle? || s.worker.Quiet?)
    && (s.handler.Pending? ==> s.init)
  }

  lemma ShieldedStep(s: State, step: Step)
    requires Inv(s) && Shielded(s) && Enabled(s, step) && Guarded(s, step, STRICT)
    ensures Orderly(s, step) && Shielded(Next(s, step))
  {
  }

  lemma {:induction false} StrictIsOrderly(s: State, steps: seq<Step>)
    requires Inv(s) && Shielded(s) && Legal(s, steps) && AllGuarded(s, steps, STRICT)
    ensures AllOrderly(s, steps)
    decreases |steps|
  {
    if steps != [] {
      ShieldedStep(s, steps[0]);
      NextInv(s, steps[0]);
      StrictIsOrderly(Next(s, steps[0]), steps[1..]);
    }
  }

  /** Every run of the discipline keeps the promises. */
  ghost predicate Sound(p: Policy) {
    forall s: State, steps: seq<Step> ::
      Initial(s) && Legal(s, steps) && AllGuarded(s, steps, p) ==> Promised(Run(s, steps))
  }

  /** Which discipline makes the protocol safe: reading the flag, testing rtp_init and the
      refill in one section, and calibrations kept from the states where they are not
      orderly. Moving the test alone under the lock does not help. */
  lemma SoundIff(p: Policy)
    ensures Sound(p) <==> p.section == FlagTestAndRefill && !p.anyTime
  {
    if p.anyTime {
      CalibrationBreaks(p);
    } else if p.section != FlagTestAndRefill {
      TestAloneBreaks(p);
    } else {
      forall s: State, steps: seq<Step> | Initial(s) && Legal(s, steps) && AllGuarded(s, steps, p)
        ensures Promised(Run(s, steps))
      {
        InitialInv(s);
        StrictIsOrderly(s, steps);
        ConservedOverRuns(s, steps);
      }
    }
  }

  lemma TestAloneBreaks(p: Policy)
    requires p.section != FlagTestAndRefill
    ensures !Sound(p)
  {
    var q := Policy(TestAndRefill, false);
    var t := LateRefillLeavesBuffer();
    var steps: seq<Step> :| Legal(Boot(), steps) && AllGuarded(Boot(), steps, q) && Run(Boot(), steps) == t;
    LaxerAllows(Boot(), steps, q, p);
  }

  lemma CalibrationBreaks(p: Policy)
    requires p.anyTime
    ensures !Sound(p)
  {
    var q := Policy(p.section, true);
    var t := CalibrationOverruns(p.section);
    var steps: seq<Step> :| Legal(Boot(), steps) && AllGuarded(Boot(), steps, q) && Run(Boot(), steps) == t;
  }

  // ------------------------------------------------------------ concrete runs

  ghost predicate Reaches(s: State, t: State, p: Policy) {
    exists steps: seq<Step> :: Legal(s, steps) && AllGuarded(s, steps, p) && Run(s, steps) == t
  }

  lemma {:induction false} RunSnoc(s: State, steps: seq<Step>, last: Step)
    requires Legal(s, steps) && Enabled(Run(s, steps), last)
    ensures Legal(s, steps + [last]) && Run(s, steps + [last]) == Next(Run(s, steps), last)
    decreases |steps|
  {
    if steps == [] {
      assert [] + [last] == [last] && [last][1..] == [];
    } else {
      RunSnoc(Next(s, steps[0]), steps[1..], last);
      assert (steps + [last])[1..] == steps[1..] + [last];
    }
  }

  lemma {:induction false} GuardedSnoc(s: State, steps: seq<Step>, last: Step, p: Policy)
    requires Legal(s, steps) && AllGuarded(s, steps, p)
    requires Enabled(Run(s, steps), last) && Guarded(Run(s, steps), last, p)
    requires Legal(s, steps + [last])
    ensures AllGuarded(s, steps + [last], p)
    decreases |steps|
  {
    if steps == [] {
      assert [] + [last] == [last] && [last][1..] == [];
    } else {
      assert (steps + [last])[1..] == steps[1..] + [last];
      GuardedSnoc(Next(s, steps[0]), steps[1..], last, p);
    }
  }

  lemma Stays(s: State, p: Policy)
    ensures Reaches(s, s, p)
  {
    assert Legal(s, []) && AllGuarded(s, [], p) && Run(s, []) == s;
  }

  lemma Then(s: State, t: State, step: Step, p: Policy) returns (u: State)
    requires Reaches(s, t, p) && Enabled(t, step) && Guarded(t, step, p)
    ensures u == Next(t, step) && Reaches(s, u, p)
  {
    var steps: seq<Step> :| Legal(s, steps) && AllGuarded(s, steps, p) && Run(s, steps) == t;
    RunSnoc(s, steps, step);
    GuardedSnoc(s, steps, step, p);
    u := Next(t, step);
  }

  /** A four-byte FIFO whose threshold is three. */
  function Boot(): State {
    State(4, 3, NoBuffer, 0, false, Standby, false, Idle, Resting, [], [], [], NoStream, true, false)
  }

  const ZEROS: seq<byte> := [0, 0, 0, 0, 0, 0, 0, 0]

  /** The rtp_init test moved under the lock, and every calibration orderly. */
  const TEST_LOCKED := Policy(TestAndRefill, false)

  /** A pass that neither ends the stream nor sees standby only moves bytes. */
  lemma PassContinues(s: State, n: nat)
    requires s.buffer.Bytes? && n == BufLen(s.base, |s.buffer.bytes|, s.cnt)
    requires s.cnt + n < |s.buffer.bytes| <= INT_MAX
    ensures var chunk := s.buffer.bytes[s.cnt..s.cnt + n];
            PassSpec(s, false) == s.(fifo := s.fifo + chunk, sent := s.sent + chunk, cnt := s.cnt + n,
                                     stray := s.stray || !Live(s))
  {
    assert U32(s.cnt + n) == s.cnt + n;
  }

  lemma Entered(p: Policy) returns (t: State)
    ensures Initial(Boot()) && Reaches(Boot(), t, p)
    ensures t == Boot().(buffer := Bytes(ZEROS), init := true, mode := Rtp, worker := Filling, outcome := Streaming)
  {
    Stays(Boot(), p);
    t := Then(Boot(), Boot(), Begin, p);
    t := Then(Boot(), t, Load(ZEROS), p);
    t := Then(Boot(), t, Arm(true), p);
    t := Then(Boot(), t, Enter, p);
  }

  /** A stream of eight bytes has sent its first burst. */
  lemma FirstBurst(p: Policy) returns (t: State)
    ensures Initial(Boot()) && Reaches(Boot(), t, p)
    ensures t == Boot().(buffer := Bytes(ZEROS), cnt := 4, init := true, mode := Rtp, aei := true,
                         fifo := [0, 0, 0, 0], sent := [0, 0, 0, 0], outcome := Streaming)
  {
    t := Entered(p);
    PassContinues(t, 4);
    assert ZEROS[0..4] == [0, 0, 0, 0];
    t := Then(Boot(), t, Pass(false), p);
    t := Then(Boot(), t, Leave, p);
  }

  /** The handler reads the flag of that stream; a new work item stops it and gets as far
      as RTP_GO. Only then does the handler make its test, and the cursor is the old one. */
  lemma LateHandler(file: seq<byte>) returns (t: State)
    requires 0 < |file| <= INT_MAX
    ensures Initial(Boot()) && Reaches(Boot(), t, TEST_LOCKED)
    ensures t == Boot().(buffer := Bytes(file), cnt := 4, init := true, mode := Rtp, worker := Ready,
                         handler := Pending, sent := [0, 0, 0, 0])
  {
    t := FirstBurst(TEST_LOCKED);
    t := Then(Boot(), t, Flag, TEST_LOCKED);
    t := Then(Boot(), t, Begin, TEST_LOCKED);
    t := Then(Boot(), t, Load(file), TEST_LOCKED);
    t := Then(Boot(), t, Arm(true), TEST_LOCKED);
    t := Then(Boot(), t, Test, TEST_LOCKED);
  }

  /** The late refill continues from the old cursor: with a shorter new stream it reads
      past the buffer. */
  lemma LateRefillLeavesBuffer() returns (t: State)
    ensures Initial(Boot()) && Reaches(Boot(), t, TEST_LOCKED) && !t.inBounds
  {
    t := LateHandler([7]);
    t := Then(Boot(), t, Join, TEST_LOCKED);
    t := Then(Boot(), t, Pass(false), TEST_LOCKED);
  }

  /** With a long one it leaves bytes in the FIFO, and the worker's full-size burst
      then overruns it. */
  lemma LateRefillOverruns() returns (t: State)
    ensures Initial(Boot()) && Reaches(Boot(), t, TEST_LOCKED) && |t.fifo| > t.base
  {
    t := LateRefillFills();
    t := Then(Boot(), t, Leave, TEST_LOCKED);
    t := Then(Boot(), t, Drain(1), TEST_LOCKED);
    t := Then(Boot(), t, Enter, TEST_LOCKED);
    PassContinues(t, 4);
    t := Then(Boot(), t, Pass(false), TEST_LOCKED);
  }

  lemma LateRefillFills() returns (t: State)
    ensures Reaches(Boot(), t, TEST_LOCKED)
    ensures t.base == 4 && t.af == 3 && t.buffer == Bytes(ZEROS) && |t.fifo| == 3
    ensures t.worker.Ready? && t.handler.Refilling? && t.mode.Rtp?
  {
    t := LateHandler(ZEROS);
    t := Then(Boot(), t, Join, TEST_LOCKED);
    PassContinues(t, 1);
    t := Then(Boot(), t, Pass(false), TEST_LOCKED);
    PassContinues(t, 1);
    t := Then(Boot(), t, Pass(false), TEST_LOCKED);
    PassContinues(t, 1);
    t := Then(Boot(), t, Pass(false), TEST_LOCKED);
  }

  /** A stream of one byte is ready to play. */
  lemma ShortReady(p: Policy) returns (t: State)
    ensures Initial(Boot()) && Reaches(Boot(), t, p)
    ensures t == Boot().(buffer := Bytes([0]), init := true, mode := Rtp, worker := Ready)
  {
    Stays(Boot(), p);
    t := Then(Boot(), Boot(), Begin, p);
    t := Then(Boot(), t, Load([0]), p);
    t := Then(Boot(), t, Arm(true), p);
  }

  /** It completes, and the worker unmasks the interrupt all the same. */
  lemma ShortCompletes(p: Policy) returns (t: State)
    ensures Reaches(Boot(), t, p)
    ensures t == Boot().(buffer := Bytes([0]), mode := Rtp, aei := true, fifo := [0], sent := [0], outcome := Completed)
  {
    t := ShortReady(p);
    t := Then(Boot(), t, Enter, p);
    t := Then(Boot(), t, Pass(false), p);
  }

  /** The flag is read then, with rtp_init clear, and the test succeeds after the next
      arming: a chunk goes out while no stream is live. */
  lemma StaleFlagStrays() returns (t: State)
    ensures Initial(Boot()) && Reaches(Boot(), t, TEST_LOCKED) && t.stray
  {
    t := StaleFlag();
    t := StaleTest(t);
    t := Then(Boot(), t, Pass(false), TEST_LOCKED);
  }

  lemma StaleFlag() returns (t: State)
    ensures Reaches(Boot(), t, TEST_LOCKED) && t.handler.Flagged? && t.worker.Ready? && t.init && t.mode.Rtp?
    ensures t.buffer == Bytes([7]) && t.fifo == [] && t.af == 3
  {
    t := ShortCompletes(TEST_LOCKED);
    t := Then(Boot(), t, Flag, TEST_LOCKED);
    t := Then(Boot(), t, Begin, TEST_LOCKED);
    t := Then(Boot(), t, Load([7]), TEST_LOCKED);
    t := Then(Boot(), t, Arm(true), TEST_LOCKED);
  }

  lemma StaleTest(s: State) returns (t: State)
    requires Reaches(Boot(), s, TEST_LOCKED) && s.handler.Flagged? && s.worker.Ready? && s.init
    ensures Reaches(Boot(), t, TEST_LOCKED) && t == s.(handler := Refilling)
  {
    t := Then(Boot(), s, Test, TEST_LOCKED);
    t := Then(Boot(), t, Join, TEST_LOCKED);
  }

  /** A calibration that times out between a work item's sections: whatever the handler's
      section, the worker bursts on top of what the tone left. */
  lemma CalibrationOverruns(section: Section) returns (t: State)
    ensures Initial(Boot()) && Reaches(Boot(), t, Policy(section, true)) && |t.fifo| > t.base
  {
    var p := Policy(section, true);
    t := ShortReady(p);
    t := Then(Boot(), t, Calibrate([0, 0, 0, 0], 2, 2), p);
    t := Then(Boot(), t, Enter, p);
    assert t.buffer == Bytes([0, 0, 0, 0]) && t.cnt == 0 && |t.fifo| == 2;
    t := Then(Boot(), t, Pass(false), p);
  }

  /** A calibration that finds no file has still cleared the cursor: the playing stream
      starts again with a full-size burst. */
  lemma ResetOverruns(section: Section) returns (t: State)
    ensures Initial(Boot()) && Reaches(Boot(), t, Policy(section, true)) && |t.fifo| > t.base
  {
    var p := Policy(section, true);
    t := ResetTested(p);
    t := ResetJoin(t, p);
    PassContinues(t, 4);
    t := Then(Boot(), t, Pass(false), p);
  }

  lemma ResetTested(p: Policy) returns (t: State)
    requires p.anyTime
    ensures Reaches(Boot(), t, p)
    ensures t == Boot().(buffer := Bytes(ZEROS), init := true, mode := Rtp, aei := true, handler := Pending,
                         fifo := [0, 0, 0, 0], sent := [0, 0, 0, 0], outcome := Streaming)
  {
    t := FirstBurst(p);
    t := Then(Boot(), t, CaliReset, p);
    t := Then(Boot(), t, Flag, p);
    t := Then(Boot(), t, Test, p);
  }

  lemma ResetJoin(s: State, p: Policy) returns (t: State)
    requires Reaches(Boot(), s, p) && s.handler.Pending? && s.worker.Idle? && 2 <= |s.fifo|
    ensures Reaches(Boot(), t, p)
    ensures t == s.(handler := Refilling, fifo := s.fifo[2..], played := s.played + s.fifo[..2])
  {
    t := Then(Boot(), s, Join, p);
    t := Then(Boot(), t, Drain(2), p);
  }
}
