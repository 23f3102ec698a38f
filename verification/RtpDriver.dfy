/** The streaming code as it updates the driver, section by section, each method tied to
    the machine's step. What happens between two polls of a loop is a parameter. */
module RtpDriver {
  import opened CInt
  import opened Regs
  import opened FifoThreshold
  import opened RtpStream
  import opened RtpRuns

  /** Between two polls: the chip plays some bytes, another lock holder may stop it; then
      the almost-full flag and the state register read as they read. */
  datatype Moment = Moment(drain: nat, stop: bool, full: bool, standby: bool)

  /** What request_firmware and vmalloc give a calibration. */
  datatype FileResult = NoFile | NoMemory | File(tone: Tone)

  type Tone = tone: seq<byte> | |tone| <= INT_MAX

  /** aw_rtp->len, or zero without an allocation. */
  function Size(b: Buffer): nat {
    if b.Bytes? then |b.bytes| else 0
  }

  /** t follows from s by an orderly run. */
  ghost predicate Follows(s: State, t: State) {
    exists steps: seq<Step> :: Legal(s, steps) && AllOrderly(s, steps) && Run(s, steps) == t
  }

  lemma FollowsRefl(s: State)
    ensures Follows(s, s)
  {
    assert Legal(s, []) && AllOrderly(s, []) && Run(s, []) == s;
  }

  lemma {:induction false} OrderlySnoc(s: State, steps: seq<Step>, last: Step)
    requires Legal(s, steps) && AllOrderly(s, steps)
    requires Enabled(Run(s, steps), last) && Orderly(Run(s, steps), last)
    ensures Legal(s, steps + [last]) && AllOrderly(s, steps + [last])
    ensures Run(s, steps + [last]) == Next(Run(s, steps), last)
    decreases |steps|
  {
    RunSnoc(s, steps, last);
    if steps == [] {
      assert [] + [last] == [last] && [last][1..] == [];
    } else {
      OrderlySnoc(Next(s, steps[0]), steps[1..], last);
      assert (steps + [last])[1..] == steps[1..] + [last];
    }
  }

  lemma FollowsStep(s: State, t: State, step: Step)
    requires Follows(s, t) && Enabled(t, step) && Orderly(t, step)
    ensures Follows(s, Next(t, step))
  {
    var steps: seq<Step> :| Legal(s, steps) && AllOrderly(s, steps) && Run(s, steps) == t;
    OrderlySnoc(s, steps, step);
  }

  /** A flag that has just been read, and a test made at once: no work item is past its
      first section, because that section masks the interrupt. */
  lemma FreshFlag(s: State)
    requires Inv(s) && Enabled(s, Flag)
    ensures var t := Next(s, Flag);
            if s.init
            then Inv(Next(t, Test)) && Follows(s, Next(t, Test)) && Orderly(Next(t, Test), Join) && !Owned(t)
            else Inv(Next(t, Ignore)) && Follows(s, Next(t, Ignore)) && !Owned(t)
  {
    var t := Next(s, Flag);
    FollowsRefl(s);
    FollowsStep(s, s, Flag);
    NextInv(s, Flag);
    FollowsStep(s, t, if s.init then Test else Ignore);
    NextInv(t, if s.init then Test else Ignore);
  }

  /** The pass that ends its section. */
  predicate PassDone(s: State, standby: bool)
    requires s.buffer.Bytes?
  {
    standby || U32(s.cnt + BufLen(s.base, |s.buffer.bytes|, s.cnt)) == |s.buffer.bytes|
  }

  /** A pass either ends its section, or moves the cursor: forward, if the quarter chunk is
      not empty. */
  lemma PassEnds(s: State, standby: bool)
    requires Inv(s) && Enabled(s, Pass(standby))
    ensures var t := PassSpec(s, standby);
            if PassDone(s, standby) then !Owned(t) && (s.handler.Refilling? ==> t.handler.Resting?)
            else && s.cnt <= t.cnt <= |s.buffer.bytes| && (s.base >= 4 ==> s.cnt < t.cnt)
                 && t.worker == s.worker && t.handler == s.handler && t.buffer == s.buffer
  {
    SendConserves(s, standby);
    PassIsLive(s, standby);
    BufLenIs(s.base, |s.buffer.bytes|, s.cnt);
    assert SendChunk(s).cnt == |s.buffer.bytes| <==> s.cnt + BufLen(s.base, |s.buffer.bytes|, s.cnt) == |s.buffer.bytes|;
  }

  // ------------------------------------------------------ a turn of the loop

  /** What a moment does to the machine. */
  function Elapsed(s: State, m: Moment): (t: State)
    ensures t == s.(fifo := t.fifo, played := t.played, mode := t.mode)
  {
    var d := Next(s, Drain(Min(m.drain, |s.fifo|)));
    if m.stop then Next(d, OtherMode(Standby)) else d
  }

  /** The loop guard does not hold, or the buffer is missing. */
  predicate Stuck(s: State, m: Moment) {
    m.full || |s.fifo| >= s.af || !s.mode.Rtp? || s.buffer.NoBuffer?
  }

  /** One turn of rtp_play's loop from the last one: a moment, the guard, the body. */
  function TurnSpec(s: State, m: Moment): State {
    var t := Elapsed(s, m);
    if Stuck(t, m) then EndSection(t) else PassSpec(t, m.standby)
  }

  predicate TurnDone(s: State, m: Moment) {
    var t := Elapsed(s, m);
    Stuck(t, m) || PassDone(t, m.standby)
  }

  /** An almost-full flag that reads set ends the section and sends nothing. */
  lemma FullTurnSendsNothing(s: State, m: Moment)
    requires Inv(s) && Owned(s) && m.full
    ensures var t := TurnSpec(s, m); TurnDone(s, m) && !Owned(t) && t.sent == s.sent && t.cnt == s.cnt
  {
  }

  /** A stop between two polls ends the section before anything more is sent. */
  lemma StopTurnSendsNothing(s: State, m: Moment)
    requires Inv(s) && Owned(s) && m.stop
    ensures var t := TurnSpec(s, m);
            TurnDone(s, m) && !Owned(t) && t.sent == s.sent && t.fifo == [] && t.mode == Standby
  {
  }

  /** A chip seen in standby is not written to again: the section is over, and if the turn
      wrote a chunk before it looked, rtp_init and the cursor are cleared. */
  lemma StandbyTurnEnds(s: State, m: Moment)
    requires Inv(s) && Owned(s) && m.standby
    ensures var t := TurnSpec(s, m);
            TurnDone(s, m) && !Owned(t) && (t.sent != s.sent ==> !t.init && t.cnt == 0 && !t.outcome.Streaming?)
  {
    var e := Elapsed(s, m);
    ElapsedInv(s, m);
    if !Stuck(e, m) {
      StandbyEndsStream(e);
      StandbyIsSeen(e);
    }
  }

  lemma StandbyIsSeen(s: State)
    requires s.buffer.Bytes?
    ensures PassDone(s, true)
  {
  }

  /** Nothing stands in the way of the next chunk: the flag reads clear, the chip has played
      what it held and goes on playing. */
  predicate Clear(m: Moment, base: uint16) {
    !m.full && !m.stop && !m.standby && m.drain >= base
  }

  ghost predicate AllClear(moments: nat -> Moment, base: uint16) {
    forall k: nat :: Clear(moments(k), base)
  }

  /** Such a turn sends the next chunk, and the section is over with the stream's last. */
  lemma ClearTurnSends(s: State, m: Moment)
    requires Inv(s) && Owned(s) && s.mode.Rtp? && 0 < s.af && Clear(m, s.base)
    ensures s.buffer.Bytes? && s.cnt <= |s.buffer.bytes|
    ensures var t, bytes := TurnSpec(s, m), s.buffer.bytes;
            var k := s.cnt + if s.cnt == 0 then Min(s.base, |bytes|) else Min(s.base / 4, |bytes| - s.cnt);
            && t.sent == bytes[..k] && t.mode.Rtp? && t.af == s.af && t.buffer == s.buffer
            && (TurnDone(s, m) <==> k == |bytes|) && (k == |bytes| ==> t.outcome.Completed?)
  {
    var e := Elapsed(s, m);
    ElapsedInv(s, m);
    assert Enabled(e, Pass(false));
    SendConserves(e, false);
    BurstSizes(e, false);
    PassIsLive(e, false);
  }

  lemma ElapsedInv(s: State, m: Moment)
    requires Inv(s)
    ensures Inv(Elapsed(s, m))
  {
    var n := Min(m.drain, |s.fifo|);
    NextInv(s, Drain(n));
    if m.stop {
      NextInv(Next(s, Drain(n)), OtherMode(Standby));
    }
  }

  lemma ElapsedFollows(start: State, s: State, m: Moment)
    requires Follows(start, s)
    ensures Follows(start, Elapsed(s, m))
  {
    var n := Min(m.drain, |s.fifo|);
    FollowsStep(start, s, Drain(n));
    if m.stop {
      FollowsStep(start, Next(s, Drain(n)), OtherMode(Standby));
    }
  }

  /** What one turn of the refill loop does to s: an orderly run since start, after which
      the section is over, or the loop goes on further along the same buffer. */
  ghost predicate Turned(start: State, s: State, t: State, done: bool) {
    && Inv(t) && Follows(start, t) && t.base == s.base
    && (done ==> !Owned(t) && (s.handler.Refilling? ==> t.handler.Resting?))
    && (!done ==>
          && Owned(t) && t.handler == s.handler && t.buffer == s.buffer && t.buffer.Bytes?
          && t.cnt <= |t.buffer.bytes| && (t.base >= 4 ==> s.cnt < t.cnt))
  }

  lemma PassTurns(start: State, s: State, standby: bool)
    requires Inv(s) && Enabled(s, Pass(standby)) && Follows(start, s)
    ensures Turned(start, s, PassSpec(s, standby), PassDone(s, standby))
  {
    PassInv(s, standby);
    PassEnds(s, standby);
    FollowsStep(start, s, Pass(standby));
    PassKeepsBase(s, standby);
  }

  lemma PassKeepsBase(s: State, standby: bool)
    requires s.buffer.Bytes?
    ensures PassSpec(s, standby).base == s.base
    ensures !PassDone(s, standby) ==> Owned(s) == Owned(PassSpec(s, standby))
  {
  }

  lemma LeaveTurns(start: State, s: State)
    requires Inv(s) && Owned(s) && Follows(start, s)
    ensures Turned(start, s, EndSection(s), true)
  {
    NextInv(s, Leave);
    FollowsStep(start, s, Leave);
  }

  lemma TurnTurns(start: State, s: State, m: Moment)
    requires Inv(s) && Owned(s) && Follows(start, s)
    ensures Turned(start, s, TurnSpec(s, m), TurnDone(s, m))
  {
    var t := Elapsed(s, m);
    ElapsedInv(s, m);
    ElapsedFollows(start, s, m);
    if Stuck(t, m) {
      LeaveTurns(start, t);
    } else {
      PassTurns(start, t, m.standby);
    }
  }

  class Haptic {
    var base: uint16
    var af: int
    var buffer: Buffer
    var cnt: uint32
    var init: bool
    var mode: Mode
    var aei: bool
    var worker: Worker
    var handler: Handler
    var fifo: seq<byte>
    ghost var sent: seq<byte>
    ghost var played: seq<byte>
    ghost var outcome: Outcome
    ghost var inBounds: bool
    ghost var stray: bool

    ghost function View(): State
      reads this
    {
      State(base, af, buffer, cnt, init, mode, aei, worker, handler, fifo, sent, played, outcome, inBounds, stray)
    }

    /** container_update's part: the FIFO and its threshold. */
    constructor (base: uint16)
      ensures Initial(View()) && this.base == base && af == DecodeAf(Encode(base))
    {
      this.base, af := base, DecodeAf(Encode(base));
      buffer, cnt, init, mode, aei := NoBuffer, 0, false, Standby, false;
      worker, handler, fifo := Idle, Resting, [];
      sent, played, outcome, inBounds, stray := [], [], NoStream, true, false;
      new;
      WrappedThresholdIsLower(base);
    }

    // ------------------------------------------------------ the chip and stops

    method Consume(n: nat)
      requires n <= |fifo|
      modifies this`fifo, this`played
      ensures View() == Next(old(View()), Drain(n))
    {
      played := played + fifo[..n];
      fifo := fifo[n..];
    }

    method PlayStop()
      modifies this`mode, this`fifo
      ensures View() == Next(old(View()), OtherMode(Standby))
    {
      mode := Standby;
      fifo := [];
    }

    /** What a moment does before the next poll. */
    method Elapse(m: Moment)
      modifies this`fifo, this`played, this`mode
      ensures View() == Elapsed(old(View()), m)
    {
      Consume(if m.drain <= |fifo| then m.drain else |fifo|);
      if m.stop {
        PlayStop();
      }
    }

    // -------------------------------------------------------------- rtp_play

    method SetRtpData(bytes: seq<byte>, n: uint32)
      requires buffer == Bytes(bytes) && n == BufLen(base, |bytes|, cnt)
      modifies this`fifo, this`cnt, this`sent, this`inBounds, this`stray
      ensures View() == SendChunk(old(View()))
    {
      ghost var live := Live(View());
      var chunk := Chunk(bytes, cnt, n);
      stray, inBounds, sent := stray || !live, inBounds && cnt + n <= |bytes|, sent + chunk;
      fifo, cnt := fifo + chunk, U32(cnt + n);
    }

    method NextBufLen(bytes: seq<byte>) returns (n: uint32)
      ensures n == BufLen(base, |bytes|, cnt)
    {
      if cnt < base {
        if Remaining(|bytes|, cnt) < base {
          n := Remaining(|bytes|, cnt);
        } else {
          n := base;
        }
      } else if Remaining(|bytes|, cnt) < Quarter(base) {
        n := Remaining(|bytes|, cnt);
      } else {
        n := Quarter(base);
      }
    }

    /** The break at the end of a stream. */
    method StreamOver(complete: bool)
      modifies this
      ensures View() == EndStream(old(View()), complete)
    {
      outcome := if complete then Completed else Suspended;
      cnt := 0;
      init := false;
      EndOfSection();
    }

    /** One trip round the loop body, to the break or the next poll. The last chunk, or a
        chip seen in standby, ends the stream. */
    method PlayOnce(standby: bool) returns (done: bool)
      requires buffer.Bytes?
      modifies this
      ensures View() == PassSpec(old(View()), standby)
      ensures done <==> PassDone(old(View()), standby)
      ensures standby ==> done
      ensures done ==> !init && cnt == 0 && (outcome == Completed || outcome == Suspended)
    {
      var bytes := buffer.bytes;
      var n := NextBufLen(bytes);
      SetRtpData(bytes, n);
      done := cnt == |bytes| || standby;
      if done {
        StreamOver(cnt == |bytes|);
      }
    }

    /** After the loop: the worker's or the handler's last lines of the section. */
    method EndOfSection()
      modifies this`worker, this`handler, this`aei
      ensures View() == EndSection(old(View()))
    {
      if worker == Filling {
        if mode == Rtp { aei := true; }
        worker := Idle;
      } else {
        if mode != Rtp { aei := false; }
        handler := Resting;
      }
    }

    /** One turn of rtp_play's loop: a moment passes, then the guard and the body. */
    method Turn(m: Moment) returns (done: bool)
      modifies this
      ensures View() == TurnSpec(old(View()), m) && done == TurnDone(old(View()), m)
    {
      Elapse(m);
      if m.full || |fifo| >= af || mode != Rtp || buffer == NoBuffer {
        EndOfSection();
        done := true;
      } else {
        done := PlayOnce(m.standby);
      }
    }

    /** rtp_play and the end of its section, whoever holds rtp_lock, over its first `polls`
        polls. Everything it did is an orderly run. With a FIFO of at least four bytes it
        is over as soon as it has polled more often than the stream has bytes; if nothing
        stands in its way, the whole stream has then been sent. A flag that always reads
        set sends nothing. */
    method RtpPlay(moments: nat -> Moment, polls: nat, ghost start: State) returns (done: bool)
      requires Inv(View()) && Owned(View()) && Follows(start, View())
      modifies this
      ensures Inv(View()) && Follows(start, View()) && base == old(base)
      ensures done ==> !Owned(View()) && (old(handler) == Refilling ==> handler == Resting)
      ensures !done ==> Owned(View()) && handler == old(handler)
      ensures base >= 4 && polls > Size(old(buffer)) ==> done
      ensures base >= 4 && polls > Size(old(buffer)) && old(mode) == Rtp && 0 < old(af) && AllClear(moments, old(base))
              ==> outcome == Completed && sent == old(buffer).bytes
      ensures (forall k: nat :: moments(k).full) ==> sent == old(sent)
    {
      done := false;
      var k := 0;
      ghost var clear := mode == Rtp && 0 < af && AllClear(moments, base);
      while !done && k < polls
        invariant Inv(View()) && Follows(start, View()) && base == old(base) && k <= polls
        invariant done ==> !Owned(View()) && (old(handler) == Refilling ==> handler == Resting)
        invariant !done ==> Owned(View()) && handler == old(handler) && buffer == old(buffer)
        invariant !done && k > 0 ==> buffer.Bytes? && cnt <= |buffer.bytes| && (base >= 4 ==> k <= cnt)
        invariant clear ==> mode == Rtp && 0 < af && buffer == old(buffer)
        invariant clear && done ==> buffer.Bytes? && outcome == Completed && sent == buffer.bytes
        invariant (forall j: nat :: moments(j).full) ==> sent == old(sent)
      {
        ghost var s := View();
        done := TurnOn(moments(k), clear, start);
        k := k + 1;
      }
    }

    /** A turn, with what it means for the stream. */
    method TurnOn(m: Moment, ghost clear: bool, ghost start: State) returns (done: bool)
      requires Inv(View()) && Owned(View()) && Follows(start, View())
      requires clear ==> mode == Rtp && 0 < af && Clear(m, base)
      modifies this
      ensures Turned(start, old(View()), View(), done)
      ensures m.full ==> sent == old(sent)
      ensures clear ==> mode == Rtp && 0 < af && buffer == old(buffer)
      ensures clear && done ==> buffer.Bytes? && outcome == Completed && sent == buffer.bytes
    {
      ghost var s := View();
      TurnTurns(start, s, m);
      if m.full {
        FullTurnSendsNothing(s, m);
      }
      if clear {
        ClearTurnSends(s, m);
      }
      done := Turn(m);
    }

    // --------------------------------------------------------- the work item

    /** First lock section of rtp_work_routine. */
    method WorkQuiet(stateSet: bool)
      requires Enabled(View(), Begin)
      modifies this
      ensures View() == Next(old(View()), if stateSet then Begin else BeginIdle)
    {
      PlayStop();
      aei := false;
      if !stateSet {
        return;
      }
      worker := Quiet;
    }

    /** The rtp_lock section: fetch the file and replace the buffer. */
    method WorkLoad(found: bool, memory: bool, file: seq<byte>)
      requires Enabled(View(), Load(file))
      modifies this
      ensures View() == Next(old(View()), if !found then LoadFails else if !memory then LoadNoMemory else Load(file))
    {
      if !found {
        worker := Idle;
        return;
      }
      init := false;
      outcome := NoStream;
      if !memory {
        buffer := NoBuffer;
        worker := Idle;
        return;
      }
      buffer := Bytes(file);
      worker := Loaded;
    }

    /** Second lock section: arm, enter RTP mode, wait for RTP_GO. */
    method WorkArm(going: bool)
      requires Enabled(View(), Arm(going))
      modifies this
      ensures View() == Next(old(View()), Arm(going))
    {
      init := true;
      mode := Rtp;
      if !going {
        PlayStop();
        worker := Idle;
        return;
      }
      worker := Ready;
    }

    /** Last section: reset the cursor and play, for as many polls. */
    method WorkFill(moments: nat -> Moment, polls: nat) returns (done: bool)
      requires Inv(View()) && Enabled(View(), Enter)
      modifies this
      ensures Inv(View()) && Follows(old(View()), View())
      ensures done ==> !Owned(View())
      ensures base == old(base) && (base >= 4 && polls > |old(buffer).bytes| ==> done)
      ensures base >= 4 && polls > |old(buffer).bytes| && old(mode) == Rtp && 0 < old(af) && AllClear(moments, old(base))
              ==> outcome == Completed && sent == old(buffer).bytes
    {
      ghost var s := View();
      FollowsRefl(s);
      FollowsStep(s, s, Enter);
      NextInv(s, Enter);
      cnt := 0;
      worker := Filling;
      sent, played, outcome := [], [], Streaming;
      done := RtpPlay(moments, polls, s);
    }

    // --------------------------------------------------------- the handler

    /** get_irq_state reads ALMOST_EMPTY or something else. */
    method IrqState(almostEmpty: bool)
      requires Enabled(View(), if almostEmpty then Flag else Ignore) && handler == Resting
      modifies this
      ensures View() == Next(old(View()), if almostEmpty then Flag else Ignore)
    {
      if almostEmpty {
        handler := Flagged;
      } else if mode != Rtp {
        aei := false;
      }
    }

    /** The test of rtp_init, still without the lock. */
    method IrqTest()
      requires handler == Flagged
      modifies this
      ensures View() == Next(old(View()), if old(init) then Test else Ignore)
    {
      if init {
        handler := Pending;
      } else {
        handler := Resting;
        if mode != Rtp { aei := false; }
      }
    }

    /** The section under rtp_lock, whenever the handler gets it. */
    method IrqRefill(moments: nat -> Moment, polls: nat, ghost start: State) returns (done: bool)
      requires Inv(View()) && Follows(start, View()) && Enabled(View(), Join) && Orderly(View(), Join)
      modifies this
      ensures Inv(View()) && Follows(start, View())
      ensures done ==> handler == Resting && !Owned(View())
      ensures base == old(base)
      ensures base >= 4 && polls > Size(old(buffer)) ==> done
      ensures base >= 4 && polls > Size(old(buffer)) && old(mode) == Rtp && 0 < old(af) && AllClear(moments, old(base))
              ==> outcome == Completed && sent == old(buffer).bytes
    {
      ghost var s := View();
      FollowsStep(start, s, Join);
      NextInv(s, Join);
      handler := Refilling;
      done := RtpPlay(moments, polls, start);
    }

    /** irq_handle for one ALMOST_EMPTY, when nothing else comes between its lines. */
    method IrqHandle(moments: nat -> Moment, polls: nat) returns (done: bool)
      requires Inv(View()) && handler == Resting && aei
      modifies this
      ensures Inv(View()) && (done ==> handler == Resting && !Owned(View()))
      ensures Follows(old(View()), View())
      ensures base == old(base)
      ensures base >= 4 && polls > Size(old(buffer)) ==> done
      ensures (base >= 4 && polls > Size(old(buffer)) && old(init) && old(mode) == Rtp && 0 < old(af)
               && AllClear(moments, old(base))) ==> outcome == Completed && sent == old(buffer).bytes
      ensures !old(init) ==> sent == old(sent)
    {
      ghost var s := View();
      FreshFlag(s);
      IrqState(true);
      IrqTest();
      if handler == Resting {
        return true;
      }
      done := IrqRefill(moments, polls, s);
    }

    // ------------------------------------------------------- rtp_osc_cali

    /** What the FIFO holds is the end of what has been sent of the tone. */
    predicate Toning(tone: Tone)
      reads this
    {
      && af <= AlmostFull(base)
      && |fifo| <= cnt <= |tone| && |fifo| <= base && fifo == tone[cnt - |fifo|..cnt]
    }

    /** One poll of the calibration loop: a flag that reads clear below the threshold sends
        the next quarter of the FIFO, and one that reads set sends nothing. */
    method CaliPoll(tone: Tone, m: Moment)
      requires Toning(tone)
      modifies this`fifo, this`cnt
      ensures Toning(tone)
      ensures var left := |old(fifo)| - Min(m.drain, |old(fifo)|);
              && cnt == old(cnt) + (if m.full || left >= af then 0 else Min(base / 4, |tone| - old(cnt)))
              && |fifo| == left + cnt - old(cnt)
    {
      var n := if m.drain <= |fifo| then m.drain else |fifo|;
      fifo := fifo[n..];
      if !(m.full || |fifo| >= af) {
        CaliBurst(tone);
      }
    }

    method CaliBurst(tone: Tone)
      requires Toning(tone) && |fifo| < af
      modifies this`fifo, this`cnt
      ensures Toning(tone) && |fifo| == |old(fifo)| + cnt - old(cnt)
      ensures cnt == old(cnt) + Min(base / 4, |tone| - old(cnt))
    {
      RemainingIs(|tone|, cnt);
      var bufLen: uint32;
      if Remaining(|tone|, cnt) < Quarter(base) {
        bufLen := Remaining(|tone|, cnt);
      } else {
        bufLen := Quarter(base);
      }
      if cnt != |tone| {
        assert tone[cnt - |fifo|..cnt] + tone[cnt..cnt + bufLen] == tone[cnt - |fifo|..cnt + bufLen];
        fifo := fifo + tone[cnt..cnt + bufLen];
        cnt := cnt + bufLen;
      }
    }

    /** The measurement ended with an empty FIFO although the flag always read clear. */
    ghost predicate RanDry(moments: nat -> Moment)
      reads this
    {
      (forall k: nat :: !moments(k).full) && 0 < af && base >= 4 && fifo == []
    }

    /** rtp_osc_cali. Without a file the cursor is cleared and nothing else; without memory
        the stream is gone. Otherwise quarter-size bursts below the threshold until the FIFO
        runs empty or the clock passes the limit, at the latest after `polls` polls. It is
        the machine's calibration step, so the FIFO bound is the same; and if the flag always
        reads clear, the FIFO runs empty only once the whole tone has been sent. */
    method RtpOscCali(file: FileResult, moments: nat -> Moment, polls: nat)
      requires af <= AlmostFull(base) && !Owned(View())
      modifies this
      ensures var s := Next(old(View()), CaliReset);
              match file
              case NoFile => View() == s
              case NoMemory => View() == Next(s, CaliNoMemory)
              case File(tone) =>
                && |fifo| <= base && |fifo| <= cnt <= |tone|
                && Enabled(s, Calibrate(tone, cnt, |fifo|)) && View() == Next(s, Calibrate(tone, cnt, |fifo|))
                && (RanDry(moments) ==> cnt == |tone|)
    {
      CaliClear();
      match file
      case NoFile =>
      case NoMemory => CaliStop();
      case File(tone) => CaliPlay(tone, moments, polls);
    }

    method CaliClear()
      modifies this`cnt
      ensures View() == Next(old(View()), CaliReset)
    {
      cnt := 0;
    }

    method CaliPlay(tone: Tone, moments: nat -> Moment, polls: nat)
      requires af <= AlmostFull(base) && !Owned(View()) && cnt == 0
      modifies this
      ensures |fifo| <= base && |fifo| <= cnt <= |tone|
      ensures Enabled(old(View()), Calibrate(tone, cnt, |fifo|))
      ensures View() == Next(old(View()), Calibrate(tone, cnt, |fifo|))
      ensures RanDry(moments) ==> cnt == |tone|
    {
      CaliStop();
      buffer := Bytes(tone);
      mode := Rtp;
      CaliLoop(tone, moments, polls);
    }

    method CaliStop()
      modifies this
      ensures View() == old(View()).(buffer := NoBuffer, init := false, mode := Standby, outcome := NoStream, fifo := [])
    {
      PlayStop();
      init := false;
      outcome := NoStream;
      buffer := NoBuffer;
    }

    method CaliLoop(tone: Tone, moments: nat -> Moment, polls: nat)
      requires Toning(tone)
      modifies this`fifo, this`cnt
      ensures Toning(tone) && (RanDry(moments) ==> cnt == |tone|)
    {
      var k := 0;
      while true
        invariant 0 <= k <= polls && Toning(tone)
        decreases polls - k
      {
        CaliPoll(tone, moments(k));
        if |fifo| == 0 {
          break;
        }
        if k == polls {
          break;
        }
        k := k + 1;
      }
    }
  }

  lemma RemainingIs(len: int, cnt: uint32)
    requires 0 <= cnt <= len <= INT_MAX
    ensures Remaining(len, cnt) == len - cnt
  {
  }
}
