/** The RTP streaming protocol as a machine: the work item, the threaded interrupt
    handler, the other lock holders and the chip take turns.

    A step is one section under a lock, or one pass of the refill loop, so a stop or a
    drain may fall between any two passes. The handler's reading of the interrupt flag, its
    test of rtp_init and the refill are three steps, because the first two are made before
    rtp_lock is taken. */
module RtpStream {
  import opened CInt
  import opened Regs
  import opened FifoThreshold

  /** Where rtp_work_routine stands; it holds rtp_lock only while Filling. */
  datatype Worker = Idle | Quiet | Loaded | Ready | Filling

  /** Where irq_handle stands: it has read ALMOST_EMPTY when Flagged, and found rtp_init set
      when Pending. It holds rtp_lock only while Refilling. */
  datatype Handler = Resting | Flagged | Pending | Refilling

  /** aw_rtp: no allocation, or the stream's bytes. */
  datatype Buffer = NoBuffer | Bytes(bytes: seq<byte>)

  datatype Outcome = NoStream | Streaming | Completed | Suspended

  /** sent, played, outcome, inBounds and stray record what happened; the code has no
      such fields. sent and played start afresh with every stream. */
  datatype State = State(
    base: uint16,        // ram.base_addr, two bytes of the image: the FIFO's size
    af: int,             // the almost-full threshold in the registers
    buffer: Buffer,
    cnt: uint32,         // rtp_cnt
    init: bool,          // rtp_init
    mode: Mode,          // play_mode
    aei: bool,           // almost-empty interrupt unmasked
    worker: Worker,
    handler: Handler,
    fifo: seq<byte>,
    sent: seq<byte>,     // written to RTPDATA
    played: seq<byte>,   // consumed by the chip
    outcome: Outcome,
    inBounds: bool,      // every chunk lay inside the buffer
    stray: bool)         // some chunk was written while no stream was live

  datatype Step =
    | Begin | BeginIdle                   // first lock section, with and without state set
    | Load(file: seq<byte>) | LoadFails | LoadNoMemory   // the rtp_lock section
    | Arm(going: bool)                    // second lock section; RTP_GO seen or not
    | Enter                               // worker takes rtp_lock again
    | Pass(standby: bool)                 // one pass of rtp_play; chip seen in standby or not
    | Leave                               // the loop guard fails and the section ends
    | Flag                                // handler reads ALMOST_EMPTY
    | Test                                // and then finds rtp_init set
    | Ignore                              // any other interrupt, or rtp_init found clear
    | Join                                // handler takes rtp_lock
    | Drain(n: nat)                       // the chip plays n bytes
    | OtherMode(m: Mode)                  // another lock holder stops, perhaps to start m
    | CaliReset                           // rtp_osc_cali's first line; without a file it ends here
    | CaliNoMemory                        // its rtp_lock section, when the allocation fails
    | Calibrate(tone: seq<byte>, upTo: nat, left: nat)   // all of it after the first line

  // ---------------------------------------------------------------- rtp_play

  /** aw_rtp->len - rtp_cnt in unsigned arithmetic. */
  function Remaining(len: int, cnt: uint32): uint32 {
    U32(len - cnt)
  }

  function BufLen(base: uint32, len: int, cnt: uint32): uint32 {
    if cnt < base then (if Remaining(len, cnt) < base then Remaining(len, cnt) else base)
    else if Remaining(len, cnt) < Quarter(base) then Remaining(len, cnt)
    else Quarter(base)
  }

  /** The bytes read from &data[cnt]; past the end of the buffer they are anything. */
  function Chunk(bytes: seq<byte>, cnt: nat, n: nat): (c: seq<byte>)
    ensures |c| == n
  {
    if cnt + n <= |bytes| then bytes[cnt..cnt + n] else seq(n, _ => 0)
  }

  /** A stream is live from the worker's cursor reset until it completes, is suspended,
      or the worker starts over. */
  predicate Live(s: State) {
    s.outcome.Streaming? && (s.worker.Idle? || s.worker.Filling?)
  }

  /** The section's end: the worker unmasks the interrupt for a playing chip, the
      handler masks it for any other. */
  function EndSection(s: State): State {
    if s.worker.Filling? then s.(worker := Idle, aei := s.aei || s.mode.Rtp?)
    else s.(handler := Resting, aei := s.aei && s.mode.Rtp?)
  }

  /** set_rtp_data of the next chunk, and the cursor behind it. */
  function SendChunk(s: State): State
    requires s.buffer.Bytes?
  {
    var bytes := s.buffer.bytes;
    var n := BufLen(s.base, |bytes|, s.cnt);
    var chunk := Chunk(bytes, s.cnt, n);
    s.(fifo := s.fifo + chunk, sent := s.sent + chunk, cnt := U32(s.cnt + n),
       inBounds := s.inBounds && s.cnt + n <= |bytes|, stray := s.stray || !Live(s))
  }

  /** The break at the end of a stream, and the end of the section. */
  function EndStream(s: State, complete: bool): State {
    EndSection(s.(cnt := 0, init := false, outcome := if complete then Completed else Suspended))
  }

  function PassSpec(s: State, standby: bool): State
    requires s.buffer.Bytes?
  {
    var t := SendChunk(s);
    if t.cnt == |s.buffer.bytes| then EndStream(t, true)
    else if standby then EndStream(t, false)
    else t
  }

  // ------------------------------------------------------------- transitions

  predicate Owned(s: State) {
    s.worker.Filling? || s.handler.Refilling?
  }

  predicate Enabled(s: State, step: Step) {
    match step
    case Begin => s.worker.Idle? && s.base != 0
    case BeginIdle => s.worker.Idle? && s.base != 0
    case Load(file) => s.worker.Quiet? && !Owned(s) && |file| <= INT_MAX
    case LoadFails => s.worker.Quiet? && !Owned(s)
    case LoadNoMemory => s.worker.Quiet? && !Owned(s)
    case Arm(_) => s.worker.Loaded?
    case Enter => s.worker.Ready? && !Owned(s)
    // The flag reads clear only below the threshold.
    case Pass(_) => Owned(s) && |s.fifo| < s.af && s.mode.Rtp? && s.buffer.Bytes?
    // It may read set anywhere, so a section may always end.
    case Leave => Owned(s)
    case Flag => s.handler.Resting? && s.aei
    case Test => s.handler.Flagged? && s.init
    case Ignore => s.handler.Resting? || (s.handler.Flagged? && !s.init)
    case Join => s.handler.Pending? && !Owned(s)
    case Drain(n) => n <= |s.fifo|
    case OtherMode(m) => !m.Rtp?
    case CaliReset => true
    case CaliNoMemory => !Owned(s)
    case Calibrate(tone, upTo, left) => !Owned(s) && left <= upTo <= |tone| <= INT_MAX && left <= s.base
  }

  function Next(s: State, step: Step): State
    requires Enabled(s, step)
  {
    match step
    case Begin => s.(worker := Quiet, mode := Standby, fifo := [], aei := false)
    case BeginIdle => s.(mode := Standby, fifo := [], aei := false)
    case Load(file) => s.(worker := Loaded, buffer := Bytes(file), init := false, outcome := NoStream)
    case LoadFails => s.(worker := Idle)
    case LoadNoMemory => s.(worker := Idle, buffer := NoBuffer, init := false, outcome := NoStream)
    case Arm(going) =>
      if going then s.(worker := Ready, init := true, mode := Rtp)
      else s.(worker := Idle, init := true, mode := Standby, fifo := [])
    case Enter => s.(worker := Filling, cnt := 0, sent := [], played := [], outcome := Streaming)
    case Pass(standby) => PassSpec(s, standby)
    case Leave => EndSection(s)
    case Flag => s.(handler := Flagged)
    case Test => s.(handler := Pending)
    case Ignore => s.(handler := Resting, aei := s.aei && s.mode.Rtp?)
    case Join => s.(handler := Refilling)
    case Drain(n) => s.(fifo := s.fifo[n..], played := s.played + s.fifo[..n])
    case OtherMode(m) => s.(mode := m, fifo := [])
    case CaliReset => s.(cnt := 0)
    case CaliNoMemory =>
      s.(buffer := NoBuffer, cnt := 0, init := false, mode := Standby, outcome := NoStream, fifo := [])
    case Calibrate(tone, upTo, left) =>
      s.(buffer := Bytes(tone), cnt := upTo, init := false, mode := Rtp, outcome := NoStream,
         fifo := tone[upTo - left..upTo])
  }

  predicate Legal(s: State, steps: seq<Step>)
    decreases |steps|
  {
    steps == [] || (Enabled(s, steps[0]) && Legal(Next(s, steps[0]), steps[1..]))
  }

  function Run(s: State, steps: seq<Step>): State
    requires Legal(s, steps)
    decreases |steps|
  {
    if steps == [] then s else Run(Next(s, steps[0]), steps[1..])
  }

  /** After the RAM image set base_addr and the threshold; nothing has streamed yet. */
  predicate Initial(s: State) {
    && s.af <= AlmostFull(s.base)
    && s.buffer == NoBuffer && s.cnt == 0 && !s.init && !s.mode.Rtp? && !s.aei
    && s.worker.Idle? && s.handler.Resting?
    && s.fifo == s.sent == s.played == []
    && s.outcome.NoStream? && s.inBounds && !s.stray
  }

  /** The entries that need care. A handler that tested rtp_init earlier may join only
      where the test would still succeed, or where the mode keeps its loop from running. A
      calibration may clear the cursor only while no stream plays, and take rtp_lock only
      while no work item is under way, or none past its first section if it then fails. */
  predicate Orderly(s: State, step: Step) {
    match step
    case Join => (
      match s.worker
      case Idle => s.init || !s.mode.Rtp?
      case Quiet => true
      case Ready => !s.mode.Rtp?
      case Loaded => false
      case Filling => false)
    case CaliReset => s.outcome.Streaming? && s.mode.Rtp? ==> s.cnt == 0
    case CaliNoMemory => s.worker.Idle? || s.worker.Quiet?
    case Calibrate(_, _, _) => s.worker.Idle?
    case _ => true
  }

  predicate AllOrderly(s: State, steps: seq<Step>)
    requires Legal(s, steps)
    decreases |steps|
  {
    steps == [] || (Orderly(s, steps[0]) && AllOrderly(Next(s, steps[0]), steps[1..]))
  }

  // --------------------------------------------------------------- invariant

  /** What was sent is what the cursor says, and the chip has it or has played it. */
  predicate Conserved(s: State) {
    match s.outcome
    case NoStream => true
    case Streaming =>
      && s.buffer.Bytes? && s.cnt <= |s.buffer.bytes| && s.sent <= s.buffer.bytes
      && (s.mode.Rtp? ==> s.sent == s.buffer.bytes[..s.cnt] && s.played + s.fifo == s.sent)
    case Completed =>
      && s.buffer.Bytes? && s.sent == s.buffer.bytes
      && (s.mode.Rtp? ==> s.played + s.fifo == s.sent)
    case Suspended =>
      && s.buffer.Bytes? && s.sent <= s.buffer.bytes
      && (s.mode.Rtp? ==> s.played + s.fifo == s.sent)
  }

  /** The worker is past its first section and has not reset the cursor. */
  predicate Preparing(s: State) {
    s.worker.Quiet? || s.worker.Loaded? || s.worker.Ready?
  }

  predicate Inv(s: State) {
    && s.af <= AlmostFull(s.base)
    && (s.buffer.Bytes? ==> |s.buffer.bytes| <= INT_MAX)
    && |s.fifo| <= s.base
    && s.inBounds && !s.stray
    && Conserved(s)
    && !(s.worker.Filling? && s.handler.Refilling?)
    // between streams
    && (Preparing(s) ==> s.fifo == [] && !s.aei)
    && (s.worker.Filling? ==> !s.aei)
    && (s.worker.Quiet? || s.worker.Loaded? ==> !s.mode.Rtp?)
    && (s.worker.Loaded? || s.worker.Ready? ==> s.buffer.Bytes? && s.outcome.NoStream?)
    && (s.worker.Loaded? || s.buffer.NoBuffer? ==> !s.init)
    && (s.worker.Ready? ==> s.init)
    && (s.mode.Rtp? ==> s.buffer.Bytes?)
    // a live stream: its cursor is at the start or past the first burst, and it can be
    // refilled exactly while it is live
    && (s.outcome.Streaming? ==> (s.cnt == 0 || s.base <= s.cnt < |s.buffer.bytes|))
    && (s.mode.Rtp? && (s.worker.Idle? || s.worker.Filling?) ==> (s.init <==> s.outcome.Streaming?))
    && (s.worker.Filling? ==> s.outcome.Streaming? && s.init)
    && (s.outcome.Streaming? && s.mode.Rtp? && s.worker.Idle? ==> s.aei)
    // the handler's section
    && (s.handler.Refilling? ==> s.worker.Idle? || s.worker.Quiet? || (s.worker.Ready? && !s.mode.Rtp?))
    && (s.handler.Refilling? && s.mode.Rtp? ==> s.init)
  }

  lemma InitialInv(s: State)
    requires Initial(s)
    ensures Inv(s)
  {
  }

  /** The length of the next chunk, for a cursor inside the buffer. */
  lemma BufLenIs(base: uint16, len: int, cnt: uint32)
    requires cnt <= len <= INT_MAX && (cnt == 0 || base <= cnt)
    ensures BufLen(base, len, cnt) == if cnt == 0 then Min(base, len) else Min(Quarter(base), len - cnt)
  {
    assert Remaining(len, cnt) == len - cnt;
  }

  /** A state in which a pass is possible belongs to a live stream. */
  lemma PassIsLive(s: State, standby: bool)
    requires Inv(s) && Enabled(s, Pass(standby))
    ensures Live(s) && s.init && s.cnt <= |s.buffer.bytes| <= INT_MAX
    ensures s.sent == s.buffer.bytes[..s.cnt] && s.played + s.fifo == s.sent
    ensures if s.cnt == 0 then s.fifo == [] else s.base <= s.cnt < |s.buffer.bytes|
    ensures |s.fifo| < AlmostFull(s.base)
  {
  }

  /** What a pass of a live stream sends. */
  lemma LivePass(s: State, standby: bool)
    requires Inv(s) && Enabled(s, Pass(standby))
    ensures Live(s) && s.init
    ensures var bytes := s.buffer.bytes;
            var n := BufLen(s.base, |bytes|, s.cnt);
            && s.cnt + n <= |bytes| && Chunk(bytes, s.cnt, n) == bytes[s.cnt..s.cnt + n]
            && U32(s.cnt + n) == s.cnt + n
            && |s.fifo| + n <= s.base
            && s.sent + Chunk(bytes, s.cnt, n) == bytes[..s.cnt + n]
            && (s.cnt + n < |bytes| ==> s.cnt + n == 0 || s.base <= s.cnt + n)
  {
    PassIsLive(s, standby);
    var bytes := s.buffer.bytes;
    BufLenIs(s.base, |bytes|, s.cnt);
    var n := BufLen(s.base, |bytes|, s.cnt);
    assert bytes[..s.cnt] + bytes[s.cnt..s.cnt + n] == bytes[..s.cnt + n];
  }

  /** The bookkeeping of a pass before its end test. */
  lemma SendConserves(s: State, standby: bool)
    requires Inv(s) && Enabled(s, Pass(standby))
    ensures var bytes, t := s.buffer.bytes, SendChunk(s);
            && t == s.(fifo := t.fifo, sent := t.sent, cnt := t.cnt)
            && t.cnt == s.cnt + BufLen(s.base, |bytes|, s.cnt) <= |bytes| && t.sent == bytes[..t.cnt]
            && t.played + t.fifo == t.sent && |t.fifo| <= t.base
            && (t.cnt < |bytes| ==> t.cnt == 0 || s.base <= t.cnt)
  {
    LivePass(s, standby);
    SameTail(s.played, s.fifo, s.sent, Chunk(s.buffer.bytes, s.cnt, BufLen(s.base, |s.buffer.bytes|, s.cnt)));
  }

  lemma SameTail(a: seq<byte>, b: seq<byte>, whole: seq<byte>, tail: seq<byte>)
    ensures a + b == whole ==> a + (b + tail) == whole + tail
  {
    assert a + (b + tail) == (a + b) + tail;
  }

  lemma PassInv(s: State, standby: bool)
    requires Inv(s) && Enabled(s, Pass(standby))
    ensures Inv(PassSpec(s, standby))
  {
    SendConserves(s, standby);
    PassIsLive(s, standby);
    var t := SendChunk(s);
    if t.cnt == |s.buffer.bytes| {
      assert s.buffer.bytes[..t.cnt] == s.buffer.bytes;
      EndInv(s, t, true);
    } else if standby {
      EndInv(s, t, false);
    }
  }

  /** Ending a stream whose books are in order. */
  lemma EndInv(s: State, t: State, complete: bool)
    requires Inv(s) && Owned(s) && s.mode.Rtp? && s.buffer.Bytes?
    requires t == s.(fifo := t.fifo, sent := t.sent, cnt := t.cnt)
    requires |t.fifo| <= t.base && t.played + t.fifo == t.sent && t.sent <= t.buffer.bytes
    requires complete ==> t.sent == t.buffer.bytes
    ensures Inv(EndStream(t, complete))
  {
    assert Conserved(EndStream(t, complete));
  }

  lemma WorkerInv(s: State, step: Step)
    requires Inv(s) && Enabled(s, step)
    requires step.Begin? || step.BeginIdle? || step.Load? || step.LoadFails? || step.LoadNoMemory? || step.Arm? || step.Enter?
    ensures Inv(Next(s, step))
  {
    var t := Next(s, step);
    assert Conserved(t);
  }

  lemma HandlerInv(s: State, step: Step)
    requires Inv(s) && Enabled(s, step) && Orderly(s, step)
    requires step.Leave? || step.Flag? || step.Test? || step.Ignore? || step.Join?
    ensures Inv(Next(s, step))
  {
    var t := Next(s, step);
    assert Conserved(t);
  }

  lemma DrainInv(s: State, n: nat)
    requires Inv(s) && Enabled(s, Drain(n))
    ensures Inv(Next(s, Drain(n)))
  {
    var t := Next(s, Drain(n));
    assert s.fifo[..n] + s.fifo[n..] == s.fifo;
    assert t.played + t.fifo == s.played + s.fifo;
  }

  lemma OthersInv(s: State, step: Step)
    requires Inv(s) && Enabled(s, step) && Orderly(s, step)
    requires step.OtherMode? || step.CaliReset? || step.CaliNoMemory? || step.Calibrate?
    ensures Inv(Next(s, step))
  {
    var t := Next(s, step);
    assert Conserved(t);
  }

  lemma NextInv(s: State, step: Step)
    requires Inv(s) && Enabled(s, step) && Orderly(s, step)
    ensures Inv(Next(s, step))
  {
    match step
    case Pass(standby) => PassInv(s, standby);
    case Drain(n) => DrainInv(s, n);
    case Leave => HandlerInv(s, step);
    case Flag => HandlerInv(s, step);
    case Test => HandlerInv(s, step);
    case Ignore => HandlerInv(s, step);
    case Join => HandlerInv(s, step);
    case OtherMode(_) => OthersInv(s, step);
    case CaliReset => OthersInv(s, step);
    case CaliNoMemory => OthersInv(s, step);
    case Calibrate(_, _, _) => OthersInv(s, step);
    case _ => WorkerInv(s, step);
  }
}
