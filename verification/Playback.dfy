/** The stop timer and the single-threaded work queue around the playback modes. A work
    item runs as one step, under `lock`; the timer and the stores fall between. */
module Playback {
  import opened CInt
  import opened Regs

  datatype Work = Vib | InputVib | StopWork | RtpWork

  datatype State = State(
    mode: Mode,          // play_mode
    activate: Mode,      // activate_mode
    state: nat,          // state: what the last store asked for
    timer: bool,         // the stop timer is armed
    queue: seq<Work>,    // pending items, first to run first
    ramInit: bool)       // ram_init: a RAM image is in use

  datatype Event =
    | Activate(value: nat, to: Mode)   // activate_store, brightness_set
    | SetActivate(to: Mode)            // activate_mode_store, input_upload_effect
    | InputPlay(val: int)              // input_playback
    | RtpStore(valid: bool)            // rtp_store
    | TimerFires                       // vibrator_timer_func
    | RunNext(rtpOk: bool, baseZero: bool)   // the queue runs its first item
    | OtherMode(m: Mode)               // another lock holder stops, perhaps to start m
    | RamInit(loaded: bool)            // ram_update clears ram_init, ram_load sets it

  /** queue_work: an item already pending is not queued again. */
  function Queued(q: seq<Work>, w: Work): seq<Work> {
    if w in q then q else q + [w]
  }

  /** A work item's effect once it has the lock. */
  function Exec(s: State, w: Work, rtpOk: bool, baseZero: bool): State {
    var halted := s.(mode := Standby, timer := false);
    match w
    case StopWork => halted
    case RtpWork =>
      if baseZero then s
      else if s.state != 0 && rtpOk then halted.(mode := Rtp)
      else halted
    case _ =>
      if s.state == 0 then halted
      else if s.activate.Ram? then halted.(mode := Ram)
      else if s.activate.RamLoop? then halted.(mode := RamLoop, timer := true)
      else if s.activate.Cont? && w.Vib? then halted.(mode := Cont, timer := true)
      else halted
  }

  predicate Enabled(s: State, e: Event) {
    match e
    case TimerFires => s.timer
    case RunNext(_, _) => s.queue != []
    case OtherMode(m) => !m.RamLoop?
    case _ => true
  }

  function Step(s: State, e: Event): State
    requires Enabled(s, e)
  {
    match e
    case Activate(value, to) =>
      if !s.ramInit then s
      else s.(state := value, activate := to, queue := Queued(s.queue, Vib))
    case SetActivate(to) => s.(activate := to)
    case InputPlay(val) =>
      if !s.ramInit then s
      else if val <= 0 then s.(queue := Queued(s.queue, StopWork))
      else if s.activate.Ram? || s.activate.RamLoop? then s.(state := 1, queue := Queued(s.queue, InputVib))
      else if s.activate.Rtp? then s.(state := 1, queue := Queued(s.queue, RtpWork))
      else s.(state := 1)
    case RtpStore(valid) => s.(state := if valid then 1 else 0, queue := Queued(s.queue, RtpWork))
    case TimerFires => s.(timer := false, state := 0, queue := Queued(s.queue, Vib))
    case RunNext(rtpOk, baseZero) => Exec(s.(queue := s.queue[1..]), s.queue[0], rtpOk, baseZero)
    case OtherMode(m) => s.(mode := m)
    case RamInit(loaded) => s.(ramInit := loaded)
  }

  predicate Legal(s: State, es: seq<Event>)
    decreases |es|
  {
    es == [] || (Enabled(s, es[0]) && Legal(Step(s, es[0]), es[1..]))
  }

  function Run(s: State, es: seq<Event>): State
    requires Legal(s, es)
    decreases |es|
  {
    if es == [] then s else Run(Step(s, es[0]), es[1..])
  }

  // -------------------------------------------------------------- the driver

  class Haptic {
    var playMode: Mode
    var activateMode: Mode
    var state: nat
    var timer: bool
    var queue: seq<Work>
    var ramInit: bool

    function View(): State
      reads this
    {
      State(playMode, activateMode, state, timer, queue, ramInit)
    }

    method QueueWork(w: Work)
      modifies this`queue
      ensures queue == Queued(old(queue), w)
    {
      if w !in queue {
        queue := queue + [w];
      }
    }

    method PlayStop()
      modifies this`playMode
      ensures playMode == Standby
    {
      playMode := Standby;
    }

    method VibratorTimerFunc()
      requires Enabled(View(), TimerFires)
      modifies this
      ensures View() == Step(old(View()), TimerFires)
    {
      timer := false;
      state := 0;
      QueueWork(Vib);
    }

    method VibratorWorkRoutine()
      modifies this
      ensures View() == Exec(old(View()), Vib, false, false)
    {
      timer := false;
      PlayStop();
      if state != 0 {
        if activateMode.Ram? {
          playMode := Ram;
        } else if activateMode.RamLoop? {
          playMode := RamLoop;
          timer := true;
        } else if activateMode.Cont? {
          playMode := Cont;
          timer := true;
        }
      }
    }

    method InputVibWorkRoutine()
      modifies this
      ensures View() == Exec(old(View()), InputVib, false, false)
    {
      timer := false;
      PlayStop();
      if state != 0 {
        if activateMode.Ram? {
          playMode := Ram;
        } else if activateMode.RamLoop? {
          playMode := RamLoop;
          timer := true;
        }
      }
    }

    method InputStopWorkRoutine()
      modifies this
      ensures View() == Exec(old(View()), StopWork, false, false)
    {
      timer := false;
      PlayStop();
    }

    /** rtp_work_routine as far as mode and timer are concerned. */
    method RtpWorkRoutine(rtpOk: bool, baseZero: bool)
      modifies this
      ensures View() == Exec(old(View()), RtpWork, rtpOk, baseZero)
    {
      if baseZero {
        return;
      }
      timer := false;
      PlayStop();
      if state == 0 {
        return;
      }
      if rtpOk {
        playMode := Rtp;
      }
    }

    /** The work queue takes its first item and runs it. */
    method RunFirst(rtpOk: bool, baseZero: bool)
      requires Enabled(View(), RunNext(rtpOk, baseZero))
      modifies this
      ensures View() == Step(old(View()), RunNext(rtpOk, baseZero))
    {
      var w := queue[0];
      queue := queue[1..];
      match w
      case Vib => VibratorWorkRoutine();
      case InputVib => InputVibWorkRoutine();
      case StopWork => InputStopWorkRoutine();
      case RtpWork => RtpWorkRoutine(rtpOk, baseZero);
    }

    method ActivateStore(value: nat, to: Mode)
      modifies this
      ensures View() == Step(old(View()), Activate(value, to))
    {
      if !ramInit {
        return;
      }
      state := value;
      activateMode := to;
      QueueWork(Vib);
    }

    /** Without a RAM image the request is refused, a stop included. */
    method InputPlayback(val: int) returns (ret: int)
      modifies this
      ensures View() == Step(old(View()), InputPlay(val))
      ensures ret == if ramInit then 0 else -ERANGE
    {
      if !ramInit {
        return -ERANGE;
      }
      ret := 0;
      if val > 0 {
        state := 1;
      } else {
        QueueWork(StopWork);
        return;
      }
      if activateMode.Ram? || activateMode.RamLoop? {
        QueueWork(InputVib);
      } else if activateMode.Rtp? {
        QueueWork(RtpWork);
      }
    }
  }

  // ------------------------------------------------------ loops have an end

  /** Looped playback always has its end in sight. */
  predicate LoopBounded(s: State) {
    s.mode.RamLoop? ==> s.timer || Vib in s.queue
  }

  lemma QueuedHas(q: seq<Work>, w: Work)
    ensures w in Queued(q, w) && (forall v :: v in q ==> v in Queued(q, w))
  {
  }

  lemma StepLoopBounded(s: State, e: Event)
    requires LoopBounded(s) && Enabled(s, e)
    ensures LoopBounded(Step(s, e))
  {
    match e
    case Activate(_, _) => QueuedHas(s.queue, Vib);
    case TimerFires => QueuedHas(s.queue, Vib);
    case InputPlay(_) =>
      QueuedHas(s.queue, StopWork);
      QueuedHas(s.queue, InputVib);
      QueuedHas(s.queue, RtpWork);
    case RtpStore(_) => QueuedHas(s.queue, RtpWork);
    case RunNext(_, _) =>
      assert s.queue == [s.queue[0]] + s.queue[1..];
    case _ =>
  }

  /** In every reachable state, RAM loop mode implies the timer or the work that stops it. */
  lemma {:induction false} LoopBoundedOverRuns(s: State, es: seq<Event>)
    requires LoopBounded(s) && Legal(s, es)
    ensures LoopBounded(Run(s, es))
    decreases |es|
  {
    if es != [] {
      StepLoopBounded(s, es[0]);
      LoopBoundedOverRuns(Step(s, es[0]), es[1..]);
    }
  }

  /** An event that may set state to something non-zero. */
  predicate Requests(e: Event) {
    (e.Activate? && e.value != 0) || (e.InputPlay? && e.val > 0) || (e.RtpStore? && e.valid)
  }

  function RunCount(es: seq<Event>): nat {
    if es == [] then 0 else (if es[0].RunNext? then 1 else 0) + RunCount(es[1..])
  }

  /** With state zero, the item at position i stops a loop no later than its turn. */
  predicate Ending(s: State, i: int) {
    s.state == 0 && (s.mode.RamLoop? ==> 0 <= i < |s.queue| && s.queue[i] == Vib)
  }

  lemma StepEnding(s: State, e: Event, i: int)
    requires Ending(s, i) && Enabled(s, e) && !Requests(e)
    ensures Ending(Step(s, e), if e.RunNext? then i - 1 else i)
  {
  }

  lemma {:induction false} RunEnding(s: State, es: seq<Event>, i: int)
    requires Ending(s, i) && Legal(s, es) && (forall e :: e in es ==> !Requests(e))
    ensures Ending(Run(s, es), i - RunCount(es))
    decreases |es|
  {
    if es != [] {
      assert es[0] in es;
      StepEnding(s, es[0], i);
      RunEnding(Step(s, es[0]), es[1..], if es[0].RunNext? then i - 1 else i);
    }
  }

  /** Once the timer has fired and nothing asks for playback again, the loop is over by
      the time the queue as it then stood has been worked off, and stays over. */
  lemma LoopEnds(s: State, es: seq<Event>)
    requires Enabled(s, TimerFires)
    requires Legal(Step(s, TimerFires), es) && (forall e :: e in es ==> !Requests(e))
    requires RunCount(es) >= |Step(s, TimerFires).queue|
    ensures !Run(Step(s, TimerFires), es).mode.RamLoop?
  {
    var t := Step(s, TimerFires);
    QueuedHas(s.queue, Vib);
    var i :| 0 <= i < |t.queue| && t.queue[i] == Vib;
    RunEnding(t, es, i);
  }

  /** The stopping item itself leaves standby. */
  lemma EndsInStandby(s: State, rtpOk: bool, baseZero: bool)
    requires s.queue != [] && s.queue[0] == Vib && s.state == 0
    ensures Step(s, RunNext(rtpOk, baseZero)).mode.Standby? && !Step(s, RunNext(rtpOk, baseZero)).timer
  {
  }

  // ------------------------------------------------- what the work items do

  /** Running an item touches only mode, timer and queue. */
  lemma WorkKeepsFields(s: State, rtpOk: bool, baseZero: bool)
    requires s.queue != []
    ensures var t := Step(s, RunNext(rtpOk, baseZero));
            t.queue == s.queue[1..] && t.state == s.state && t.activate == s.activate && t.ramInit == s.ramInit
  {
  }

  /** stop_work stops, whatever state asks for. */
  lemma StopWorkStops(s: State, rtpOk: bool, baseZero: bool)
    requires s.queue != [] && s.queue[0] == StopWork
    ensures Step(s, RunNext(rtpOk, baseZero)).mode == Standby && !Step(s, RunNext(rtpOk, baseZero)).timer
  {
  }

  /** Either playing item ends in the mode that was to be activated, the continuous one for
      vibrator_work only, or in standby; the timer runs exactly for the two modes that do
      not end by themselves. */
  lemma PlayingWorkPlays(s: State, rtpOk: bool, baseZero: bool)
    requires s.queue != [] && (s.queue[0] == Vib || s.queue[0] == InputVib) && s.state != 0
    ensures var t := Step(s, RunNext(rtpOk, baseZero));
            && (s.activate == Ram || s.activate == RamLoop ==> t.mode == s.activate)
            && (s.activate == Cont ==> t.mode == if s.queue[0] == Vib then Cont else Standby)
            && (s.activate != Ram && s.activate != RamLoop && s.activate != Cont ==> t.mode == Standby)
            && (t.timer <==> t.mode == RamLoop || t.mode == Cont)
  {
  }

  /** rtp_work does nothing without a RAM image's base address. With one it stops what
      plays, and streams exactly when state asks for it and the stream gets going. */
  lemma RtpWorkStreams(s: State, rtpOk: bool, baseZero: bool)
    requires s.queue != [] && s.queue[0] == RtpWork
    ensures var t := Step(s, RunNext(rtpOk, baseZero));
            if baseZero then t.mode == s.mode && t.timer == s.timer
            else !t.timer && t.mode == if s.state != 0 && rtpOk then Rtp else Standby
  {
  }

  // ------------------------------------------------------ requests can be lost

  /** Neither a store nor a change of the mode to activate. */
  predicate Passive(e: Event) {
    e.TimerFires? || e.RunNext? || e.OtherMode? || e.RamInit?
  }

  /** An item waits its turn; only the timer changes what it will find. */
  lemma {:induction false} ItemWaits(s: State, es: seq<Event>, i: nat)
    requires Legal(s, es) && (forall e :: e in es ==> Passive(e)) && RunCount(es) == i
    requires i < |s.queue|
    ensures var t := Run(s, es);
            && t.queue != [] && t.queue[0] == s.queue[i] && t.activate == s.activate
            && t.state == (if TimerFires in es then 0 else s.state)
    decreases |es|
  {
    if es != [] {
      assert es[0] in es;
      assert TimerFires in es <==> es[0] == TimerFires || TimerFires in es[1..];
      var s' := Step(s, es[0]);
      assert es[0].TimerFires? ==> s'.queue[i] == s.queue[i];
      ItemWaits(s', es[1..], if es[0].RunNext? then i - 1 else i);
    }
  }

  /** The stores that ask for playback, the item each queues, and the mode it asks for. */
  predicate Asks(s: State, e: Event, w: Work, to: Mode) {
    match e
    case Activate(value, m) => s.ramInit && value != 0 && w == Vib && to == m && (m.Ram? || m.RamLoop? || m.Cont?)
    case InputPlay(val) =>
      && s.ramInit && val > 0 && to == s.activate
      && ((w == InputVib && (to.Ram? || to.RamLoop?)) || (w == RtpWork && to.Rtp?))
    case RtpStore(valid) => valid && w == RtpWork && to == Rtp
    case _ => false
  }

  /** A request is queued, and if it is made before its item runs it is honoured exactly when
      the timer of the previous playback does not fire in between. */
  lemma RequestHonouredIff(s: State, e: Event, w: Work, to: Mode, es: seq<Event>, i: nat)
    requires Asks(s, e, w, to)
    requires i < |Step(s, e).queue| && Step(s, e).queue[i] == w
    requires Legal(Step(s, e), es) && (forall p :: p in es ==> Passive(p)) && RunCount(es) == i
    ensures var t := Run(Step(s, e), es);
            t.queue != [] && (Step(t, RunNext(true, false)).mode == to <==> TimerFires !in es)
  {
    ItemWaits(Step(s, e), es, i);
  }

  lemma RequestIsQueued(s: State, e: Event, w: Work, to: Mode)
    requires Asks(s, e, w, to)
    ensures w in Step(s, e).queue && Step(s, e).state != 0 && Step(s, e).activate == if e.Activate? then to else s.activate
  {
    QueuedHas(s.queue, w);
  }

  /** A stop asked for through the input framework is honoured when its turn comes, whatever
      fires or plays in between, provided a RAM image was in use when it was made. */
  lemma StopHonoured(s: State, val: int, es: seq<Event>, i: nat, rtpOk: bool, baseZero: bool)
    requires s.ramInit && val <= 0
    requires i < |Step(s, InputPlay(val)).queue| && Step(s, InputPlay(val)).queue[i] == StopWork
    requires Legal(Step(s, InputPlay(val)), es) && (forall p :: p in es ==> Passive(p)) && RunCount(es) == i
    ensures var t := Run(Step(s, InputPlay(val)), es);
            && t.queue != []
            && Step(t, RunNext(rtpOk, baseZero)).mode == Standby && !Step(t, RunNext(rtpOk, baseZero)).timer
  {
    ItemWaits(Step(s, InputPlay(val)), es, i);
    StopWorkStops(Run(Step(s, InputPlay(val)), es), rtpOk, baseZero);
  }

  /** A store that names no stream ends what plays, once its item's turn has come. */
  lemma RtpStoreStops(s: State, es: seq<Event>, i: nat, rtpOk: bool)
    requires i < |Step(s, RtpStore(false)).queue| && Step(s, RtpStore(false)).queue[i] == RtpWork
    requires Legal(Step(s, RtpStore(false)), es) && (forall p :: p in es ==> Passive(p)) && RunCount(es) == i
    ensures var t := Run(Step(s, RtpStore(false)), es);
            && t.queue != []
            && Step(t, RunNext(rtpOk, false)).mode == Standby && !Step(t, RunNext(rtpOk, false)).timer
  {
    ItemWaits(Step(s, RtpStore(false)), es, i);
  }

  lemma StopIsQueued(s: State, val: int)
    requires s.ramInit && val <= 0
    ensures StopWork in Step(s, InputPlay(val)).queue && Step(s, InputPlay(val)).state == s.state
  {
    QueuedHas(s.queue, StopWork);
  }

  /** A refused request leaves no trace, so a stop asked for without an image is lost too. */
  lemma RefusedWithoutImage(s: State, e: Event)
    requires e.Activate? || e.InputPlay?
    ensures Step(s, e) == s <==> !s.ramInit || Repeats(s, e)
  {
    QueuedSame(s.queue, Vib);
    QueuedSame(s.queue, StopWork);
    QueuedSame(s.queue, InputVib);
    QueuedSame(s.queue, RtpWork);
  }

  lemma QueuedSame(q: seq<Work>, w: Work)
    ensures Queued(q, w) == q <==> w in q
  {
    assert |q + [w]| == |q| + 1;
  }

  /** The request asks for what is already pending. */
  predicate Repeats(s: State, e: Event) {
    match e
    case Activate(value, to) => s.state == value && s.activate == to && Vib in s.queue
    case InputPlay(val) =>
      if val <= 0 then StopWork in s.queue
      else
        && s.state == 1
        && (s.activate.Ram? || s.activate.RamLoop? ==> InputVib in s.queue)
        && (s.activate.Rtp? ==> RtpWork in s.queue)
    case _ => false
  }

  /** Both happen: a loop is renewed just before its timer fires, and is lost. */
  lemma RenewedLoopLost()
    ensures var s := State(RamLoop, RamLoop, 1, true, [], true);
            var t := Step(Step(s, Activate(1, RamLoop)), TimerFires);
            LoopBounded(s) && t.queue == [Vib] && Step(t, RunNext(true, false)).mode == Standby
  {
  }
}
