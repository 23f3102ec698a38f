/** The haptic-audio command list: stores append, the periodic work drops stale idle
    commands and takes the oldest survivor. The kernel list is written at its head and
    walked backwards, so `queue` holds it oldest first. */
module AudioQueue {
  import opened CInt

  const CMD_ENABLE := 1     // AW_CMD_ENABLE
  const PLAY_ENABLE := 1    // AW_PLAY_ENABLE
  const PLAY_STOP := 2      // AW_PLAY_STOP
  const PLAY_GAIN := 8      // AW_PLAY_GAIN

  datatype Ctr = Ctr(cnt: byte, cmd: byte, play: byte, wavseq: byte, loop: byte, gain: byte)

  const ZERO_CTR := Ctr(0, 0, 0, 0, 0, 0)

  /** Play flag clear and the low command nibble equal to AW_CMD_ENABLE. */
  predicate Idle(c: Ctr) {
    c.play == 0 && c.cmd % 16 == CMD_ENABLE
  }

  /** ctr_list_diff_cnt: newest count minus oldest count in the code's arithmetic. */
  function Diff(q: seq<Ctr>): uint32 {
    if q == [] then 0
    else
      var input, output := q[|q| - 1].cnt, q[0].cnt;
      if input > output then input - output
      else if input < output then U32(32 + input - output)
      else 0
  }

  /** The walk from the oldest entry, deleting up to quota idle ones. */
  function Thin(q: seq<Ctr>, quota: nat): seq<Ctr> {
    if q == [] || quota == 0 then q
    else if Idle(q[0]) then Thin(q[1..], quota - 1)
    else [q[0]] + Thin(q[1..], quota)
  }

  function Survivors(q: seq<Ctr>): seq<Ctr> {
    if Diff(q) > 2 then Thin(q, Diff(q)) else q
  }

  /** What one work item does with the command it took. */
  datatype Action = Nothing | OutOfRange | RtpBusy | Play(wavseq: byte, loop: byte, gain: byte) | Stop | Gain(gain: byte)

  function Act(c: Ctr, ramNum: byte, rtpGoing: bool): Action {
    if c.wavseq > ramNum then OutOfRange
    else if rtpGoing then RtpBusy
    else if c.cmd != CMD_ENABLE then Nothing
    else if c.play == PLAY_ENABLE then Play(c.wavseq, c.loop, c.gain)
    else if c.play == PLAY_STOP then Stop
    else if c.play == PLAY_GAIN then Gain(c.gain)
    else Nothing
  }

  /** One step of the walk, at entry i. */
  lemma ThinAt(q: seq<Ctr>, i: nat, quota: nat)
    requires i < |q| && quota > 0
    ensures var rest := q[..i] + q[i + 1..];
            Idle(q[i]) ==> rest[..i] + Thin(rest[i..], quota - 1) == q[..i] + Thin(q[i..], quota)
    ensures !Idle(q[i]) ==> q[..i + 1] + Thin(q[i + 1..], quota) == q[..i] + Thin(q[i..], quota)
  {
    assert q[i..][0] == q[i] && q[i..][1..] == q[i + 1..];
    assert (q[..i] + q[i + 1..])[..i] == q[..i] && (q[..i] + q[i + 1..])[i..] == q[i + 1..];
    assert q[..i + 1] == q[..i] + [q[i]];
  }

  class HapticAudio {
    var queue: seq<Ctr>
    var ctr: Ctr

    constructor ()
      ensures queue == [] && ctr == ZERO_CTR
    {
      queue, ctr := [], ZERO_CTR;
    }

    method Insert(c: Ctr)
      modifies this`queue
      ensures queue == old(queue) + [c]
    {
      queue := queue + [c];
    }

    /** audio_ctrl_list_clr: unlink entry by entry. */
    method Clear()
      modifies this`queue
      ensures queue == []
    {
      while queue != [] {
        queue := queue[1..];
      }
    }

    /** The deletion loop of the work routine. */
    method ThinQueue(diff: nat)
      requires diff > 2
      modifies this`queue
      ensures queue == Thin(old(queue), diff)
    {
      var i, del := 0, 0;
      while i < |queue|
        invariant 0 <= i <= |queue| && 0 <= del < diff
        invariant queue[..i] + Thin(queue[i..], diff - del) == Thin(old(queue), diff)
        decreases |queue| - i
      {
        ThinAt(queue, i, diff - del);
        if Idle(queue[i]) {
          queue := queue[..i] + queue[i + 1..];
          del := del + 1;
        } else {
          i := i + 1;
        }
        if del == diff {
          break;
        }
      }
    }

    /** audio_work_routine. */
    method WorkRoutine(ramNum: byte, rtpGoing: bool) returns (action: Action)
      modifies this
      ensures var s := Survivors(old(queue));
              && ctr == (if s == [] then ZERO_CTR else s[0])
              && queue == (if s == [] then [] else s[1..])
      ensures action == Act(ctr, ramNum, rtpGoing)
      ensures action == OutOfRange <==> ctr.wavseq > ramNum
      ensures action == RtpBusy <==> ctr.wavseq <= ramNum && rtpGoing
      ensures action.Play? <==> ctr.wavseq <= ramNum && !rtpGoing && ctr.cmd == 1 && ctr.play == 1
      ensures action == Stop <==> ctr.wavseq <= ramNum && !rtpGoing && ctr.cmd == 1 && ctr.play == 2
      ensures action.Gain? <==> ctr.wavseq <= ramNum && !rtpGoing && ctr.cmd == 1 && ctr.play == 8
      ensures action.Play? ==> action == Play(ctr.wavseq, ctr.loop, ctr.gain)
      ensures action.Gain? ==> action == Gain(ctr.gain)
      ensures old(queue) == [] ==> action == if rtpGoing then RtpBusy else Nothing
    {
      ctr := ZERO_CTR;
      if queue != [] {
        var input: int, output: int := queue[|queue| - 1].cnt, queue[0].cnt;
        var diff: uint32 := 0;
        if input > output { diff := input - output; }
        if input < output { diff := U32(32 + input - output); }
        if diff > 2 {
          ThinQueue(diff);
        }
      }
      if queue != [] {
        ctr := queue[0];
        queue := queue[1..];
      }
      if ctr.wavseq > ramNum { return OutOfRange; }
      if rtpGoing { return RtpBusy; }
      action := Nothing;
      if ctr.cmd == CMD_ENABLE {
        if ctr.play == PLAY_ENABLE {
          action := Play(ctr.wavseq, ctr.loop, ctr.gain);
        } else if ctr.play == PLAY_STOP {
          action := Stop;
        } else if ctr.play == PLAY_GAIN {
          action := Gain(ctr.gain);
        }
      }
    }
  }

  // ------------------------------------------------------- what thinning does

  /** kept is full with only idle entries left out, in the same order. */
  ghost predicate Thinned(full: seq<Ctr>, kept: seq<Ctr>) {
    if full == [] then kept == []
    else
      || (kept != [] && kept[0] == full[0] && Thinned(full[1..], kept[1..]))
      || (Idle(full[0]) && Thinned(full[1..], kept))
  }

  function IdleCount(q: seq<Ctr>): nat {
    if q == [] then 0 else (if Idle(q[0]) then 1 else 0) + IdleCount(q[1..])
  }

  lemma {:induction false} ThinDropsOnlyIdle(q: seq<Ctr>, quota: nat)
    ensures Thinned(q, Thin(q, quota))
    ensures |q| - |Thin(q, quota)| == Min(quota, IdleCount(q))
  {
    if q == [] {
    } else if quota == 0 {
      ThinnedRefl(q);
    } else if Idle(q[0]) {
      ThinDropsOnlyIdle(q[1..], quota - 1);
    } else {
      ThinDropsOnlyIdle(q[1..], quota);
      assert ([q[0]] + Thin(q[1..], quota))[1..] == Thin(q[1..], quota);
    }
  }

  lemma {:induction false} ThinnedRefl(q: seq<Ctr>)
    ensures Thinned(q, q)
  {
    if q != [] { ThinnedRefl(q[1..]); }
  }

  /** What plays, or carries another command, is never thinned away. */
  lemma {:induction false} OthersSurvive(q: seq<Ctr>, quota: nat, c: Ctr)
    requires c in q && (c.play != 0 || c.cmd % 16 != 1)
    ensures c in Thin(q, quota)
  {
    if quota > 0 {
      if Idle(q[0]) {
        OthersSurvive(q[1..], quota - 1, c);
      } else if c != q[0] {
        OthersSurvive(q[1..], quota, c);
      }
    }
  }

  /** A run of idle entries no longer than the quota is the only thing thinning empties. */
  lemma {:induction false} ThinEmptyIff(q: seq<Ctr>, quota: nat)
    ensures Thin(q, quota) == [] <==> |q| <= quota && (forall c :: c in q ==> Idle(c))
  {
    if q != [] && quota > 0 {
      if Idle(q[0]) {
        ThinEmptyIff(q[1..], quota - 1);
        assert forall c :: c in q <==> c == q[0] || c in q[1..];
      } else {
        assert q[0] in q;
      }
    } else if q != [] {
      assert q[0] in q;
    }
  }

  /** Exactly when one work item throws every queued command away and takes none. */
  lemma TakesNothingIff(q: seq<Ctr>)
    requires q != []
    ensures Survivors(q) == []
            <==> Diff(q) > 2 && |q| <= Diff(q) && (forall c :: c in q ==> c.play == 0 && c.cmd % 16 == 1)
  {
    assert forall c :: c in q && Idle(c) ==> c.play == 0 && c.cmd % 16 == 1;
    assert forall c :: c in q && c.play == 0 && c.cmd % 16 == 1 ==> Idle(c);
    ThinEmptyIff(q, Diff(q));
  }

  /** Counts that jump by ten do it: both idle commands are lost. */
  lemma JumpingCountsLoseAll()
    ensures var q := [Ctr(0, 1, 0, 3, 0, 0), Ctr(10, 1, 0, 4, 0, 0)]; Survivors(q) == []
  {
    var q := [Ctr(0, 1, 0, 3, 0, 0), Ctr(10, 1, 0, 4, 0, 0)];
    TakesNothingIff(q);
  }

  /** After thinning, whatever follows a surviving idle entry was left untouched. */
  lemma {:induction false} ThinTail(q: seq<Ctr>, quota: nat, j: nat)
    requires j < |Thin(q, quota)| && Idle(Thin(q, quota)[j])
    ensures var t := Thin(q, quota); |t| - j <= |q| && t[j..] == q[|q| - (|t| - j)..]
  {
    var t := Thin(q, quota);
    if q == [] || quota == 0 {
    } else if Idle(q[0]) {
      ThinTail(q[1..], quota - 1, j);
    } else {
      assert j > 0 && t[j] == Thin(q[1..], quota)[j - 1];
      ThinTail(q[1..], quota, j - 1);
      assert t[j..] == Thin(q[1..], quota)[j - 1..];
    }
  }

  // --------------------------------------------------------------- whole runs

  datatype Event = Store(c: Ctr) | Work

  /** Everything stored, everything taken, and what is queued. */
  datatype Log = Log(stored: seq<Ctr>, taken: seq<Ctr>, queue: seq<Ctr>)

  function Step(l: Log, e: Event): Log {
    match e
    case Store(c) => Log(l.stored + [c], l.taken, l.queue + [c])
    case Work =>
      var s := Survivors(l.queue);
      if s == [] then l.(queue := []) else l.(taken := l.taken + [s[0]], queue := s[1..])
  }

  function Run(es: seq<Event>): Log {
    if es == [] then Log([], [], [])
    else Step(Run(es[..|es| - 1]), es[|es| - 1])
  }

  lemma {:induction false} ThinnedAppend(full: seq<Ctr>, kept: seq<Ctr>, c: Ctr)
    requires Thinned(full, kept)
    ensures Thinned(full + [c], kept + [c])
  {
    if full == [] {
      assert Thinned([c][1..], [c][1..]);
    } else {
      assert (full + [c])[1..] == full[1..] + [c];
      if kept != [] && kept[0] == full[0] && Thinned(full[1..], kept[1..]) {
        ThinnedAppend(full[1..], kept[1..], c);
        assert (kept + [c])[1..] == kept[1..] + [c];
      } else {
        ThinnedAppend(full[1..], kept, c);
      }
    }
  }

  lemma {:induction false} ThinnedCompose(full: seq<Ctr>, t: seq<Ctr>, q: seq<Ctr>, q': seq<Ctr>)
    requires Thinned(full, t + q) && Thinned(q, q')
    ensures Thinned(full, t + q')
    decreases |full|
  {
    if full == [] {
      assert t + q == [] ;
    } else if Idle(full[0]) && Thinned(full[1..], t + q) {
      ThinnedCompose(full[1..], t, q, q');
    } else if t != [] {
      assert (t + q)[1..] == t[1..] + q;
      ThinnedCompose(full[1..], t[1..], q, q');
      assert (t + q')[1..] == t[1..] + q';
    } else {
      assert t + q == q && t + q' == q';
      if q' != [] && q'[0] == q[0] && Thinned(q[1..], q'[1..]) {
        assert [] + q[1..] == q[1..] && [] + q'[1..] == q'[1..];
        ThinnedCompose(full[1..], [], q[1..], q'[1..]);
      } else {
        assert [] + q[1..] == q[1..] && [] + q' == q';
        ThinnedCompose(full[1..], [], q[1..], q');
      }
    }
  }

  lemma WorkKeepsOrder(l: Log)
    requires Thinned(l.stored, l.taken + l.queue)
    ensures var l' := Step(l, Work); Thinned(l'.stored, l'.taken + l'.queue)
  {
    var s := Survivors(l.queue);
    if Diff(l.queue) > 2 { ThinDropsOnlyIdle(l.queue, Diff(l.queue)); } else { ThinnedRefl(l.queue); }
    ThinnedCompose(l.stored, l.taken, l.queue, s);
    if s != [] {
      assert l.taken + s == l.taken + [s[0]] + s[1..];
    }
  }

  lemma StoreKeepsOrder(l: Log, c: Ctr)
    requires Thinned(l.stored, l.taken + l.queue)
    ensures var l' := Step(l, Store(c)); Thinned(l'.stored, l'.taken + l'.queue)
  {
    ThinnedAppend(l.stored, l.taken + l.queue, c);
    assert l.taken + l.queue + [c] == l.taken + (l.queue + [c]);
  }

  /** Over every run, taken followed by queued is what was stored with only idle
      commands left out, in order. */
  lemma {:induction false} RunKeepsOrder(es: seq<Event>)
    ensures var l := Run(es); Thinned(l.stored, l.taken + l.queue)
  {
    if es != [] {
      RunKeepsOrder(es[..|es| - 1]);
      match es[|es| - 1]
      case Store(c) => StoreKeepsOrder(Run(es[..|es| - 1]), c);
      case Work => WorkKeepsOrder(Run(es[..|es| - 1]));
    }
  }

  function Plays(q: seq<Ctr>): seq<Ctr> {
    if q == [] then [] else (if q[0].play != 0 then [q[0]] else []) + Plays(q[1..])
  }

  lemma {:induction false} PlaysConcat(a: seq<Ctr>, b: seq<Ctr>)
    ensures Plays(a + b) == Plays(a) + Plays(b)
  {
    if a == [] {
      assert a + b == b;
    } else {
      PlaysConcat(a[1..], b);
      assert (a + b)[0] == a[0] && (a + b)[1..] == a[1..] + b;
      var first := if a[0].play != 0 then [a[0]] else [];
      assert first + (Plays(a[1..]) + Plays(b)) == first + Plays(a[1..]) + Plays(b);
    }
  }

  lemma {:induction false} ThinnedKeepsPlays(full: seq<Ctr>, kept: seq<Ctr>)
    requires Thinned(full, kept)
    ensures Plays(full) == Plays(kept)
  {
    if full != [] {
      if kept != [] && kept[0] == full[0] && Thinned(full[1..], kept[1..]) {
        ThinnedKeepsPlays(full[1..], kept[1..]);
      } else {
        ThinnedKeepsPlays(full[1..], kept);
      }
    }
  }

  /** No playing command is ever lost or overtaken: those taken are a prefix of those
      stored, and the rest are still queued. */
  lemma NoPlayLost(es: seq<Event>)
    ensures var l := Run(es); Plays(l.stored) == Plays(l.taken) + Plays(l.queue)
  {
    var l := Run(es);
    RunKeepsOrder(es);
    ThinnedKeepsPlays(l.stored, l.taken + l.queue);
    PlaysConcat(l.taken, l.queue);
  }

  // --------------------------------------------------- a producer that counts

  /** Every stored command carries the next count modulo 32. */
  ghost predicate Counting(stored: seq<Ctr>) {
    forall i :: 0 < i < |stored| ==> stored[i].cnt == (stored[i - 1].cnt + 1) % 32
  }

  lemma {:induction false} CountAt(q: seq<Ctr>, i: nat)
    requires Counting(q) && i < |q| && q[0].cnt < 32
    ensures q[i].cnt == (q[0].cnt + i) % 32
  {
    if i == 0 {
      CountWraps(q[0].cnt, q[0].cnt, 0);
    } else {
      CountAt(q, i - 1);
      NextCount(q[0].cnt + i - 1);
    }
  }

  /** Two counts n apart, modulo 32, as the code subtracts them. */
  lemma CountDistance(a: int, n: nat)
    requires 0 <= a < 32
    ensures var b := (a + n) % 32;
            (if b > a then b - a else if b < a then U32(32 + b - a) else 0) == n % 32
  {
    var r := n % 32;
    if a + r < 32 {
      CountWraps(a + n, a + r, n / 32);
    } else {
      CountWraps(a + n, a + r - 32, n / 32 + 1);
    }
  }

  lemma NextCount(x: int)
    ensures (x % 32 + 1) % 32 == (x + 1) % 32
  {
  }

  lemma CountWraps(x: int, b: int, q: int)
    requires x == 32 * q + b && 0 <= b < 32
    ensures x % 32 == b
  {
  }

  /** With consecutive counts the difference is the length minus one, modulo 32. */
  lemma DiffOfConsecutive(q: seq<Ctr>)
    requires q != [] && Counting(q) && q[0].cnt < 32
    ensures Diff(q) == (|q| - 1) % 32
    ensures |q| <= 32 ==> Diff(q) == |q| - 1
  {
    CountAt(q, |q| - 1);
    CountDistance(q[0].cnt, |q| - 1);
  }

  /** A newest count more than 32 below the oldest, which no counter modulo 32 gives, wraps:
      no queue is long enough for such a difference to spare an idle command. */
  lemma DiffOfForeignCounts(q: seq<Ctr>)
    requires q != [] && q[|q| - 1].cnt + 32 < q[0].cnt
    ensures Diff(q) == 0x1_0000_0000 + 32 + q[|q| - 1].cnt - q[0].cnt > 0xFFFF_FF00
  {
  }

  /** Whatever follows a queued idle command is everything stored after it. */
  ghost predicate GapFree(stored: seq<Ctr>, q: seq<Ctr>) {
    |q| <= |stored| &&
    forall j :: 0 <= j < |q| && Idle(q[j]) ==> q[j..] == stored[|stored| - (|q| - j)..]
  }

  lemma GapFreeStore(stored: seq<Ctr>, q: seq<Ctr>, c: Ctr)
    requires GapFree(stored, q)
    ensures GapFree(stored + [c], q + [c])
  {
    var q' := q + [c];
    forall j | 0 <= j < |q'| && Idle(q'[j])
      ensures q'[j..] == (stored + [c])[|stored| + 1 - (|q'| - j)..]
    {
      if j < |q| {
        assert q'[j..] == q[j..] + [c];
      }
    }
  }

  lemma GapFreeThin(stored: seq<Ctr>, q: seq<Ctr>, quota: nat)
    requires GapFree(stored, q)
    ensures GapFree(stored, Thin(q, quota))
  {
    var t := Thin(q, quota);
    ThinDropsOnlyIdle(q, quota);
    forall j | 0 <= j < |t| && Idle(t[j]) ensures t[j..] == stored[|stored| - (|t| - j)..] {
      ThinTail(q, quota, j);
      var i := |q| - (|t| - j);
      assert q[i] == q[i..][0] == t[j..][0];
    }
  }

  lemma GapFreeDrop(stored: seq<Ctr>, q: seq<Ctr>)
    requires GapFree(stored, q) && q != []
    ensures GapFree(stored, q[1..])
  {
    forall j | 0 <= j < |q[1..]| && Idle(q[1..][j]) ensures q[1..][j..] == stored[|stored| - (|q[1..]| - j)..] {
      assert q[1..][j] == q[j + 1] && q[1..][j..] == q[j + 1..];
    }
  }

  lemma GapFreeWork(l: Log)
    requires GapFree(l.stored, l.queue)
    ensures GapFree(Step(l, Work).stored, Step(l, Work).queue)
  {
    GapFreeThin(l.stored, l.queue, Diff(l.queue));
    if Survivors(l.queue) != [] {
      GapFreeDrop(l.stored, Survivors(l.queue));
    }
  }

  lemma {:induction false} RunGapFree(es: seq<Event>)
    ensures GapFree(Run(es).stored, Run(es).queue)
  {
    if es != [] {
      RunGapFree(es[..|es| - 1]);
      match es[|es| - 1]
      case Store(c) => GapFreeStore(Run(es[..|es| - 1]).stored, Run(es[..|es| - 1]).queue, c);
      case Work => GapFreeWork(Run(es[..|es| - 1]));
    }
  }

  lemma SuffixCounts(stored: seq<Ctr>, q: seq<Ctr>)
    requires Counting(stored) && 0 < |q| <= |stored| && q == stored[|stored| - |q|..]
    requires forall c :: c in stored ==> c.cnt < 32
    ensures Counting(q) && q[0].cnt < 32
  {
    var k := |stored| - |q|;
    assert q[0] == stored[k];
    forall i | 0 < i < |q| ensures q[i].cnt == (q[i - 1].cnt + 1) % 32 {
      assert q[i] == stored[k + i] && q[i - 1] == stored[k + i - 1];
    }
  }

  /** A consecutive queue is longer than the difference, so it is not emptied. */
  lemma ConsecutiveKeepsOne(q: seq<Ctr>)
    requires q != [] && Counting(q) && q[0].cnt < 32
    ensures Survivors(q) != []
  {
    DiffOfConsecutive(q);
    TakesNothingIff(q);
  }

  lemma BusyKeepsOne(q: seq<Ctr>)
    requires q != [] && !Idle(q[0])
    ensures Survivors(q) != []
  {
    TakesNothingIff(q);
    assert q[0] in q;
  }

  lemma GapFreeKeepsOne(stored: seq<Ctr>, q: seq<Ctr>)
    requires GapFree(stored, q) && q != [] && Counting(stored)
    requires forall c :: c in stored ==> c.cnt < 32
    ensures Survivors(q) != []
  {
    if Idle(q[0]) {
      assert q == q[0..] == stored[|stored| - |q|..];
      SuffixCounts(stored, q);
      ConsecutiveKeepsOne(q);
    } else {
      BusyKeepsOne(q);
    }
  }

  /** After any run of a producer that counts modulo 32, however long the queue grew or
      how many commands earlier items thinned away, a work item that finds the queue
      non-empty takes a command. */
  lemma CountingNeverStarves(es: seq<Event>)
    requires Counting(Run(es).stored) && Run(es).queue != []
    requires forall c :: c in Run(es).stored ==> c.cnt < 32
    ensures |Step(Run(es), Work).taken| == |Run(es).taken| + 1
  {
    RunGapFree(es);
    GapFreeKeepsOne(Run(es).stored, Run(es).queue);
  }
}
