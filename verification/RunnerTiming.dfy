/** Heartbeat timing of the runner under one assumption: inside a session the loop handles what is
    ready at once (writes and request handlers take no time) and timers fire on time. */
module RunnerTiming {
  import opened Text
  import opened Heartbeat
  import opened Session
  import opened RunnerModel
  import opened RunnerSafety

  /** Some arm of the select statement is ready. */
  predicate Ready(s: Runner) {
    || s.context.Ended? || s.signal || s.link.tickReady || s.link.pong.Fired?
    || s.link.readError.Some? || s.link.reader.Holding?
  }

  /** Time passes in a session only while it waits, and never past a timer. */
  predicate Prompt(s: Runner, step: Step) {
    step.TimePasses? && InSession(s.pc) ==>
      && s.pc.Selecting? && !Ready(s)
      && s.now + step.duration <= s.link.nextTick
      && (s.link.pong.Armed? ==> s.now + step.duration <= s.link.pong.deadline)
  }

  ghost predicate PromptExecution(cfg: Config, states: seq<Runner>, steps: seq<Step>) {
    Execution(cfg, states, steps) && forall i :: 0 <= i < |steps| ==> Prompt(states[i], steps[i])
  }

  /** Where the clock stands relative to the session's events; `beating`: a tick was just taken. */
  predicate TimeOk(l: Link, now: int, beating: bool) {
    && l.openedAt <= l.clearedAt <= l.lastFrame <= now <= l.nextTick <= now + l.probe
    && (l.beats == 0 ==> l.clearedAt == l.openedAt)
    && (l.beats > 0 ==> l.lastBeat <= now)
    && (if l.awaitingPong then
          l.lastFrame <= l.lastBeat <= l.clearedAt + l.probe && now <= l.lastBeat + l.ack
        else
          && (l.beats > 0 ==> l.clearedAt <= l.lastBeat + l.ack)
          && (if l.tickReady || beating then now <= l.clearedAt + l.probe
              else l.nextTick <= l.clearedAt + l.probe))
  }

  predicate OnTime(s: Runner) {
    InSession(s.pc) ==> TimeOk(s.link, s.now, s.pc.Beating?)
  }

  lemma {:induction false} ConnectKeepsTime(cfg: Config, s: Runner, u: Stored, step: Step)
    requires LoopEnabled(s, step) && !IsSelect(step)
    ensures OnTime(NextConnect(cfg, s, u, step))
  {
    if step.GoesOnline? {
      DurationsBounded(cfg.heartbeatSeconds, s.pc.tickMs);
    }
  }

  lemma {:induction false} ArmsKeepTime(l: Link, now: int)
    requires 0 < l.probe && 0 < l.ack && Bookkeeping(l, now)
    ensures TimeOk(l, now, false) && l.tickReady ==> TimeOk(TakeTick(l), now, !l.awaitingPong)
    ensures TimeOk(l, now, true) && !l.awaitingPong ==> TimeOk(Session.BeatSent(l, now), now, false)
    ensures TimeOk(l, now, false) && l.reader.Holding? ==> TimeOk(TakeFrame(l, now), now, false)
  {
  }

  /** The part of the session invariant that timing relies on. */
  predicate Timed(s: Runner) {
    InSession(s.pc) ==>
      0 < s.link.probe && 0 < s.link.ack && Bookkeeping(s.link, s.now) && (s.pc.Beating? ==> !s.link.awaitingPong)
  }

  lemma {:induction false} SessionIsTimed(cfg: Config, s: Runner)
    requires SessionOk(cfg, s)
    ensures Timed(s)
  {
    DurationsBounded(cfg.heartbeatSeconds, s.link.tickMs);
  }

  /** What each arm does to the session's data, and whether the session goes on. */
  lemma {:induction false} SelectOnLink(cfg: Config, s: Runner, step: Step)
    requires LoopEnabled(s, step) && IsSelect(step)
    ensures var s' := NextSelect(cfg, s, step);
            && s'.now == s.now
            && (InSession(s'.pc) ==>
                  || (step.SelectTick? && s'.link == TakeTick(s.link) && (s'.pc.Beating? <==> !s.link.awaitingPong))
                  || (step.BeatWritten? && s'.link == Session.BeatSent(s.link, s.now) && s'.pc.Selecting?)
                  || (step.SelectFrame? && s'.link == TakeFrame(s.link, s.now) && !s'.pc.Beating?)
                  || (step.RequestHandled? && s'.pc.Selecting? && SameTimes(s.link, s'.link))
                  || (step.SelectPong? && !s.link.awaitingPong))
  {
  }

  predicate SameTimes(l: Link, l': Link) {
    l' == l.(responses := l'.responses)
  }

  lemma {:induction false} SelectKeepsTime(cfg: Config, s: Runner, step: Step)
    requires LoopEnabled(s, step) && IsSelect(step) && Timed(s) && OnTime(s)
    ensures OnTime(NextSelect(cfg, s, step))
  {
    SelectOnLink(cfg, s, step);
    ArmsKeepTime(s.link, s.now);
  }

  lemma {:induction false} WorldKeepsTime(s: Runner, step: Step)
    requires WorldEnabled(s, step) && Prompt(s, step) && Timed(s) && OnTime(s)
    ensures OnTime(NextWorld(s, step))
  {
    if step.TickFires? {
      assert s.now == s.link.nextTick && (s.now - s.link.nextTick) % s.link.probe == 0;
    }
  }

  lemma {:induction false} ControlKeepsTime(s: Runner, u: Stored, step: Step)
    requires ControlEnabled(s, step) && OnTime(s)
    ensures OnTime(NextControl(s, u, step))
  {
    var s' := NextControl(s, u, step);
    assert s'.link == s.link && s'.pc == s.pc && s'.now == s.now;
  }

  lemma {:induction false} StepKeepsTime(cfg: Config, s: Runner, step: Step)
    requires Enabled(s, step) && Prompt(s, step) && Invariant(cfg, s) && OnTime(s)
    ensures OnTime(Next(cfg, s, step))
  {
    var u := NextCases(cfg, s, step);
    SessionIsTimed(cfg, s);
    if LoopEnabled(s, step) {
      if IsSelect(step) {
        SelectKeepsTime(cfg, s, step);
      } else {
        ConnectKeepsTime(cfg, s, u, step);
      }
    } else if WorldEnabled(s, step) {
      WorldKeepsTime(s, step);
    } else {
      ControlKeepsTime(s, u, step);
    }
  }

  // ---------------------------------------------------------------- the ticker's grid

  /** Ticks stay on a grid, and every heartbeat is sent at one: the next tick is a whole number of probes
      after the last heartbeat, and no further than the longest gap. */
  predicate OnGrid(l: Link, now: int, beating: bool)
    requires l.probe > 0
  {
    var due := l.tickReady || beating;
    var next := if due && !l.awaitingPong then now else l.nextTick;
    && (due ==> l.nextTick == now + l.probe)
    && (if l.beats == 0 then next == l.openedAt + l.probe
        else (l.nextTick - l.lastBeat) % l.probe == 0 && next <= l.lastBeat + LongestGap(l.probe, l.ack))
  }

  predicate GridHolds(s: Runner) {
    InSession(s.pc) ==> s.link.probe > 0 && OnGrid(s.link, s.now, s.pc.Beating?)
  }

  lemma {:induction false} GridStep(x: int, p: int, ack: int)
    requires p > 0 && 0 <= x && x % p == 0
    ensures (x + p) % p == 0
    ensures x <= ack ==> x + p <= LongestGap(p, ack)
  {
    var q := x / p;
    assert x == p * q && x + p == p * (q + 1);
    MultipleMod(p, q + 1);
    if x <= ack {
      Quotients(x, ack, p);
      ScaledOrder(q + 1, ack / p + 1, p);
    }
  }

  lemma {:induction false} MultipleMod(p: int, q: int)
    requires p > 0
    ensures (p * q) % p == 0
  {
    var d, r := (p * q) / p, (p * q) % p;
    assert p * (q - d) == r;
    if q - d >= 1 {
      ScaledOrder(1, q - d, p);
    } else if q - d <= -1 {
      ScaledOrder(q - d, -1, p);
    }
  }

  lemma {:induction false} Quotients(x: int, y: int, p: int)
    requires p > 0 && 0 <= x <= y
    ensures x / p <= y / p
  {
    assert p * (x / p) <= x && y < p * (y / p) + p;
    if x / p >= y / p + 1 {
      ScaledOrder(y / p + 1, x / p, p);
    }
  }

  lemma {:induction false} ScaledOrder(a: int, b: int, p: int)
    requires a <= b && p > 0
    ensures a * p <= b * p
  {
  }

  lemma {:induction false} GapExceedsAck(p: int, ack: int)
    requires p > 0 && ack >= 0
    ensures ack < LongestGap(p, ack) && p <= LongestGap(p, ack)
  {
    DivisionBounds(ack, p);
    GridStep(0, p, ack);
  }

  lemma {:induction false} TickKeepsGrid(l: Link, now: int)
    requires 0 < l.probe && 0 < l.ack && now == l.nextTick && Bookkeeping(l, now)
    requires TimeOk(l, now, false) && OnGrid(l, now, false)
    ensures OnGrid(Session.TickFires(l, now), now, false)
  {
    assert (now - l.nextTick) % l.probe == 0;
    assert Session.TickFires(l, now).nextTick == now + l.probe;
    if l.beats > 0 {
      GridStep(now - l.lastBeat, l.probe, l.ack);
    }
  }

  lemma {:induction false} TakenTickKeepsGrid(l: Link, now: int)
    requires 0 < l.probe && 0 < l.ack && TimeOk(l, now, false) && OnGrid(l, now, false) && l.tickReady
    ensures OnGrid(TakeTick(l), now, !l.awaitingPong)
  {
  }

  lemma {:induction false} BeatKeepsGrid(l: Link, now: int)
    requires 0 < l.probe && 0 < l.ack && OnGrid(l, now, true)
    ensures OnGrid(Session.BeatSent(l, now), now, false)
  {
    GapExceedsAck(l.probe, l.ack);
    MultipleMod(l.probe, 1);
  }

  lemma {:induction false} FrameKeepsGrid(l: Link, now: int)
    requires 0 < l.probe && 0 < l.ack && TimeOk(l, now, false) && OnGrid(l, now, false) && Bookkeeping(l, now)
    requires l.reader.Holding?
    ensures OnGrid(TakeFrame(l, now), now, false)
  {
    GapExceedsAck(l.probe, l.ack);
  }

  lemma {:induction false} ConnectKeepsGrid(cfg: Config, s: Runner, u: Stored, step: Step)
    requires LoopEnabled(s, step) && !IsSelect(step)
    ensures GridHolds(NextConnect(cfg, s, u, step))
  {
  }

  lemma {:induction false} SelectKeepsGrid(cfg: Config, s: Runner, step: Step)
    requires LoopEnabled(s, step) && IsSelect(step) && Timed(s) && OnTime(s) && GridHolds(s)
    ensures GridHolds(NextSelect(cfg, s, step))
  {
    SelectOnLink(cfg, s, step);
    if InSession(NextSelect(cfg, s, step).pc) {
      if step.SelectTick? {
        TakenTickKeepsGrid(s.link, s.now);
      } else if step.BeatWritten? {
        BeatKeepsGrid(s.link, s.now);
      } else if step.SelectFrame? {
        FrameKeepsGrid(s.link, s.now);
      }
    }
  }

  lemma {:induction false} WorldKeepsGrid(s: Runner, step: Step)
    requires WorldEnabled(s, step) && Prompt(s, step) && Timed(s) && OnTime(s) && GridHolds(s)
    ensures GridHolds(NextWorld(s, step))
  {
    if step.TickFires? {
      TickKeepsGrid(s.link, s.now);
    }
  }

  lemma {:induction false} StepKeepsGrid(cfg: Config, s: Runner, step: Step)
    requires Enabled(s, step) && Prompt(s, step) && Invariant(cfg, s) && OnTime(s) && GridHolds(s)
    ensures GridHolds(Next(cfg, s, step))
  {
    var u := NextCases(cfg, s, step);
    SessionIsTimed(cfg, s);
    if LoopEnabled(s, step) {
      if IsSelect(step) {
        SelectKeepsGrid(cfg, s, step);
      } else {
        ConnectKeepsGrid(cfg, s, u, step);
      }
    } else if WorldEnabled(s, step) {
      WorldKeepsGrid(s, step);
    } else {
      var s' := NextControl(s, u, step);
      assert s'.link == s.link && s'.pc == s.pc && s'.now == s.now;
    }
  }

  // ---------------------------------------------------------------- whole runs

  lemma {:induction false} OnTimeHolds(cfg: Config, states: seq<Runner>, steps: seq<Step>, i: nat)
    requires PromptExecution(cfg, states, steps) && i < |states|
    ensures Invariant(cfg, states[i]) && OnTime(states[i]) && GridHolds(states[i])
  {
    InvariantHolds(cfg, states, steps, i);
    if i > 0 {
      OnTimeHolds(cfg, states, steps, i - 1);
      StepKeepsTime(cfg, states[i - 1], steps[i - 1]);
      StepKeepsGrid(cfg, states[i - 1], steps[i - 1]);
    }
  }

  /** The last moment the server heard from the session: its latest heartbeat, or its opening. */
  function LastHeard(l: Link): int {
    if l.beats > 0 then l.lastBeat else l.openedAt
  }

  /** How long the server may have to wait for the next heartbeat. */
  function LongestSilence(l: Link): int
    requires l.probe > 0
  {
    if l.beats > 0 then LongestGap(l.probe, l.ack) else l.probe
  }

  lemma {:induction false} SilenceIsBounded(l: Link, now: int, beating: bool)
    requires 0 < l.probe && 0 < l.ack && TimeOk(l, now, beating) && OnGrid(l, now, beating)
    ensures now - LastHeard(l) <= LongestSilence(l)
  {
    GapExceedsAck(l.probe, l.ack);
  }

  lemma {:induction false} SilenceFits(heartbeatSeconds: Int64, l: Link)
    requires l.probe == Probe(heartbeatSeconds, l.tickMs) && l.ack == Ack(heartbeatSeconds, l.tickMs)
    requires GapFits(heartbeatSeconds, l.tickMs)
    ensures LongestSilence(l) <= TtlSeconds(heartbeatSeconds) * SECOND
  {
  }

  /** The advertised lifetime never lapses on a live link. At every moment of a prompt session the last
      heartbeat is at most the longest gap old, and before the first one the opening at most one probe;
      so whenever the longest gap fits the advertised lifetime, the server never waits longer than that. */
  lemma {:induction false} TtlNeverLapses(cfg: Config, states: seq<Runner>, steps: seq<Step>, i: nat)
    requires PromptExecution(cfg, states, steps) && i < |states| && InSession(states[i].pc)
    ensures var l := states[i].link;
            && l.probe > 0 && states[i].now - LastHeard(l) <= LongestSilence(l)
            && (GapFits(cfg.heartbeatSeconds, l.tickMs) ==>
                  states[i].now - LastHeard(l) <= TtlSeconds(cfg.heartbeatSeconds) * SECOND)
  {
    OnTimeHolds(cfg, states, steps, i);
    SessionIsTimed(cfg, states[i]);
    SilenceIsBounded(states[i].link, states[i].now, states[i].pc.Beating?);
    if GapFits(cfg.heartbeatSeconds, states[i].link.tickMs) {
      SilenceFits(cfg.heartbeatSeconds, states[i].link);
    }
  }

  /** What a heartbeat written on the grid means for the gap. */
  lemma {:induction false} BeatOnGrid(l: Link, now: int)
    requires 0 < l.probe && 0 < l.ack && !l.awaitingPong && TimeOk(l, now, true) && OnGrid(l, now, true)
    ensures l.beats == 0 ==> now - l.openedAt == l.probe
    ensures l.beats > 0 ==> (now - l.lastBeat) % l.probe == 0 && now - l.lastBeat <= LongestGap(l.probe, l.ack)
  {
    if l.beats > 0 {
      var x, p := now - l.lastBeat, l.probe;
      assert (x + p) % p == 0;
      BackStep(x, p);
    }
  }

  lemma {:induction false} BackStep(x: int, p: int)
    requires p > 0 && (x + p) % p == 0
    ensures x % p == 0
  {
    var q := (x + p) / p;
    assert x == p * (q - 1);
    MultipleMod(p, q - 1);
  }

  /** The gap itself: the first heartbeat follows the opening by exactly one probe, any other the one
      before it by a whole number of probes, at most the longest gap. */
  lemma {:induction false} HeartbeatGap(cfg: Config, states: seq<Runner>, steps: seq<Step>, i: nat)
    requires PromptExecution(cfg, states, steps) && i < |steps| && steps[i] == BeatWritten(None)
    ensures var l, l' := states[i].link, states[i + 1].link;
            && l'.beats == l.beats + 1 && l.probe > 0
            && (l.beats == 0 ==> l'.lastBeat - l.openedAt == l.probe)
            && (l.beats > 0 ==>
                  && (l'.lastBeat - l.lastBeat) % l.probe == 0
                  && l'.lastBeat - l.lastBeat <= LongestGap(l.probe, l.ack))
  {
    OnTimeHolds(cfg, states, steps, i);
    SessionIsTimed(cfg, states[i]);
    assert states[i + 1] == NextSelect(cfg, states[i], steps[i]);
    BeatOnGrid(states[i].link, states[i].now);
  }

  /** A dead peer is noticed: once frames stop, no prompt session lasts longer than probe + ack, at most
      12.5 s, after the last frame (or its opening). */
  lemma {:induction false} DeadPeerNoticed(cfg: Config, states: seq<Runner>, steps: seq<Step>, i: nat)
    requires PromptExecution(cfg, states, steps) && i < |states| && InSession(states[i].pc)
    ensures var l := states[i].link;
            states[i].now - l.lastFrame <= l.probe + l.ack <= 12 * SECOND + 500 * MILLISECOND
  {
    OnTimeHolds(cfg, states, steps, i);
    DurationsBounded(cfg.heartbeatSeconds, states[i].link.tickMs);
  }

  /** The assumption never stops the clock by itself: a prompt session can always take a step of its
      own, let a due timer fire, or let time pass. */
  lemma {:induction false} PromptSessionsAdvance(s: Runner)
    requires Timed(s) && OnTime(s) && InSession(s.pc)
    ensures exists step: Step :: Enabled(s, step) && Prompt(s, step) &&
              (LoopEnabled(s, step) || step.TickFires? || step.PongFires? || step.TimePasses?)
  {
    var l := s.link;
    if s.pc.Beating? {
      assert Enabled(s, BeatWritten(None));
    } else if s.pc.Handling? {
      assert Enabled(s, RequestHandled(Result, true));
    } else if s.context.Ended? {
      assert Enabled(s, SelectEnd);
    } else if s.signal {
      assert Enabled(s, SelectSignal);
    } else if l.tickReady {
      assert Enabled(s, SelectTick);
    } else if l.pong.Fired? {
      assert Enabled(s, SelectPong);
    } else if l.readError.Some? {
      assert Enabled(s, SelectReadError);
    } else if l.reader.Holding? {
      assert Enabled(s, SelectFrame);
    } else if l.nextTick <= s.now {
      assert Enabled(s, Step.TickFires);
    } else if l.pong.Armed? && l.pong.deadline <= s.now {
      assert Enabled(s, Step.PongFires);
    } else {
      assert Enabled(s, TimePasses(1)) && Prompt(s, TimePasses(1));
    }
  }
}
