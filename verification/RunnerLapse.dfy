/** The longest gap is reached: for every configuration and server tick there is a prompt run in which two
    heartbeats are that far apart, so the lifetime lapses exactly where the gap does not fit it. */
module RunnerLapse {
  import opened Text
  import opened StateCodec
  import opened StateModel
  import opened Heartbeat
  import opened Session
  import opened RunnerModel
  import opened RunnerSafety
  import opened RunnerTheorems
  import opened RunnerTiming
  import opened RunnerRuns

  // ---------------------------------------------------------------- prompt runs, piece by piece

  /** `steps` can be taken promptly from `s` and end in `t`. */
  ghost predicate PromptLeads(cfg: Config, s: Runner, steps: seq<Step>, t: Runner)
    decreases |steps|
  {
    if steps == [] then s == t
    else
      && Enabled(s, steps[0]) && Prompt(s, steps[0])
      && PromptLeads(cfg, Next(cfg, s, steps[0]), steps[1..], t)
  }

  lemma {:induction false} PromptOne(cfg: Config, s: Runner, step: Step)
    requires Enabled(s, step) && Prompt(s, step)
    ensures PromptLeads(cfg, s, [step], Next(cfg, s, step))
  {
    assert [step][1..] == [];
    assert PromptLeads(cfg, Next(cfg, s, step), [], Next(cfg, s, step));
  }

  lemma {:induction false} PromptJoin(cfg: Config, s: Runner, a: seq<Step>, t: Runner, b: seq<Step>, r: Runner)
    requires PromptLeads(cfg, s, a, t) && PromptLeads(cfg, t, b, r)
    ensures PromptLeads(cfg, s, a + b, r)
    decreases |a|
  {
    if a == [] {
      assert a + b == b;
    } else {
      assert (a + b)[1..] == a[1..] + b;
      PromptJoin(cfg, Next(cfg, s, a[0]), a[1..], t, b, r);
    }
  }

  /** Runs in which no time passes are prompt. */
  lemma {:induction false} InstantIsPrompt(cfg: Config, s: Runner, steps: seq<Step>, t: Runner)
    requires Leads(cfg, s, steps, t) && forall i :: 0 <= i < |steps| ==> !steps[i].TimePasses?
    ensures PromptLeads(cfg, s, steps, t)
    decreases |steps|
  {
    if steps != [] {
      InstantIsPrompt(cfg, Next(cfg, s, steps[0]), steps[1..], t);
    }
  }

  /** A prompt piece from an initial state is the history of a prompt execution. */
  lemma {:induction false} PromptRun(cfg: Config, s: Runner, steps: seq<Step>, t: Runner) returns (states: seq<Runner>)
    requires PromptLeads(cfg, s, steps, t)
    ensures |states| == |steps| + 1 && states[0] == s && states[|steps|] == t
    ensures forall i :: 0 <= i < |steps| ==>
              && Enabled(states[i], steps[i]) && Prompt(states[i], steps[i])
              && states[i + 1] == Next(cfg, states[i], steps[i])
    decreases |steps|
  {
    if steps == [] {
      states := [s];
    } else {
      var later := PromptRun(cfg, Next(cfg, s, steps[0]), steps[1..], t);
      states := [s] + later;
    }
  }

  // ---------------------------------------------------------------- the pieces of the run

  /** A quiet session: selecting, nothing ready, nothing pending. */
  predicate Quiet(s: Runner) {
    && s.pc.Selecting? && !Ready(s) && s.link.probe > 0 && s.link.reader.Reading?
    && s.link.nextTick == s.now + s.link.probe
  }

  /** Waiting for the next tick. */
  lemma {:induction false} WaitForTick(cfg: Config, s: Runner) returns (t: Runner)
    requires Quiet(s) && (s.link.pong.Armed? ==> s.now + s.link.probe <= s.link.pong.deadline)
    ensures PromptLeads(cfg, s, [TimePasses(s.link.probe)] + [Step.TickFires], t)
    ensures t == s.(now := s.now + s.link.probe,
                    link := s.link.(tickReady := true, nextTick := s.link.nextTick + s.link.probe))
  {
    var wait := TimePasses(s.link.probe);
    var a := Next(cfg, s, wait);
    assert a == NextWorld(s, wait);
    PromptOne(cfg, s, wait);
    t := Next(cfg, a, Step.TickFires);
    assert t == NextWorld(a, Step.TickFires);
    assert (a.now - a.link.nextTick) % a.link.probe == 0;
    PromptOne(cfg, a, Step.TickFires);
    PromptJoin(cfg, s, [wait], a, [Step.TickFires], t);
  }

  /** A tick that finds the last heartbeat outstanding is skipped. */
  lemma {:induction false} SkipTick(cfg: Config, s: Runner) returns (t: Runner)
    requires Quiet(s) && s.link.awaitingPong && s.link.pong.Armed? && s.now + s.link.probe <= s.link.pong.deadline
    ensures PromptLeads(cfg, s, [TimePasses(s.link.probe)] + [Step.TickFires] + [SelectTick], t)
    ensures Quiet(t)
    ensures t == s.(now := s.now + s.link.probe, link := s.link.(nextTick := s.link.nextTick + s.link.probe))
  {
    var a := WaitForTick(cfg, s);
    t := Next(cfg, a, SelectTick);
    assert t == NextSelect(cfg, a, SelectTick);
    PromptOne(cfg, a, SelectTick);
    PromptJoin(cfg, s, [TimePasses(s.link.probe)] + [Step.TickFires], a, [SelectTick], t);
  }

  function Skips(probe: int, n: nat): seq<Step> {
    if n == 0 then [] else [TimePasses(probe)] + [Step.TickFires] + [SelectTick] + Skips(probe, n - 1)
  }

  /** As many ticks as fit into the acknowledgement timeout. */
  lemma {:induction false} SkipTicks(cfg: Config, s: Runner, n: nat) returns (t: Runner)
    requires Quiet(s) && s.link.awaitingPong && s.link.pong.Armed? && s.now + n * s.link.probe <= s.link.pong.deadline
    ensures PromptLeads(cfg, s, Skips(s.link.probe, n), t)
    ensures Quiet(t) && t == s.(now := s.now + n * s.link.probe,
                                link := s.link.(nextTick := s.link.nextTick + n * s.link.probe))
    decreases n
  {
    if n == 0 {
      t := s;
    } else {
      ScaledOrder(1, n, s.link.probe);
      var a := SkipTick(cfg, s);
      assert s.now + n * s.link.probe == a.now + (n - 1) * a.link.probe;
      t := SkipTicks(cfg, a, n - 1);
      PromptJoin(cfg, s, [TimePasses(s.link.probe)] + [Step.TickFires] + [SelectTick], a,
                 Skips(s.link.probe, n - 1), t);
    }
  }

  /** Up to the point where a heartbeat is written. */
  lemma {:induction false} ToBeat(cfg: Config, s: Runner) returns (t: Runner)
    requires Quiet(s) && !s.link.awaitingPong && s.link.pong.Stopped?
    ensures PromptLeads(cfg, s, [TimePasses(s.link.probe)] + [Step.TickFires] + [SelectTick], t)
    ensures t == s.(pc := Beating, now := s.now + s.link.probe,
                    link := s.link.(nextTick := s.link.nextTick + s.link.probe))
  {
    var a := WaitForTick(cfg, s);
    t := Next(cfg, a, SelectTick);
    assert t == NextSelect(cfg, a, SelectTick);
    PromptOne(cfg, a, SelectTick);
    PromptJoin(cfg, s, [TimePasses(s.link.probe)] + [Step.TickFires], a, [SelectTick], t);
  }

  lemma {:induction false} Beat(cfg: Config, s: Runner) returns (t: Runner)
    requires s.pc.Beating?
    ensures PromptLeads(cfg, s, [BeatWritten(None)], t) && Enabled(s, BeatWritten(None))
    ensures t == Next(cfg, s, BeatWritten(None)) == s.(pc := Selecting, link := Session.BeatSent(s.link, s.now))
  {
    t := Next(cfg, s, BeatWritten(None));
    assert t == NextSelect(cfg, s, BeatWritten(None));
    PromptOne(cfg, s, BeatWritten(None));
  }

  const NEWS := Frame(Event, "", "")

  /** An event frame from the server clears the outstanding heartbeat. */
  lemma {:induction false} FrameClears(cfg: Config, s: Runner) returns (t: Runner)
    requires Quiet(s) && s.link.awaitingPong
    ensures PromptLeads(cfg, s, [ReaderFrame(NEWS)] + [SelectFrame], t)
    ensures t == s.(link := TakeFrame(FrameRead(s.link, NEWS), s.now)) && Quiet(t)
    ensures !t.link.awaitingPong && t.link.pong.Stopped?
    ensures t.link.lastBeat == s.link.lastBeat && t.link.beats == s.link.beats
  {
    var a, b := FrameTaken(cfg, s, NEWS);
    t := b;
    PromptOne(cfg, s, ReaderFrame(NEWS));
    PromptOne(cfg, a, SelectFrame);
    PromptJoin(cfg, s, [ReaderFrame(NEWS)], a, [SelectFrame], t);
    assert a == NextWorld(s, ReaderFrame(NEWS)) && b == NextSelect(cfg, a, SelectFrame);
  }

  // ---------------------------------------------------------------- the whole run

  /** Some start: an identified runtime with an empty token. */
  function SomeStart(): Runner {
    Runner(0, Holds(EMPTY_STATE.(runtimeId := "0")), false, Live, Starting, false, map[], Announce, 1,
           Open(0, 0, 1, 1), 0, 0, 0, 0, 0, "", [], 0, false)
  }

  lemma {:induction false} SomeStartIsInitial()
    ensures Initial(SomeStart()) && Identified(SomeStart().register)
  {
    assert Trimmed("0") && Trimmed("");
  }

  lemma {:induction false} ConnectingIsInstant(tickMs: Int64)
    ensures forall i :: 0 <= i < |FirstConnection("", tickMs, "")| ==> !FirstConnection("", tickMs, "")[i].TimePasses?
  {
  }

  lemma {:induction false} ToSessionPromptly(cfg: Config, start: Runner, tickMs: Int64) returns (t: Runner)
    requires Initial(start) && Identified(start.register)
    ensures PromptLeads(cfg, start, FirstConnection("", tickMs, ""), t)
    ensures t.pc.Selecting? && t.context.Live? && !t.signal && Opened(cfg, t, tickMs)
  {
    t := SessionReachable(cfg, start, "", tickMs, "");
    ConnectingIsInstant(tickMs);
    InstantIsPrompt(cfg, start, FirstConnection("", tickMs, ""), t);
  }

  /** Open a session and send its first heartbeat. */
  lemma {:induction false} FirstBeat(cfg: Config, start: Runner, tickMs: Int64) returns (steps: seq<Step>, t: Runner)
    requires Initial(start) && Identified(start.register)
    ensures PromptLeads(cfg, start, steps, t)
    ensures Quiet(t) && t.link.awaitingPong && t.link.beats == 1 && t.link.lastBeat == t.now
    ensures t.link.tickMs == tickMs && t.link.probe == Probe(cfg.heartbeatSeconds, tickMs)
    ensures t.link.ack == Ack(cfg.heartbeatSeconds, tickMs) && t.link.pong == Armed(t.now + t.link.ack)
  {
    var s := ToSessionPromptly(cfg, start, tickMs);
    steps := FirstConnection("", tickMs, "");
    var later;
    later, t := OpeningBeat(cfg, s, tickMs);
    PromptJoin(cfg, start, steps, s, later, t);
    steps := steps + later;
  }

  lemma {:induction false} OpeningBeat(cfg: Config, s: Runner, tickMs: Int64) returns (steps: seq<Step>, t: Runner)
    requires s.pc.Selecting? && s.context.Live? && !s.signal && Opened(cfg, s, tickMs)
    ensures PromptLeads(cfg, s, steps, t)
    ensures Quiet(t) && t.link.awaitingPong && t.link.beats == 1 && t.link.lastBeat == t.now
    ensures t.link.tickMs == tickMs && t.link.probe == Probe(cfg.heartbeatSeconds, tickMs)
    ensures t.link.ack == Ack(cfg.heartbeatSeconds, tickMs) && t.link.pong == Armed(t.now + t.link.ack)
  {
    var a := ToBeat(cfg, s);
    steps := [TimePasses(s.link.probe)] + [Step.TickFires] + [SelectTick];
    t := Beat(cfg, a);
    PromptJoin(cfg, s, steps, a, [BeatWritten(None)], t);
    steps := steps + [BeatWritten(None)];
  }

  /** From a heartbeat just sent: let the acknowledgement timeout run as far as the grid allows, then a
      frame clears it, and the next tick is about to send. */
  lemma {:induction false} UpToNextBeat(cfg: Config, s: Runner) returns (steps: seq<Step>, t: Runner)
    requires Quiet(s) && s.link.awaitingPong && s.link.lastBeat == s.now
    requires s.link.ack >= 0 && s.link.pong == Armed(s.now + s.link.ack)
    ensures PromptLeads(cfg, s, steps, t)
    ensures t.pc.Beating? && t.now - t.link.lastBeat == LongestGap(s.link.probe, s.link.ack)
    ensures t.link.beats == s.link.beats && t.link.tickMs == s.link.tickMs
  {
    var probe, n := s.link.probe, s.link.ack / s.link.probe;
    assert n * probe <= s.link.ack;
    var a := SkipTicks(cfg, s, n);
    steps := Skips(probe, n);
    var b := FrameClears(cfg, a);
    PromptJoin(cfg, s, steps, a, [ReaderFrame(NEWS)] + [SelectFrame], b);
    steps := steps + ([ReaderFrame(NEWS)] + [SelectFrame]);
    t := ToBeat(cfg, b);
    PromptJoin(cfg, s, steps, b, [TimePasses(probe)] + [Step.TickFires] + [SelectTick], t);
    steps := steps + ([TimePasses(probe)] + [Step.TickFires] + [SelectTick]);
    assert n * probe + probe == (n + 1) * probe;
  }

  /** A run whose last step writes a heartbeat `gap` after the one before it. */
  ghost predicate GapRun(cfg: Config, tickMs: Int64, gap: int, states: seq<Runner>, steps: seq<Step>) {
    && PromptExecution(cfg, states, steps) && |steps| > 0 && steps[|steps| - 1] == BeatWritten(None)
    && var l, l' := states[|steps| - 1].link, states[|steps|].link;
       l.tickMs == tickMs && l.beats > 0 && l'.lastBeat - l.lastBeat == gap
  }

  lemma {:induction false} EndWithBeat(cfg: Config, start: Runner, steps: seq<Step>, t: Runner)
      returns (states: seq<Runner>, all: seq<Step>)
    requires Initial(start) && PromptLeads(cfg, start, steps, t) && t.pc.Beating? && t.link.beats > 0
    ensures GapRun(cfg, t.link.tickMs, t.now - t.link.lastBeat, states, all) && states[0] == start
  {
    var r := Beat(cfg, t);
    all := steps + [BeatWritten(None)];
    var before := PromptRun(cfg, start, steps, t);
    states := before + [r];
    forall i | 0 <= i < |all|
      ensures Enabled(states[i], all[i]) && states[i + 1] == Next(cfg, states[i], all[i]) && Prompt(states[i], all[i])
    {
      if i < |steps| {
        assert states[i] == before[i] && states[i + 1] == before[i + 1] && all[i] == steps[i];
      }
    }
  }

  /** The longest gap is reached: from every start of an identified runtime, for every configuration and
      every server tick, some prompt run has two consecutive heartbeats exactly that far apart. */
  lemma {:induction false} LongestGapIsReached(cfg: Config, start: Runner, tickMs: Int64)
      returns (states: seq<Runner>, steps: seq<Step>)
    requires Initial(start) && Identified(start.register)
    ensures GapRun(cfg, tickMs, LongestGap(Probe(cfg.heartbeatSeconds, tickMs), Ack(cfg.heartbeatSeconds, tickMs)),
                   states, steps)
    ensures states[0] == start
  {
    DurationsBounded(cfg.heartbeatSeconds, tickMs);
    var first, s := FirstBeat(cfg, start, tickMs);
    var second, t := UpToNextBeat(cfg, s);
    PromptJoin(cfg, start, first, s, second, t);
    states, steps := EndWithBeat(cfg, start, first + second, t);
  }

  /** The lifetime lapses in some prompt run with this tick. */
  ghost predicate Lapses(cfg: Config, tickMs: Int64) {
    exists gap: int, states: seq<Runner>, steps: seq<Step> ::
      gap > TtlSeconds(cfg.heartbeatSeconds) * SECOND && GapRun(cfg, tickMs, gap, states, steps)
  }

  /** In some prompt run two heartbeats are further apart than the advertised lifetime if and only if the
      longest gap does not fit it. */
  lemma {:induction false} LapsesExactly(cfg: Config, tickMs: Int64)
    ensures Lapses(cfg, tickMs) <==> !GapFits(cfg.heartbeatSeconds, tickMs)
  {
    if !GapFits(cfg.heartbeatSeconds, tickMs) {
      SomeStartIsInitial();
      var states, steps := LongestGapIsReached(cfg, SomeStart(), tickMs);
    }
    if Lapses(cfg, tickMs) {
      var gap: int, states: seq<Runner>, steps: seq<Step> :|
        gap > TtlSeconds(cfg.heartbeatSeconds) * SECOND && GapRun(cfg, tickMs, gap, states, steps);
      GapRunFits(cfg, tickMs, gap, states, steps);
    }
  }

  lemma {:induction false} GapRunFits(cfg: Config, tickMs: Int64, gap: int, states: seq<Runner>, steps: seq<Step>)
    requires GapRun(cfg, tickMs, gap, states, steps)
    ensures GapFits(cfg.heartbeatSeconds, tickMs) ==> gap <= TtlSeconds(cfg.heartbeatSeconds) * SECOND
  {
    var i := |steps| - 1;
    HeartbeatGap(cfg, states, steps, i);
    InvariantHolds(cfg, states, steps, i);
  }

  /** So the lifetime is safe with every server tick exactly for settings of 4 s and more. */
  lemma {:induction false} SafeSettings(cfg: Config)
    requires 1 <= cfg.heartbeatSeconds && cfg.heartbeatSeconds * 3 < TWO_TO_63
    ensures (forall tickMs: Int64 :: !Lapses(cfg, tickMs)) <==> cfg.heartbeatSeconds >= 4
  {
    forall tickMs: Int64 ensures Lapses(cfg, tickMs) <==> !GapFits(cfg.heartbeatSeconds, tickMs) {
      LapsesExactly(cfg, tickMs);
    }
    GapFitsEveryTick(cfg.heartbeatSeconds);
  }
}
