/** Concrete runs of the runner: a session can be reached, a silent token change can strand it, and the
    imperative select loop takes exactly the steps of the transition system. */
module RunnerRuns {
  import opened Text
  import opened StateCodec
  import opened StateModel
  import opened Heartbeat
  import opened Session
  import opened RunnerModel
  import opened RunnerSafety
  import opened RunnerTheorems
  import RunnerLoops

  // ---------------------------------------------------------------- reaching a session

  /** A loop update of an identified runtime that commits keeps identity and token. */
  lemma {:induction false} LoopUpdateCommits(r: Register, m: Mutation)
    requires r.Holds? && RegisterTrimmed(r) && r.state.runtimeId != "" && LoopMutation(m)
    ensures var u := UpdateRegister(r, m, Commits);
            && u.result.Some? && u.register == Holds(u.result.value) && RegisterTrimmed(u.register)
            && u.result.value.runtimeToken == r.state.runtimeToken
            && u.result.value.runtimeId == r.state.runtimeId
  {
    assert Mutate(m, r.state).Some?;
    assert Mutated(m, r.state).Some?;
    MutatedFields(m, r.state);
  }

  /** The quiet start: an identified runtime, nothing pending. */
  predicate Identified(r: Register) {
    r.Holds? && RegisterTrimmed(r) && r.state.runtimeId != ""
  }

  /** `s` with the loop at `pc`, whatever its status says. */
  predicate Moved(s: Runner, t: Runner, pc: Pc) {
    && t.pc == pc && t.signal == s.signal && t.control == s.control && t.context == s.context
    && Identified(t.register) && Token(t.register) == Token(s.register)
    && t.tokenVersion == s.tokenVersion
  }

  lemma {:induction false} EnsureMoves(cfg: Config, s: Runner)
    requires Identified(s.register) && s.pc.Ensure?
    ensures var t := Next(cfg, s, Ensures(None, Commits));
            Moved(s, t, Dial) && t.loadedToken == Token(s.register)
  {
    var step := Ensures(None, Commits);
    LoopUpdateCommits(s.register, EnsureIdentity(None));
    var u := StoreStep(cfg, s, step);
    assert u == UpdateRegister(s.register, EnsureIdentity(None), Commits);
    assert Next(cfg, s, step) == NextConnect(cfg, s, u, step);
  }

  lemma {:induction false} HelloMoves(cfg: Config, s: Runner, at: string)
    requires Identified(s.register) && s.pc.Greeting?
    ensures var t := Next(cfg, s, HelloRecorded(at, Commits));
            Moved(s, t, GoingOnline(s.pc.tickMs)) && t.loadedToken == s.loadedToken
  {
    var step := HelloRecorded(at, Commits);
    LoopUpdateCommits(s.register, RecordHello(s.pc.pairing, cfg.url, at));
    var u := StoreStep(cfg, s, step);
    assert u == UpdateRegister(s.register, RecordHello(s.pc.pairing, cfg.url, at), Commits);
    assert Next(cfg, s, step) == NextConnect(cfg, s, u, step);
  }

  lemma {:induction false} LeadsJoin(cfg: Config, s: Runner, a: seq<Step>, t: Runner, b: seq<Step>, r: Runner)
    requires Leads(cfg, s, a, t) && Leads(cfg, t, b, r)
    ensures Leads(cfg, s, a + b, r)
    decreases |a|
  {
    if a == [] {
      assert a + b == b;
    } else {
      assert (a + b)[1..] == a[1..] + b;
      LeadsJoin(cfg, Next(cfg, s, a[0]), a[1..], t, b, r);
    }
  }

  lemma {:induction false} LeadsOne(cfg: Config, s: Runner, step: Step)
    requires Enabled(s, step)
    ensures Leads(cfg, s, [step], Next(cfg, s, step))
  {
    assert [step][1..] == [];
    assert Leads(cfg, Next(cfg, s, step), [], Next(cfg, s, step));
  }

  lemma {:induction false} ToDial(cfg: Config, s: Runner) returns (t: Runner)
    requires s.pc.Announce? && Identified(s.register)
    ensures Leads(cfg, s, [Announces] + [Ensures(None, Commits)], t)
    ensures Moved(s, t, Dial) && t.loadedToken == Token(s.register)
  {
    var a := Next(cfg, s, Announces);
    LeadsOne(cfg, s, Announces);
    assert a == s.(stateName := StateName.Connecting, online := false, pc := Ensure);
    t := Next(cfg, a, Ensures(None, Commits));
    LeadsOne(cfg, a, Ensures(None, Commits));
    EnsureMoves(cfg, a);
    LeadsJoin(cfg, s, [Announces], a, [Ensures(None, Commits)], t);
  }

  lemma {:induction false} ToSendConnect(cfg: Config, s: Runner) returns (t: Runner)
    requires s.pc.Dial?
    ensures Leads(cfg, s, [DialBegins] + [DialEnds(None)], t)
    ensures t == s.(pc := SendConnect, dialsAfterEnd := t.dialsAfterEnd)
  {
    var a := Next(cfg, s, DialBegins);
    LeadsOne(cfg, s, DialBegins);
    t := Next(cfg, a, DialEnds(None));
    LeadsOne(cfg, a, DialEnds(None));
    LeadsJoin(cfg, s, [DialBegins], a, [DialEnds(None)], t);
  }

  lemma {:induction false} ToGreeting(cfg: Config, s: Runner, pairing: string, tickMs: Int64) returns (t: Runner)
    requires s.pc.SendConnect?
    ensures Leads(cfg, s, [ConnectSent(None)] + [Replied(Welcome(pairing, tickMs))], t)
    ensures t == s.(pc := Greeting(pairing, tickMs))
  {
    var a := Next(cfg, s, ConnectSent(None));
    LeadsOne(cfg, s, ConnectSent(None));
    var reply := Replied(Welcome(pairing, tickMs));
    t := Next(cfg, a, reply);
    LeadsOne(cfg, a, reply);
    LeadsJoin(cfg, s, [ConnectSent(None)], a, [reply], t);
  }

  /** The session just opened with the durations of this configuration and tick. */
  predicate Opened(cfg: Config, s: Runner, tickMs: Int64) {
    s.link == Open(s.now, tickMs, Probe(cfg.heartbeatSeconds, tickMs), Ack(cfg.heartbeatSeconds, tickMs))
  }

  lemma {:induction false} OnlineMoves(cfg: Config, s: Runner)
    requires s.pc.GoingOnline? && Identified(s.register)
    ensures var t := Next(cfg, s, GoesOnline);
            Moved(s, t, Selecting) && t.loadedToken == s.loadedToken && Opened(cfg, t, s.pc.tickMs)
  {
    var u := StoreStep(cfg, s, GoesOnline);
    assert Next(cfg, s, GoesOnline) == NextConnect(cfg, s, u, GoesOnline);
  }

  lemma {:induction false} HelloLeads(cfg: Config, s: Runner, at: string) returns (t: Runner)
    requires s.pc.Greeting? && Identified(s.register)
    ensures Leads(cfg, s, [HelloRecorded(at, Commits)], t)
    ensures Moved(s, t, GoingOnline(s.pc.tickMs)) && t.loadedToken == s.loadedToken
  {
    t := Next(cfg, s, HelloRecorded(at, Commits));
    LeadsOne(cfg, s, HelloRecorded(at, Commits));
    HelloMoves(cfg, s, at);
  }

  lemma {:induction false} OnlineLeads(cfg: Config, s: Runner) returns (t: Runner)
    requires s.pc.GoingOnline? && Identified(s.register)
    ensures Leads(cfg, s, [GoesOnline], t)
    ensures Moved(s, t, Selecting) && t.loadedToken == s.loadedToken && Opened(cfg, t, s.pc.tickMs)
  {
    t := Next(cfg, s, GoesOnline);
    OnlineMoves(cfg, s);
    LeadsOne(cfg, s, GoesOnline);
  }

  lemma {:induction false} ToSession(cfg: Config, s: Runner, at: string) returns (t: Runner)
    requires s.pc.Greeting? && Identified(s.register)
    ensures Leads(cfg, s, [HelloRecorded(at, Commits)] + [GoesOnline], t)
    ensures Moved(s, t, Selecting) && t.loadedToken == s.loadedToken && Opened(cfg, t, s.pc.tickMs)
  {
    var a := HelloLeads(cfg, s, at);
    t := OnlineLeads(cfg, a);
    LeadsJoin(cfg, s, [HelloRecorded(at, Commits)], a, [GoesOnline], t);
  }

  /** The steps of a first connection that succeeds. */
  function FirstConnection(pairing: string, tickMs: Int64, at: string): seq<Step> {
    ([Announces] + [Ensures(None, Commits)])
    + (([DialBegins] + [DialEnds(None)])
    + (([ConnectSent(None)] + [Replied(Welcome(pairing, tickMs))])
    + ([HelloRecorded(at, Commits)] + [GoesOnline])))
  }

  lemma {:induction false} JoinFour(cfg: Config, s: Runner, a: seq<Step>, t: Runner, b: seq<Step>, u: Runner,
      c: seq<Step>, v: Runner, d: seq<Step>, w: Runner)
    requires Leads(cfg, s, a, t) && Leads(cfg, t, b, u) && Leads(cfg, u, c, v) && Leads(cfg, v, d, w)
    ensures Leads(cfg, s, a + (b + (c + d)), w)
  {
    LeadsJoin(cfg, u, c, v, d, w);
    LeadsJoin(cfg, t, b, u, c + d, w);
    LeadsJoin(cfg, s, a, t, b + (c + d), w);
  }

  /** From the top of its loop, an identified runtime can reach a session that carries the stored token. */
  lemma {:induction false} SessionFrom(cfg: Config, s: Runner, pairing: string, tickMs: Int64, at: string)
      returns (t: Runner)
    requires s.pc.Announce? && Identified(s.register)
    ensures Leads(cfg, s, FirstConnection(pairing, tickMs, at), t)
    ensures Moved(s, t, Selecting) && t.loadedToken == Token(s.register) && Opened(cfg, t, tickMs)
  {
    var a := ToDial(cfg, s);
    var b := ToSendConnect(cfg, a);
    var c := ToGreeting(cfg, b, pairing, tickMs);
    t := ToSession(cfg, c, at);
    JoinFour(cfg, s, [Announces] + [Ensures(None, Commits)], a, [DialBegins] + [DialEnds(None)], b,
             [ConnectSent(None)] + [Replied(Welcome(pairing, tickMs))], c,
             [HelloRecorded(at, Commits)] + [GoesOnline], t);
  }

  /** Every identified runtime can reach a session that carries the stored token. */
  lemma {:induction false} SessionReachable(cfg: Config, s: Runner, pairing: string, tickMs: Int64, at: string)
      returns (t: Runner)
    requires Initial(s) && Identified(s.register)
    ensures Leads(cfg, s, FirstConnection(pairing, tickMs, at), t)
    ensures Moved(s, t, Selecting) && t.loadedToken == Token(s.register) && Opened(cfg, t, tickMs)
  {
    t := SessionFrom(cfg, s, pairing, tickMs, at);
  }

  /** Runs end in states that satisfy the invariant. */
  lemma {:induction false} LeadsKeepsInvariant(cfg: Config, s: Runner, steps: seq<Step>, t: Runner)
    requires Invariant(cfg, s) && Leads(cfg, s, steps, t)
    ensures Invariant(cfg, t)
    decreases |steps|
  {
    if steps != [] {
      StepKeepsInvariant(cfg, s, steps[0]);
      LeadsKeepsInvariant(cfg, Next(cfg, s, steps[0]), steps[1..], t);
    }
  }

  lemma {:induction false} InitialInvariant(cfg: Config, s: Runner)
    requires Initial(s)
    ensures Invariant(cfg, s)
  {
  }

  /** A reconnect can be lost. From every start of an identified runtime, and for every other token, there
      is a run (connect, then a command for that token whose directory sync fails after the rename) that
      ends in a session still using the old token, with no signal in the channel and none to come. */
  lemma {:induction false} ReconnectCanBeLost(cfg: Config, s: Runner, pairing: string, tickMs: Int64, at: string,
      thread: nat, token: Option<string>) returns (t: Runner)
    requires Initial(s) && Identified(s.register)
    requires NewToken(token) != Token(s.register) && (token.Some? ==> NewToken(token) != "")
    ensures Leads(cfg, s,
                  FirstConnection(pairing, tickMs, at) + [TokenCommand(thread, token, None, FailsAfterRename)], t)
    ensures t.pc.Selecting? && t.loadedToken == Token(s.register) != Token(t.register) && !SignalPending(t)
  {
    var before := SessionReachable(cfg, s, pairing, tickMs, at);
    InitialInvariant(cfg, s);
    LeadsKeepsInvariant(cfg, s, FirstConnection(pairing, tickMs, at), before);
    var step := TokenCommand(thread, token, None, FailsAfterRename);
    SilentChangeStrands(cfg, before, thread, token);
    t := Next(cfg, before, step);
    LeadsThen(cfg, s, FirstConnection(pairing, tickMs, at), before, step);
    ControlKeepsPc(cfg, before, step);
  }

  // ---------------------------------------------------------------- the select loop's arms

  /** The arm is ready in `s`, with the clock it carries. */
  predicate Available(s: Runner, arm: RunnerLoops.Arm) {
    match arm
    case ContextDone(reason) => s.context == Ended(reason)
    case ReconnectReady => s.signal
    case TickReady(now, writeError) => s.link.tickReady && now == s.now && ExternalOption(writeError)
    case PongReady(now) => now == s.now && (s.link.pong.Fired? || (s.link.pong.Armed? && s.link.pong.deadline <= now))
    case ReadErrorReady(e) => s.link.reader.Reading? && External(e)
    case FrameReady(now, _, _) => s.link.reader.Reading? && now == s.now
  }

  /** The steps of the transition system behind one turn of the select loop. */
  function StepsOf(s: Runner, arm: RunnerLoops.Arm): seq<Step> {
    match arm
    case ContextDone(_) => [SelectEnd]
    case ReconnectReady => [SelectSignal] + [ReconnectMarked]
    case TickReady(_, writeError) =>
      if s.link.awaitingPong then [SelectTick] else [SelectTick] + [BeatWritten(writeError)]
    case PongReady(_) => if s.link.pong.Fired? then [SelectPong] else [Step.PongFires] + [SelectPong]
    case ReadErrorReady(e) => [ReaderError(e)] + [SelectReadError]
    case FrameReady(_, f, d) =>
      if f.kind.Request? then [ReaderFrame(f)] + [SelectFrame] + [RequestHandled(d, true)]
      else [ReaderFrame(f)] + [SelectFrame]
  }

  /** Where the loop thread is after the turn: selecting again, or on its way out with the error. */
  function PcAfter(arm: RunnerLoops.Arm, exit: Option<Error>): Pc {
    if exit.None? then Selecting
    else if arm.ContextDone? || arm.ReconnectReady? then Returned(exit)
    else Recording(exit.value, true)
  }

  ghost predicate Simulates(cfg: Config, s: Runner, arm: RunnerLoops.Arm, t: Runner) {
    var (l, exit) := RunnerLoops.ArmEffect(s.link, cfg.hasComponent, arm);
    Leads(cfg, s, StepsOf(s, arm), t) && t.link == l && t.pc == PcAfter(arm, exit)
  }

  lemma {:induction false} EndingArms(cfg: Config, s: Runner, arm: RunnerLoops.Arm) returns (t: Runner)
    requires s.pc.Selecting? && Available(s, arm) && (arm.ContextDone? || arm.ReconnectReady?)
    ensures Simulates(cfg, s, arm, t)
  {
    if arm.ContextDone? {
      t := Next(cfg, s, SelectEnd);
      LeadsOne(cfg, s, SelectEnd);
    } else {
      var a := Next(cfg, s, SelectSignal);
      LeadsOne(cfg, s, SelectSignal);
      t := Next(cfg, a, ReconnectMarked);
      LeadsOne(cfg, a, ReconnectMarked);
      LeadsJoin(cfg, s, [SelectSignal], a, [ReconnectMarked], t);
    }
  }

  lemma {:induction false} TickArm(cfg: Config, s: Runner, arm: RunnerLoops.Arm) returns (t: Runner)
    requires s.pc.Selecting? && Available(s, arm) && arm.TickReady?
    ensures Simulates(cfg, s, arm, t)
  {
    var a := Next(cfg, s, SelectTick);
    LeadsOne(cfg, s, SelectTick);
    assert a == NextSelect(cfg, s, SelectTick);
    if s.link.awaitingPong {
      t := a;
    } else {
      var step := BeatWritten(arm.writeError);
      t := Next(cfg, a, step);
      LeadsOne(cfg, a, step);
      assert t == NextSelect(cfg, a, step);
      LeadsJoin(cfg, s, [SelectTick], a, [step], t);
    }
  }

  lemma {:induction false} PongArm(cfg: Config, s: Runner, arm: RunnerLoops.Arm) returns (t: Runner)
    requires s.pc.Selecting? && Available(s, arm) && arm.PongReady?
    ensures Simulates(cfg, s, arm, t)
  {
    if s.link.pong.Fired? {
      t := Next(cfg, s, SelectPong);
      LeadsOne(cfg, s, SelectPong);
    } else {
      var a := Next(cfg, s, Step.PongFires);
      LeadsOne(cfg, s, Step.PongFires);
      assert a == NextWorld(s, Step.PongFires);
      t := Next(cfg, a, SelectPong);
      LeadsOne(cfg, a, SelectPong);
      LeadsJoin(cfg, s, [Step.PongFires], a, [SelectPong], t);
    }
  }

  lemma {:induction false} ReadErrorArm(cfg: Config, s: Runner, arm: RunnerLoops.Arm) returns (t: Runner)
    requires s.pc.Selecting? && Available(s, arm) && arm.ReadErrorReady?
    ensures Simulates(cfg, s, arm, t)
  {
    var step := ReaderError(arm.error);
    var a := Next(cfg, s, step);
    LeadsOne(cfg, s, step);
    assert a == NextWorld(s, step);
    t := Next(cfg, a, SelectReadError);
    LeadsOne(cfg, a, SelectReadError);
    LeadsJoin(cfg, s, [step], a, [SelectReadError], t);
  }

  lemma {:induction false} FrameTaken(cfg: Config, s: Runner, f: Frame) returns (a: Runner, b: Runner)
    requires s.pc.Selecting? && s.link.reader.Reading?
    ensures Enabled(s, ReaderFrame(f)) && a == Next(cfg, s, ReaderFrame(f))
    ensures Enabled(a, SelectFrame) && b == Next(cfg, a, SelectFrame)
    ensures b.link == TakeFrame(FrameRead(s.link, f), s.now)
    ensures b.pc == if f.kind.Request? then Handling(f) else Selecting
  {
    a := Next(cfg, s, ReaderFrame(f));
    assert a == NextWorld(s, ReaderFrame(f));
    b := Next(cfg, a, SelectFrame);
    assert b == NextSelect(cfg, a, SelectFrame);
  }

  lemma {:induction false} AnswerTaken(cfg: Config, s: Runner, d: Dispatch) returns (t: Runner)
    requires s.pc.Handling?
    ensures Leads(cfg, s, [RequestHandled(d, true)], t)
    ensures t.link == Answered(s.link, Respond(s.pc.frame, cfg.hasComponent, d)) && t.pc == Selecting
  {
    var step := RequestHandled(d, true);
    t := Next(cfg, s, step);
    LeadsOne(cfg, s, step);
    assert t == NextSelect(cfg, s, step);
  }

  lemma {:induction false} FrameLeads(cfg: Config, s: Runner, f: Frame) returns (t: Runner)
    requires s.pc.Selecting? && s.link.reader.Reading?
    ensures Leads(cfg, s, [ReaderFrame(f)] + [SelectFrame], t)
    ensures t.link == TakeFrame(FrameRead(s.link, f), s.now)
    ensures t.pc == if f.kind.Request? then Handling(f) else Selecting
  {
    var a, b := FrameTaken(cfg, s, f);
    t := b;
    LeadsOne(cfg, s, ReaderFrame(f));
    LeadsOne(cfg, a, SelectFrame);
    LeadsJoin(cfg, s, [ReaderFrame(f)], a, [SelectFrame], b);
  }

  lemma {:induction false} FrameArm(cfg: Config, s: Runner, arm: RunnerLoops.Arm) returns (t: Runner)
    requires s.pc.Selecting? && Available(s, arm) && arm.FrameReady?
    ensures Simulates(cfg, s, arm, t)
  {
    var taken := FrameLeads(cfg, s, arm.frame);
    t := taken;
    if arm.frame.kind.Request? {
      t := AnswerTaken(cfg, taken, arm.dispatch);
      LeadsJoin(cfg, s, [ReaderFrame(arm.frame)] + [SelectFrame], taken, [RequestHandled(arm.dispatch, true)], t);
    }
  }

  /** Every turn of the imperative select loop is a run of the transition system: same session data, and
      the loop thread where the arm's outcome puts it. */
  lemma {:induction false} ArmIsSteps(cfg: Config, s: Runner, arm: RunnerLoops.Arm) returns (t: Runner)
    requires s.pc.Selecting? && Available(s, arm)
    ensures Simulates(cfg, s, arm, t)
  {
    match arm
    case ContextDone(_) => t := EndingArms(cfg, s, arm);
    case ReconnectReady => t := EndingArms(cfg, s, arm);
    case TickReady(_, _) => t := TickArm(cfg, s, arm);
    case PongReady(_) => t := PongArm(cfg, s, arm);
    case ReadErrorReady(_) => t := ReadErrorArm(cfg, s, arm);
    case FrameReady(_, _, _) => t := FrameArm(cfg, s, arm);
  }

  // ---------------------------------------------------------------- the reconnect loop's turns

  /** The environment can bring about the wake-up of a turn. */
  predicate Possible(a: RunnerLoops.Attempt) {
    a.wakeup.ByContext? ==> a.reason.Canceled? || a.reason.DeadlineExceeded?
  }

  /** The steps of the transition system behind one turn of the reconnect loop after `runOnce`. */
  function TurnSteps(a: RunnerLoops.Attempt, backoff: nat): seq<Step> {
    if !AfterReturn(Some(a.error), a.context).Parking? then [Classifies]
    else
      [Classifies] + [Parks] +
      match a.wakeup
      case ByContext => [ParentEnds(a.reason)] + [SleepEnd]
      case BySignal => [ReconnectCommand] + [SleepSignal]
      case ByTimer => [TimePasses(backoff * SECOND)] + [SleepTimer]
  }

  lemma {:induction false} TwoSteps(cfg: Config, s: Runner, first: Step, second: Step) returns (t: Runner)
    requires Enabled(s, first) && Enabled(Next(cfg, s, first), second)
    ensures t == Next(cfg, Next(cfg, s, first), second) && Leads(cfg, s, [first] + [second], t)
  {
    var a := Next(cfg, s, first);
    t := Next(cfg, a, second);
    LeadsOne(cfg, s, first);
    LeadsOne(cfg, a, second);
    LeadsJoin(cfg, s, [first], a, [second], t);
  }

  lemma {:induction false} ParkingSteps(cfg: Config, s: Runner, error: Error) returns (t: Runner)
    requires s.pc == Returned(Some(error)) && AfterReturn(Some(error), s.context).Parking?
    ensures Leads(cfg, s, [Classifies] + [Parks], t)
    ensures t.pc == Sleeping(s.now + s.backoff * SECOND) && t.now == s.now && t.context == s.context == Live
    ensures t.backoff == s.backoff && t.waits == s.waits
  {
    var a := Next(cfg, s, Classifies);
    var u := StoreStep(cfg, s, Classifies);
    assert a == NextConnect(cfg, s, u, Classifies);
    assert a == s.(pc := Parking(error));
    t := TwoSteps(cfg, s, Classifies, Parks);
    assert t == NextConnect(cfg, a, StoreStep(cfg, a, Parks), Parks);
  }

  /** What a turn leads to: the loop's end, or the next attempt with this wait and these waits. */
  predicate TurnResult(s: Runner, t: Runner, a: RunnerLoops.Attempt) {
    var (waits, exit) := RunnerLoops.RunEffect([a], |s.waits|);
    if exit.Some? then t.pc == Exited(exit)
    else t.pc == Announce && t.backoff == Wait(|t.waits|) && t.waits == if waits == [] then [] else s.waits + waits
  }

  lemma {:induction false} WokenByContext(cfg: Config, s: Runner, reason: Error) returns (t: Runner)
    requires s.pc.Sleeping? && s.context.Live? && (reason.Canceled? || reason.DeadlineExceeded?)
    ensures Leads(cfg, s, [ParentEnds(reason)] + [SleepEnd], t) && t.pc == Exited(Some(reason))
  {
    t := TwoSteps(cfg, s, ParentEnds(reason), SleepEnd);
  }

  lemma {:induction false} WokenBySignal(cfg: Config, s: Runner) returns (t: Runner)
    requires s.pc.Sleeping?
    ensures Leads(cfg, s, [ReconnectCommand] + [SleepSignal], t)
    ensures t.pc == Announce && t.backoff == 1 && t.waits == []
  {
    t := TwoSteps(cfg, s, ReconnectCommand, SleepSignal);
  }

  lemma {:induction false} WokenByTimer(cfg: Config, s: Runner) returns (t: Runner)
    requires s.pc == Sleeping(s.now + s.backoff * SECOND) && s.backoff > 0
    ensures Leads(cfg, s, [TimePasses(s.backoff * SECOND)] + [SleepTimer], t)
    ensures t.pc == Announce && t.backoff == Doubled(s.backoff) && t.waits == s.waits + [s.backoff]
  {
    t := TwoSteps(cfg, s, TimePasses(s.backoff * SECOND), SleepTimer);
  }

  /** A parked turn. */
  lemma {:induction false} ParkedTurn(cfg: Config, s: Runner, a: RunnerLoops.Attempt) returns (t: Runner)
    requires s.pc == Returned(Some(a.error)) && s.context == a.context && s.backoff > 0 && Possible(a)
    requires AfterReturn(Some(a.error), a.context).Parking?
    ensures Leads(cfg, s, TurnSteps(a, s.backoff), t)
    ensures match a.wakeup
            case ByContext => t.pc == Exited(Some(a.reason))
            case BySignal => t.pc == Announce && t.backoff == 1 && t.waits == []
            case ByTimer => t.pc == Announce && t.backoff == Doubled(s.backoff) && t.waits == s.waits + [s.backoff]
  {
    var b := ParkingSteps(cfg, s, a.error);
    match a.wakeup
    case ByContext =>
      t := WokenByContext(cfg, b, a.reason);
      LeadsJoin(cfg, s, [Classifies] + [Parks], b, [ParentEnds(a.reason)] + [SleepEnd], t);
    case BySignal =>
      t := WokenBySignal(cfg, b);
      LeadsJoin(cfg, s, [Classifies] + [Parks], b, [ReconnectCommand] + [SleepSignal], t);
    case ByTimer =>
      t := WokenByTimer(cfg, b);
      LeadsJoin(cfg, s, [Classifies] + [Parks], b, [TimePasses(s.backoff * SECOND)] + [SleepTimer], t);
  }

  lemma {:induction false} OneTurnEffect(a: RunnerLoops.Attempt, k: nat)
    ensures RunnerLoops.RunEffect([a], k)
         == match AfterReturn(Some(a.error), a.context)
            case Exited(result) => ([], result)
            case Announce => ([], None)
            case _ =>
              match a.wakeup
              case ByContext => ([], Some(a.reason))
              case BySignal => ([], None)
              case ByTimer => ([Wait(k)], None)
  {
    assert [a][1..] == [];
    assert [Wait(k)] + [] == [Wait(k)];
  }

  lemma {:induction false} ClassifiedTurn(cfg: Config, s: Runner, error: Error)
    requires s.pc == Returned(Some(error)) && !AfterReturn(Some(error), s.context).Parking?
    ensures var t := Next(cfg, s, Classifies);
            && t.pc == AfterReturn(Some(error), s.context) && (t.pc.Announce? || t.pc.Exited?)
            && (t.pc.Announce? ==> t.backoff == 1 && t.waits == [])
  {
    var u := StoreStep(cfg, s, Classifies);
    assert Next(cfg, s, Classifies) == NextConnect(cfg, s, u, Classifies);
  }

  /** Every turn of the imperative reconnect loop is a run of the transition system: it ends with the same
      result, or goes on to the next attempt with the same wait and the same waits so far. */
  lemma {:induction false} TurnIsSteps(cfg: Config, s: Runner, a: RunnerLoops.Attempt) returns (t: Runner)
    requires s.pc == Returned(Some(a.error)) && s.context == a.context && BackoffOk(s) && Possible(a)
    ensures Leads(cfg, s, TurnSteps(a, s.backoff), t) && TurnResult(s, t, a)
  {
    OneTurnEffect(a, |s.waits|);
    WaitIsPositive(|s.waits|);
    DoubledWait(|s.waits|);
    if AfterReturn(Some(a.error), a.context).Parking? {
      t := ParkedTurn(cfg, s, a);
    } else {
      ClassifiedTurn(cfg, s, a.error);
      t := Next(cfg, s, Classifies);
      LeadsOne(cfg, s, Classifies);
    }
  }

  lemma {:induction false} WaitIsPositive(k: nat)
    ensures Wait(k) > 0 && Wait(0) == 1
  {
    Pow2IsPositive(k);
  }

  lemma {:induction false} Pow2IsPositive(k: nat)
    ensures Pow2(k) > 0
  {
    if k > 0 {
      Pow2IsPositive(k - 1);
    }
  }
}
