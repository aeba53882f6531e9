/** Invariants of the runner over every interleaving: reconnect signals, status, cancellation, backoff,
    frame order, heartbeat bookkeeping, token and identity. Each is proved step by step and then for
    whole runs. */
module RunnerSafety {
  import opened Text
  import opened StateCodec
  import opened StateModel
  import opened Heartbeat
  import opened Session
  import opened RunnerModel
  import StoreHistory

  // ---------------------------------------------------------------- the register

  /** Identity and token of the register carry no surrounding white space; true of every normalised state. */
  predicate RegisterTrimmed(r: Register) {
    r.Holds? ==> Trim(r.state.runtimeId) == r.state.runtimeId && Trim(r.state.runtimeToken) == r.state.runtimeToken
  }

  /** The updates of the connection loop. */
  predicate LoopMutation(m: Mutation) {
    m.EnsureIdentity? || m.RecordError? || m.RecordReject? || m.RecordHello?
  }

  /** A normalised result, field by field. */
  lemma {:induction false} MutatedFields(m: Mutation, s: State)
    requires Mutated(m, s).Some?
    ensures var t := Mutated(m, s).value;
            && Trim(t.runtimeId) == t.runtimeId && Trim(t.runtimeToken) == t.runtimeToken
            && (Trim(s.runtimeId) != "" ==> t.runtimeId == Trim(s.runtimeId))
            && (LoopMutation(m) ==> t.runtimeToken == Trim(s.runtimeToken))
            && (m.EnsureIdentity? ==> t.runtimeId != "")
  {
    MutateFields(m, s);
    NormalFields(Mutate(m, s).value);
  }

  /** What any update in the program does to the register. */
  lemma {:induction false} UpdateFacts(r: Register, m: Mutation, c: StoreChoice)
    requires RegisterTrimmed(r)
    ensures var u := UpdateRegister(r, m, c);
            && RegisterTrimmed(u.register)
            && StoreHistory.SameIdentity(r, u.register)
            && (u.result.Some? ==> u.register == Holds(u.result.value) && u.committed)
            && (!u.committed ==> u.register == r)
            && (LoopMutation(m) ==> Token(u.register) == Token(r))
            && (u.result.Some? && m.EnsureIdentity? ==> u.result.value.runtimeId != "")
  {
    if r.Holds? {
      var changed := Mutated(m, r.state);
      if changed.Some? {
        MutatedFields(m, r.state);
      }
    }
  }

  /** What a step's store update means for the rest of the state. */
  ghost predicate UpdateOk(s: Runner, u: Stored, step: Step) {
    && RegisterTrimmed(u.register)
    && StoreHistory.SameIdentity(s.register, u.register)
    && (u.result.Some? ==> u.register == Holds(u.result.value) && u.committed)
    && (!u.committed ==> u.register == s.register)
    && (!step.TokenCommand? ==> Token(u.register) == Token(s.register))
  }

  lemma {:induction false} StoreStepOk(cfg: Config, s: Runner, step: Step)
    requires Enabled(s, step) && RegisterTrimmed(s.register)
    ensures UpdateOk(s, StoreStep(cfg, s, step), step)
  {
    var action := StoreAction(cfg, s, step);
    if action.Some? {
      assert !step.TokenCommand? ==> LoopMutation(action.value.0);
      UpdateFacts(s.register, action.value.0, action.value.1);
    }
  }

  // ---------------------------------------------------------------- reconnect signals

  /** The running attempt has loaded its state and can still use the connection made with it. */
  predicate Attached(pc: Pc) {
    || pc.Dial? || pc.Dialing? || pc.SendConnect? || pc.AwaitReply? || pc.Rejecting? || pc.Greeting?
    || pc.GoingOnline? || InSession(pc) || pc.Recording? || pc.MarkingBackoff?
  }

  /** The one-slot channel is full, or a thread is between its `Update` and its signal. */
  ghost predicate SignalPending(s: Runner) {
    s.signal || exists t :: t in s.control && s.control[t].Signalling?
  }

  ghost predicate SignalsOk(s: Runner) {
    && s.loadedVersion <= s.tokenVersion && s.consumedVersion <= s.tokenVersion
    && s.announcedVersion <= s.tokenVersion && s.silentVersion <= s.tokenVersion
    && (s.tokenVersion == s.announcedVersion || s.tokenVersion == s.silentVersion)
    && (Attached(s.pc) ==>
          && (s.loadedVersion < s.announcedVersion ==> SignalPending(s))
          && s.consumedVersion <= s.loadedVersion
          && (s.loadedVersion == s.tokenVersion ==> s.loadedToken == Token(s.register)))
  }

  // ---------------------------------------------------------------- status

  /** Between going online and the status change that ends the connected phase. */
  predicate ConnectedPhase(pc: Pc) {
    InSession(pc) || pc.Reconnecting? || (pc.Recording? && pc.inSession) || (pc.MarkingBackoff? && pc.inSession)
  }

  predicate StatusOk(s: Runner) {
    && (s.online <==> s.stateName.Connected?)
    && (s.online ==> ConnectedPhase(s.pc) || s.context.Ended?)
    && (ConnectedPhase(s.pc) ==> s.online || s.shutdownRequested)
  }

  // ---------------------------------------------------------------- cancellation

  predicate CancelOk(s: Runner) {
    && (s.context.Ended? ==> s.context.reason.Canceled? || s.context.reason.DeadlineExceeded?)
    && (s.pc.Returned? ==> s.pc.result.Some?)
    && (s.pc.Exited? ==> s.pc.result == Some(Canceled) || (s.context.Ended? && s.pc.result == Some(s.context.reason)))
    && (s.context.Live? ==> s.dialsAfterEnd == 0)
    && (s.pc.Announce? || s.pc.Ensure? || s.pc.Dial? || s.pc.Parking? || s.pc.Sleeping? ==> s.dialsAfterEnd == 0)
    && s.dialsAfterEnd <= 1
  }

  // ---------------------------------------------------------------- backoff

  function Pow2(k: nat): nat {
    if k == 0 then 1 else 2 * Pow2(k - 1)
  }

  /** The closed form of the wait after `k` timed waits, in seconds. */
  function Wait(k: nat): nat {
    if Pow2(k) < 30 then Pow2(k) else 30
  }

  predicate BackoffOk(s: Runner) {
    && s.backoff == Wait(|s.waits|)
    && forall k :: 0 <= k < |s.waits| ==> s.waits[k] == Wait(k)
  }

  lemma {:induction false} DoubledWait(k: nat)
    ensures Doubled(Wait(k)) == Wait(k + 1)
  {
    assert Pow2(k + 1) == 2 * Pow2(k);
  }

  // ---------------------------------------------------------------- the session

  predicate SessionOk(cfg: Config, s: Runner) {
    InSession(s.pc) ==>
      && InOrder(s.link) && Bookkeeping(s.link, s.now)
      && 0 < s.link.probe == Probe(cfg.heartbeatSeconds, s.link.tickMs)
      && s.link.ack == Ack(cfg.heartbeatSeconds, s.link.tickMs)
      && AnsweredUpTo(s.link, if s.pc.Handling? then 1 else 0)
      && (s.pc.Beating? ==> !s.link.awaitingPong)
      && (s.pc.Handling? ==> s.link.processed[|s.link.processed| - 1] == s.pc.frame && s.pc.frame.kind.Request?)
  }

  ghost predicate Invariant(cfg: Config, s: Runner) {
    RegisterTrimmed(s.register) && SignalsOk(s) && StatusOk(s) && CancelOk(s) && BackoffOk(s) && SessionOk(cfg, s)
  }

  // ---------------------------------------------------------------- steps of the connection loop

  /** Neither the signal nor the attempt's view of the token changes, and no attempt begins. */
  predicate KeepsAttempt(s: Runner, s': Runner) {
    && s'.control == s.control && s'.signal == s.signal
    && s'.tokenVersion == s.tokenVersion && s'.announcedVersion == s.announcedVersion
    && s'.silentVersion == s.silentVersion && s'.consumedVersion == s.consumedVersion
    && s'.loadedVersion == s.loadedVersion && s'.loadedToken == s.loadedToken
    && Token(s'.register) == Token(s.register)
    && (Attached(s'.pc) ==> Attached(s.pc))
  }

  lemma {:induction false} KeptAttemptSignals(s: Runner, s': Runner)
    requires SignalsOk(s) && KeepsAttempt(s, s')
    ensures SignalsOk(s')
  {
  }

  /** The steps of `runOnce` before its session. */
  predicate Connecting(step: Step) {
    || step.Announces? || step.Ensures? || step.DialBegins? || step.DialEnds? || step.ConnectSent?
    || step.Replied? || step.RejectRecorded? || step.HelloRecorded? || step.GoesOnline?
  }

  lemma {:induction false} ConnectingKeepsAttempt(cfg: Config, s: Runner, u: Stored, step: Step)
    requires LoopEnabled(s, step) && Connecting(step) && !step.Ensures? && Token(u.register) == Token(s.register)
    ensures KeepsAttempt(s, NextConnect(cfg, s, u, step))
  {
  }

  lemma {:induction false} EndingKeepsAttempt(cfg: Config, s: Runner, u: Stored, step: Step)
    requires LoopEnabled(s, step) && !IsSelect(step) && !Connecting(step) && !step.SleepSignal?
    requires Token(u.register) == Token(s.register)
    ensures KeepsAttempt(s, NextConnect(cfg, s, u, step))
  {
  }

  lemma {:induction false} EnsureKeepsSignals(cfg: Config, s: Runner, u: Stored, step: Step)
    requires LoopEnabled(s, step) && step.Ensures? && UpdateOk(s, u, step) && SignalsOk(s)
    ensures SignalsOk(NextConnect(cfg, s, u, step))
  {
  }

  lemma {:induction false} ConnectKeepsSignals(cfg: Config, s: Runner, u: Stored, step: Step)
    requires LoopEnabled(s, step) && !IsSelect(step) && UpdateOk(s, u, step) && SignalsOk(s)
    ensures SignalsOk(NextConnect(cfg, s, u, step))
  {
    if step.Ensures? {
      EnsureKeepsSignals(cfg, s, u, step);
    } else if !step.SleepSignal? {
      if Connecting(step) {
        ConnectingKeepsAttempt(cfg, s, u, step);
      } else {
        EndingKeepsAttempt(cfg, s, u, step);
      }
      KeptAttemptSignals(s, NextConnect(cfg, s, u, step));
    }
  }

  lemma {:induction false} ConnectKeepsStatus(cfg: Config, s: Runner, u: Stored, step: Step)
    requires LoopEnabled(s, step) && !IsSelect(step) && StatusOk(s)
    ensures StatusOk(NextConnect(cfg, s, u, step))
  {
  }

  lemma {:induction false} ConnectKeepsCancel(cfg: Config, s: Runner, u: Stored, step: Step)
    requires LoopEnabled(s, step) && !IsSelect(step) && CancelOk(s)
    ensures CancelOk(NextConnect(cfg, s, u, step))
  {
    if Connecting(step) {
      ConnectingKeepsCancel(cfg, s, u, step);
    } else {
      EndingKeepsCancel(cfg, s, u, step);
    }
  }

  lemma {:induction false} ConnectingKeepsCancel(cfg: Config, s: Runner, u: Stored, step: Step)
    requires LoopEnabled(s, step) && Connecting(step) && CancelOk(s)
    ensures CancelOk(NextConnect(cfg, s, u, step))
  {
  }

  lemma {:induction false} EndingKeepsCancel(cfg: Config, s: Runner, u: Stored, step: Step)
    requires LoopEnabled(s, step) && !IsSelect(step) && !Connecting(step) && CancelOk(s)
    ensures CancelOk(NextConnect(cfg, s, u, step))
  {
  }

  lemma {:induction false} ConnectKeepsBackoff(cfg: Config, s: Runner, u: Stored, step: Step)
    requires LoopEnabled(s, step) && !IsSelect(step) && BackoffOk(s)
    ensures BackoffOk(NextConnect(cfg, s, u, step))
  {
    DoubledWait(|s.waits|);
  }

  lemma {:induction false} ConnectKeepsSession(cfg: Config, s: Runner, u: Stored, step: Step)
    requires LoopEnabled(s, step) && !IsSelect(step)
    ensures SessionOk(cfg, NextConnect(cfg, s, u, step))
  {
    if step.GoesOnline? {
      DurationsBounded(cfg.heartbeatSeconds, s.pc.tickMs);
      var l := NextConnect(cfg, s, u, step).link;
      assert l.processed[..0] == [] && l.responses == [];
    }
  }

  lemma {:induction false} ConnectRegister(cfg: Config, s: Runner, u: Stored, step: Step)
    requires LoopEnabled(s, step) && !IsSelect(step)
    ensures NextConnect(cfg, s, u, step).register == s.register || NextConnect(cfg, s, u, step).register == u.register
  {
  }

  lemma {:induction false} ConnectKeepsInvariant(cfg: Config, s: Runner, u: Stored, step: Step)
    requires LoopEnabled(s, step) && !IsSelect(step) && UpdateOk(s, u, step) && Invariant(cfg, s)
    ensures Invariant(cfg, NextConnect(cfg, s, u, step))
  {
    ConnectRegister(cfg, s, u, step);
    ConnectKeepsSignals(cfg, s, u, step);
    ConnectKeepsStatus(cfg, s, u, step);
    ConnectKeepsCancel(cfg, s, u, step);
    ConnectKeepsBackoff(cfg, s, u, step);
    ConnectKeepsSession(cfg, s, u, step);
  }

  // ---------------------------------------------------------------- steps of the select loop

  /** The arms keep the session's own invariants. */
  lemma {:induction false} FrameKeepsSession(l: Link, now: int)
    requires InOrder(l) && Bookkeeping(l, now) && AnsweredUpTo(l, 0) && l.reader.Holding?
    ensures var l' := TakeFrame(l, now);
            && InOrder(l') && Bookkeeping(l', now)
            && AnsweredUpTo(l', if l.reader.frame.kind.Request? then 1 else 0)
  {
    var l' := TakeFrame(l, now);
    assert l'.processed[..|l'.processed|] == l'.processed;
    assert l'.processed[..|l'.processed| - 1] == l.processed == l.processed[..|l.processed|];
    RequestIdsExtend(l.processed, l.reader.frame);
  }

  lemma {:induction false} AnswerKeepsSession(l: Link, f: Frame, r: Response)
    requires AnsweredUpTo(l, 1) && l.processed[|l.processed| - 1] == f && f.kind.Request? && r.id == f.id
    ensures AnsweredUpTo(Answered(l, r), 0)
  {
    var l' := Answered(l, r);
    var before := l.processed[..|l.processed| - 1];
    assert l.processed == before + [f] && l'.processed[..|l'.processed|] == l.processed;
    RequestIdsExtend(before, f);
    assert ResponseIds(l'.responses) == ResponseIds(l.responses) + [r.id];
  }

  lemma {:induction false} SelectFrameKeepsSession(cfg: Config, s: Runner)
    requires LoopEnabled(s, SelectFrame) && SessionOk(cfg, s)
    ensures SessionOk(cfg, NextSelect(cfg, s, SelectFrame))
  {
    FrameKeepsSession(s.link, s.now);
  }

  lemma {:induction false} RequestHandledKeepsSession(cfg: Config, s: Runner, step: Step)
    requires LoopEnabled(s, step) && step.RequestHandled? && SessionOk(cfg, s)
    ensures SessionOk(cfg, NextSelect(cfg, s, step))
  {
    AnswerKeepsSession(s.link, s.pc.frame, Respond(s.pc.frame, cfg.hasComponent, step.dispatch));
  }

  lemma {:induction false} TimersKeepSession(l: Link, now: int)
    requires InOrder(l) && Bookkeeping(l, now) && AnsweredUpTo(l, 0)
    ensures InOrder(TakeTick(l)) && Bookkeeping(TakeTick(l), now) && AnsweredUpTo(TakeTick(l), 0)
    ensures !l.awaitingPong ==>
              var l' := Session.BeatSent(l, now); InOrder(l') && Bookkeeping(l', now) && AnsweredUpTo(l', 0)
  {
  }

  lemma {:induction false} BeatKeepsSession(cfg: Config, s: Runner, step: Step)
    requires LoopEnabled(s, step) && (step.SelectTick? || step.BeatWritten? || step.SelectPong?) && SessionOk(cfg, s)
    ensures SessionOk(cfg, NextSelect(cfg, s, step))
  {
    TimersKeepSession(s.link, s.now);
  }

  lemma {:induction false} LeavingSelect(cfg: Config, s: Runner, step: Step)
    requires LoopEnabled(s, step) && (step.SelectEnd? || step.SelectSignal? || step.SelectReadError?)
    ensures !InSession(NextSelect(cfg, s, step).pc)
  {
  }

  lemma {:induction false} SelectKeepsSession(cfg: Config, s: Runner, step: Step)
    requires LoopEnabled(s, step) && IsSelect(step) && SessionOk(cfg, s)
    ensures SessionOk(cfg, NextSelect(cfg, s, step))
  {
    if step.SelectFrame? {
      SelectFrameKeepsSession(cfg, s);
    } else if step.RequestHandled? {
      RequestHandledKeepsSession(cfg, s, step);
    } else if step.SelectTick? || step.BeatWritten? || step.SelectPong? {
      BeatKeepsSession(cfg, s, step);
    } else {
      LeavingSelect(cfg, s, step);
    }
  }

  /** No arm but the reconnect signal's touches the attempt, and that one ends it. */
  lemma {:induction false} SelectKeepsAttempt(cfg: Config, s: Runner, step: Step)
    requires LoopEnabled(s, step) && IsSelect(step)
    ensures !step.SelectSignal? ==> KeepsAttempt(s, NextSelect(cfg, s, step))
    ensures step.SelectSignal? ==> !Attached(NextSelect(cfg, s, step).pc)
  {
  }

  lemma {:induction false} SignalTaken(cfg: Config, s: Runner)
    requires LoopEnabled(s, SelectSignal) && SignalsOk(s)
    ensures SignalsOk(NextSelect(cfg, s, SelectSignal))
  {
  }

  lemma {:induction false} SelectKeepsSignals(cfg: Config, s: Runner, step: Step)
    requires LoopEnabled(s, step) && IsSelect(step) && SignalsOk(s)
    ensures SignalsOk(NextSelect(cfg, s, step))
  {
    if step.SelectSignal? {
      SignalTaken(cfg, s);
    } else {
      SelectKeepsAttempt(cfg, s, step);
      KeptAttemptSignals(s, NextSelect(cfg, s, step));
    }
  }

  lemma {:induction false} SelectKeepsOthers(cfg: Config, s: Runner, step: Step)
    requires LoopEnabled(s, step) && IsSelect(step) && StatusOk(s) && CancelOk(s)
    ensures var s' := NextSelect(cfg, s, step);
            && StatusOk(s') && CancelOk(s')
            && s'.register == s.register && s'.backoff == s.backoff && s'.waits == s.waits
  {
  }

  // ---------------------------------------------------------------- the world and the control threads

  lemma {:induction false} WorldKeepsAttempt(s: Runner, step: Step)
    requires WorldEnabled(s, step)
    ensures KeepsAttempt(s, NextWorld(s, step))
    ensures var s' := NextWorld(s, step);
            && s'.register == s.register && s'.pc == s.pc && s'.backoff == s.backoff && s'.waits == s.waits
  {
  }

  lemma {:induction false} WorldKeepsStatus(s: Runner, step: Step)
    requires WorldEnabled(s, step) && StatusOk(s) && CancelOk(s)
    ensures StatusOk(NextWorld(s, step)) && CancelOk(NextWorld(s, step))
  {
  }

  lemma {:induction false} WorldKeepsLink(s: Runner, step: Step)
    requires WorldEnabled(s, step) && InSession(s.pc) && InOrder(s.link) && Bookkeeping(s.link, s.now)
    ensures var s' := NextWorld(s, step);
            && InOrder(s'.link) && Bookkeeping(s'.link, s'.now)
            && s'.link.probe == s.link.probe && s'.link.ack == s.link.ack && s'.link.tickMs == s.link.tickMs
            && s'.link.processed == s.link.processed && s'.link.responses == s.link.responses
            && s'.link.awaitingPong == s.link.awaitingPong
  {
  }

  lemma {:induction false} WorldKeepsSession(cfg: Config, s: Runner, step: Step)
    requires WorldEnabled(s, step) && SessionOk(cfg, s)
    ensures SessionOk(cfg, NextWorld(s, step))
  {
    WorldKeepsAttempt(s, step);
    if InSession(s.pc) {
      WorldKeepsLink(s, step);
    }
  }

  lemma {:induction false} WorldKeepsInvariant(cfg: Config, s: Runner, step: Step)
    requires WorldEnabled(s, step) && Invariant(cfg, s)
    ensures Invariant(cfg, NextWorld(s, step))
  {
    WorldKeepsAttempt(s, step);
    KeptAttemptSignals(s, NextWorld(s, step));
    WorldKeepsStatus(s, step);
    WorldKeepsSession(cfg, s, step);
  }

  lemma {:induction false} ControlKeepsSignals(s: Runner, u: Stored, step: Step)
    requires ControlEnabled(s, step) && UpdateOk(s, u, step) && SignalsOk(s)
    ensures SignalsOk(NextControl(s, u, step))
  {
    var s' := NextControl(s, u, step);
    if SignalPending(s) && !s'.signal {
      var t :| t in s.control && s.control[t].Signalling?;
      assert t in s'.control && s'.control[t].Signalling?;
    }
    if step.TokenCommand? && u.result.Some? {
      assert step.thread in s'.control && s'.control[step.thread].Signalling?;
    }
  }

  lemma {:induction false} ControlKeepsStatus(s: Runner, u: Stored, step: Step)
    requires ControlEnabled(s, step) && StatusOk(s)
    ensures StatusOk(NextControl(s, u, step))
  {
  }

  lemma {:induction false} ControlKeepsCancel(s: Runner, u: Stored, step: Step)
    requires ControlEnabled(s, step) && CancelOk(s)
    ensures CancelOk(NextControl(s, u, step))
  {
  }

  lemma {:induction false} ControlKeepsLoop(s: Runner, u: Stored, step: Step)
    requires ControlEnabled(s, step)
    ensures var s' := NextControl(s, u, step);
            s'.link == s.link && s'.pc == s.pc && s'.now == s.now && s'.backoff == s.backoff && s'.waits == s.waits
  {
  }

  lemma {:induction false} ControlKeepsOthers(cfg: Config, s: Runner, u: Stored, step: Step)
    requires ControlEnabled(s, step) && StatusOk(s) && CancelOk(s) && BackoffOk(s) && SessionOk(cfg, s)
    ensures var s' := NextControl(s, u, step);
            StatusOk(s') && CancelOk(s') && BackoffOk(s') && SessionOk(cfg, s')
  {
    ControlKeepsStatus(s, u, step);
    ControlKeepsCancel(s, u, step);
    ControlKeepsLoop(s, u, step);
  }

  // ---------------------------------------------------------------- all steps

  /** Which part of the model a step belongs to, with its store update made explicit. */
  lemma {:induction false} NextCases(cfg: Config, s: Runner, step: Step) returns (u: Stored)
    requires Enabled(s, step) && RegisterTrimmed(s.register)
    ensures UpdateOk(s, u, step)
    ensures LoopEnabled(s, step) && IsSelect(step) ==> Next(cfg, s, step) == NextSelect(cfg, s, step)
    ensures LoopEnabled(s, step) && !IsSelect(step) ==> Next(cfg, s, step) == NextConnect(cfg, s, u, step)
    ensures !LoopEnabled(s, step) && WorldEnabled(s, step) ==> Next(cfg, s, step) == NextWorld(s, step)
    ensures !LoopEnabled(s, step) && !WorldEnabled(s, step) ==>
              ControlEnabled(s, step) && Next(cfg, s, step) == NextControl(s, u, step)
  {
    StoreStepOk(cfg, s, step);
    u := StoreStep(cfg, s, step);
  }

  lemma {:induction false} OtherRegister(cfg: Config, s: Runner, u: Stored, step: Step)
    requires Enabled(s, step)
    ensures LoopEnabled(s, step) && IsSelect(step) ==> NextSelect(cfg, s, step).register == s.register
    ensures WorldEnabled(s, step) ==> NextWorld(s, step).register == s.register
    ensures ControlEnabled(s, step) ==> NextControl(s, u, step).register in {s.register, u.register}
  {
  }

  lemma {:induction false} NextRegister(cfg: Config, s: Runner, step: Step) returns (u: Stored)
    requires Enabled(s, step) && RegisterTrimmed(s.register)
    ensures UpdateOk(s, u, step)
    ensures Next(cfg, s, step).register == s.register || Next(cfg, s, step).register == u.register
  {
    u := NextCases(cfg, s, step);
    if LoopEnabled(s, step) && !IsSelect(step) {
      ConnectRegister(cfg, s, u, step);
    } else {
      OtherRegister(cfg, s, u, step);
    }
  }

  /** The connection loop's own steps never change the token, and no step replaces an identity. */
  lemma {:induction false} StepOnRegister(cfg: Config, s: Runner, step: Step)
    requires Enabled(s, step) && RegisterTrimmed(s.register)
    ensures StoreHistory.SameIdentity(s.register, Next(cfg, s, step).register)
    ensures !step.TokenCommand? ==> Token(Next(cfg, s, step).register) == Token(s.register)
  {
    var u := NextRegister(cfg, s, step);
  }

  /** Every step of every thread keeps the invariant. */
  lemma {:induction false} StepKeepsInvariant(cfg: Config, s: Runner, step: Step)
    requires Enabled(s, step) && Invariant(cfg, s)
    ensures Invariant(cfg, Next(cfg, s, step))
  {
    var u := NextCases(cfg, s, step);
    if LoopEnabled(s, step) {
      if IsSelect(step) {
        SelectKeepsSession(cfg, s, step);
        SelectKeepsSignals(cfg, s, step);
        SelectKeepsOthers(cfg, s, step);
      } else {
        ConnectKeepsInvariant(cfg, s, u, step);
      }
    } else if WorldEnabled(s, step) {
      WorldKeepsInvariant(cfg, s, step);
    } else {
      ControlKeepsSignals(s, u, step);
      ControlKeepsOthers(cfg, s, u, step);
    }
  }

  lemma {:induction false} InvariantHolds(cfg: Config, states: seq<Runner>, steps: seq<Step>, i: nat)
    requires Execution(cfg, states, steps) && i < |states|
    ensures Invariant(cfg, states[i])
  {
    if i > 0 {
      InvariantHolds(cfg, states, steps, i - 1);
      StepKeepsInvariant(cfg, states[i - 1], steps[i - 1]);
    }
  }
}
