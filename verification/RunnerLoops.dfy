/** internal/hostdrun/runner.go in its own shape: the timer helpers, the select loop of `runOnce` over
    the arms the scheduler finds ready, and the reconnect loop of `Run` over the outcomes of its
    attempts. Each is tied to the functions the transition system uses. */
module RunnerLoops {
  import opened Text
  import opened Session
  import opened RunnerModel
  import opened RunnerSafety

  /** `time.Timer` with its channel. Before Go 1.23 a fired value stays in the channel after `Stop`
      (`legacy`); since then `Stop` discards it. */
  class PongTimer {
    const legacy: bool
    var armed: bool
    var full: bool
    var deadline: int

    ghost predicate Valid()
      reads this
    {
      !(armed && full)
    }

    ghost function View(): Timer
      reads this
    {
      if armed then Armed(deadline) else if full then Fired else Stopped
    }

    constructor (legacy: bool, deadline: int)
      ensures Valid() && View() == Armed(deadline) && this.legacy == legacy
    {
      this.legacy, armed, full, this.deadline := legacy, true, false, deadline;
    }

    method Fire()
      requires Valid() && armed
      modifies this
      ensures Valid() && View() == Fired
    {
      armed, full := false, true;
    }

    /** `Timer.Stop`. */
    method Stop() returns (active: bool)
      requires Valid()
      modifies this
      ensures Valid() && !armed
      ensures active <==> old(armed) || (old(full) && !legacy)
      ensures full == (old(full) && legacy)
    {
      active := armed || (full && !legacy);
      armed := false;
      full := full && legacy;
    }

    /** The non-blocking receive in `stopTimer`. */
    method TryReceive()
      requires Valid()
      modifies this
      ensures Valid() && !full && armed == old(armed) && deadline == old(deadline)
    {
      full := false;
    }

    /** The pong arm: a value is there once the deadline has passed, and is received once. */
    method Receive(now: int) returns (delivered: bool)
      requires Valid()
      modifies this
      ensures Valid()
      ensures delivered <==> old(View()).Fired? || (old(View()).Armed? && old(deadline) <= now)
      ensures View() == if delivered then Stopped else old(View())
    {
      if armed && deadline <= now {
        Fire();
      }
      delivered := full;
      TryReceive();
    }

    /** `stopTimer`: whatever state the timer was in, under either semantics, no value can arrive. */
    method StopTimer()
      requires Valid()
      modifies this
      ensures Valid() && View() == Stopped
    {
      var active := Stop();
      if !active {
        TryReceive();
      }
    }

    /** `resetTimer`. */
    method ResetTimer(now: int, duration: int)
      requires Valid()
      modifies this
      ensures Valid() && View() == Armed(now + duration)
    {
      StopTimer();
      armed, deadline := true, now + duration;
    }
  }

  /** A ready arm of the select statement, with what the environment supplies to it. */
  datatype Arm =
    | ContextDone(reason: Error)
    | ReconnectReady
    | TickReady(now: int, writeError: Option<Error>)
    | PongReady(now: int)
    | ReadErrorReady(error: Error)
    | FrameReady(now: int, frame: Frame, dispatch: Dispatch)

  /** One arm on the session's data: the new data, and the error `runOnce` returns if it does. */
  function ArmEffect(l: Link, hasComponent: bool, arm: Arm): (Link, Option<Error>) {
    match arm
    case ContextDone(reason) => (l, Some(reason))
    case ReconnectReady => (l, Some(ReconnectRequested))
    case TickReady(now, writeError) =>
      var taken := TakeTick(l);
      if l.awaitingPong then (taken, None)
      else if writeError.Some? then (taken, writeError)
      else (BeatSent(taken, now), None)
    case PongReady(now) =>
      if l.pong.Stopped? || (l.pong.Armed? && now < l.pong.deadline) then (l, None)
      else (TakePong(l), if l.awaitingPong then Some(AckTimeout) else None)
    case ReadErrorReady(e) => (ReadFailed(l, e), Some(e))
    case FrameReady(now, f, d) =>
      var taken := TakeFrame(FrameRead(l, f), now);
      (if f.kind.Request? then Answered(taken, Respond(f, hasComponent, d)) else taken, None)
  }

  /** The arms taken until one returns. */
  function SessionEffect(l: Link, hasComponent: bool, arms: seq<Arm>): (Link, Option<Error>)
    decreases |arms|
  {
    if arms == [] then (l, None)
    else
      var (l', exit) := ArmEffect(l, hasComponent, arms[0]);
      if exit.Some? then (l', exit) else SessionEffect(l', hasComponent, arms[1..])
  }

  /** The reader was reading before it delivered. */
  predicate Plausible(l: Link, arm: Arm) {
    arm.ReadErrorReady? || arm.FrameReady? ==> l.reader.Reading?
  }

  class SelectLoop {
    const hasComponent: bool
    const ack: int
    const pongTimer: PongTimer
    var awaitingPong: bool
    var processed: seq<Frame>
    var responses: seq<Response>
    /** The rest of the session's data: the reader, the ticker, and the history of heartbeats. */
    ghost var rest: Link

    ghost predicate Valid()
      reads this, pongTimer
    {
      && pongTimer.Valid()
      && rest.ack == ack && rest.awaitingPong == awaitingPong && rest.pong == pongTimer.View()
      && rest.processed == processed && rest.responses == responses
    }

    constructor (hasComponent: bool, legacy: bool, now: int, l: Link)
      requires l.pong == Stopped && !l.awaitingPong && l.processed == [] && l.responses == []
      ensures Valid() && rest == l && this.hasComponent == hasComponent && fresh(pongTimer)
    {
      this.hasComponent := hasComponent;
      ack := l.ack;
      awaitingPong, processed, responses, rest := false, [], [], l;
      pongTimer := new PongTimer(legacy, now + l.ack);
      new;
      pongTimer.StopTimer();
    }

    method TakeArm(arm: Arm) returns (exit: Option<Error>)
      requires Valid()
      requires Plausible(rest, arm)
      modifies this, pongTimer
      ensures Valid()
      ensures (rest, exit) == ArmEffect(old(rest), hasComponent, arm)
    {
      exit := None;
      rest := ArmEffect(rest, hasComponent, arm).0;
      match arm {
        case ContextDone(reason) =>
          exit := Some(reason);
        case ReconnectReady =>
          exit := Some(ReconnectRequested);
        case TickReady(now, writeError) =>
          if !awaitingPong {
            if writeError.Some? {
              exit := writeError;
            } else {
              awaitingPong := true;
              pongTimer.ResetTimer(now, ack);
            }
          }
        case PongReady(now) =>
          var delivered := pongTimer.Receive(now);
          if delivered && awaitingPong {
            exit := Some(AckTimeout);
          }
        case ReadErrorReady(e) =>
          exit := Some(e);
        case FrameReady(now, f, d) =>
          processed := processed + [f];
          if awaitingPong {
            awaitingPong := false;
            pongTimer.StopTimer();
          }
          if f.kind.Request? {
            responses := responses + [Respond(f, hasComponent, d)];
          }
      }
    }

    /** The `for { select { ... } }` of `runOnce` over the arms found ready. */
    method Run(arms: seq<Arm>) returns (exit: Option<Error>)
      requires Valid() && rest.reader.Reading?
      modifies this, pongTimer
      ensures Valid()
      ensures (rest, exit) == SessionEffect(old(rest), hasComponent, arms)
    {
      exit := None;
      var i := 0;
      while i < |arms| && exit.None?
        invariant i <= |arms| && Valid()
        invariant exit.None? ==> rest.reader.Reading?
        invariant SessionEffect(old(rest), hasComponent, arms) ==
                  if exit.Some? then (rest, exit) else SessionEffect(rest, hasComponent, arms[i..])
      {
        exit := TakeArm(arms[i]);
        assert arms[i..][1..] == arms[i + 1..];
        i := i + 1;
      }
    }
  }

  function FramesOf(arms: seq<Arm>): seq<Frame> {
    if arms == [] then []
    else (if arms[0].FrameReady? then [arms[0].frame] else []) + FramesOf(arms[1..])
  }

  lemma {:induction false} TakingKeepsAnswers(l: Link, now: int, f: Frame)
    requires AnsweredUpTo(l, 0)
    ensures var taken := TakeFrame(FrameRead(l, f), now);
            && taken.processed == l.processed + [f] && taken.responses == l.responses
            && AnsweredUpTo(taken, if f.kind.Request? then 1 else 0)
  {
    var taken := TakeFrame(FrameRead(l, f), now);
    assert l.processed[..|l.processed|] == l.processed;
    assert taken.processed[..|taken.processed|] == taken.processed;
    assert taken.processed[..|l.processed|] == l.processed;
    RequestIdsExtend(l.processed, f);
  }

  lemma {:induction false} ArmKeepsAnswers(l: Link, hasComponent: bool, arm: Arm)
    requires AnsweredUpTo(l, 0)
    ensures AnsweredUpTo(ArmEffect(l, hasComponent, arm).0, 0)
    ensures ArmEffect(l, hasComponent, arm).0.processed
         == l.processed + if arm.FrameReady? then [arm.frame] else []
  {
    if arm.FrameReady? {
      TakingKeepsAnswers(l, arm.now, arm.frame);
      if arm.frame.kind.Request? {
        var taken := TakeFrame(FrameRead(l, arm.frame), arm.now);
        AnswerKeepsSession(taken, arm.frame, Respond(arm.frame, hasComponent, arm.dispatch));
      }
    }
  }

  /** A session that never returns has processed exactly the frames handed to it, in order, and has
      attempted exactly one answer per request among them, in order. */
  lemma {:induction false} SessionAnswersEverything(l: Link, hasComponent: bool, arms: seq<Arm>)
    requires AnsweredUpTo(l, 0) && SessionEffect(l, hasComponent, arms).1.None?
    ensures var l' := SessionEffect(l, hasComponent, arms).0;
            && l'.processed == l.processed + FramesOf(arms)
            && ResponseIds(l'.responses) == RequestIds(l'.processed)
    decreases |arms|
  {
    if arms == [] {
      assert l.processed[..|l.processed|] == l.processed;
    } else {
      var first := if arms[0].FrameReady? then [arms[0].frame] else [];
      var next := ArmEffect(l, hasComponent, arms[0]).0;
      ArmKeepsAnswers(l, hasComponent, arms[0]);
      assert next.processed == l.processed + first;
      SessionAnswersEverything(next, hasComponent, arms[1..]);
      assert (l.processed + first) + FramesOf(arms[1..]) == l.processed + (first + FramesOf(arms[1..]));
    }
  }

  // ---------------------------------------------------------------- the reconnect loop

  /** What ends the `select` after a failed attempt. */
  datatype Wakeup = ByContext | BySignal | ByTimer

  /** One iteration of `Run`: the error of `runOnce`, the context seen after it, and the wake-up. */
  datatype Attempt = Attempt(error: Error, context: Context, wakeup: Wakeup, reason: Error)

  /** The timed waits of the loop from `k` waits on, and the error it returns if it does. */
  function RunEffect(attempts: seq<Attempt>, k: nat): (seq<nat>, Option<Error>)
    decreases |attempts|
  {
    if attempts == [] then ([], None)
    else
      var a := attempts[0];
      match AfterReturn(Some(a.error), a.context)
      case Exited(result) => ([], result)
      case Announce => RunEffect(attempts[1..], 0)
      case _ =>
        match a.wakeup
        case ByContext => ([], Some(a.reason))
        case BySignal => RunEffect(attempts[1..], 0)
        case ByTimer =>
          var (waits, exit) := RunEffect(attempts[1..], k + 1);
          ([Wait(k)] + waits, exit)
  }

  /** `Run`'s loop with its `backoff` variable: the waits it makes are those of the closed form. */
  method RunLoop(attempts: seq<Attempt>) returns (waits: seq<nat>, exit: Option<Error>)
    ensures (waits, exit) == RunEffect(attempts, 0)
  {
    var backoff := 1;
    waits, exit := [], None;
    ghost var k := 0;
    assert attempts[0..] == attempts && [] + RunEffect(attempts, 0).0 == RunEffect(attempts, 0).0;
    for i := 0 to |attempts|
      invariant backoff == Wait(k) && exit.None?
      invariant RunEffect(attempts, 0) ==
                (waits + RunEffect(attempts[i..], k).0, RunEffect(attempts[i..], k).1)
    {
      var a := attempts[i];
      assert attempts[i..][1..] == attempts[i + 1..];
      if a.error.Canceled? {
        assert waits + [] == waits;
        return waits, Some(a.error);
      }
      if a.context.Ended? {
        assert waits + [] == waits;
        return waits, ContextError(a.context);
      }
      if a.error.ReconnectRequested? {
        backoff := 1;
        k := 0;
        continue;
      }
      match a.wakeup {
        case ByContext =>
          assert waits + [] == waits;
          return waits, Some(a.reason);
        case BySignal =>
          backoff := 1;
          k := 0;
        case ByTimer =>
          ghost var later := RunEffect(attempts[i + 1..], k + 1).0;
          assert waits + ([Wait(k)] + later) == (waits + [Wait(k)]) + later;
          waits := waits + [backoff];
          DoubledWait(k);
          k := k + 1;
          if backoff < 30 {
            backoff := backoff * 2;
            if backoff > 30 {
              backoff := 30;
            }
          }
      }
    }
    assert attempts[|attempts|..] == [];
    assert waits + [] == waits;
  }
}
