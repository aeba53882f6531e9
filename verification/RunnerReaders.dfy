/** The reader goroutines of internal/hostdrun/runner.go beyond their sessions. Each session starts one, and
    nothing stops it: it ends only when a read fails. While the session runs, its frames are taken from the
    unbuffered channel; once the session is over nobody takes them any more. */
module RunnerReaders {
  import opened Text
  import opened StateCodec
  import opened StateModel
  import opened Heartbeat
  import opened Session
  import opened RunnerModel
  import opened RunnerSafety
  import opened RunnerTheorems
  import opened RunnerRuns

  /** The runner, and what the finished sessions left behind, oldest first. */
  datatype World = World(runner: Runner, past: seq<Link>)

  /** A step of the runner, or a finished session's reader getting one more frame, or an error. */
  datatype Happening = Acts(step: Step) | LateFrame(session: nat, frame: Frame) | LateError(session: nat, cause: Error)

  predicate CanHappen(w: World, e: Happening) {
    match e
    case Acts(step) => Enabled(w.runner, step)
    case LateFrame(k, _) => k < |w.past| && w.past[k].reader.Reading?
    case LateError(k, _) => k < |w.past| && w.past[k].reader.Reading?
  }

  predicate EndsSession(s: Runner, t: Runner) {
    InSession(s.pc) && !InSession(t.pc)
  }

  function Happen(cfg: Config, w: World, e: Happening): World
    requires CanHappen(w, e)
  {
    match e
    case Acts(step) =>
      var t := Next(cfg, w.runner, step);
      World(t, if EndsSession(w.runner, t) then w.past + [t.link] else w.past)
    case LateFrame(k, f) => w.(past := w.past[k := FrameRead(w.past[k], f)])
    case LateError(k, cause) => w.(past := w.past[k := ReadFailed(w.past[k], cause)])
  }

  /** The session is over and its reader blocked for ever, with a frame that nobody will take. */
  predicate Leaked(l: Link) {
    l.reader.Holding?
  }

  // ---------------------------------------------------------------- whole runs

  ghost predicate WorldExecution(cfg: Config, worlds: seq<World>, events: seq<Happening>) {
    && |worlds| == |events| + 1
    && Initial(worlds[0].runner) && worlds[0].past == []
    && forall i :: 0 <= i < |events| ==>
         CanHappen(worlds[i], events[i]) && worlds[i + 1] == Happen(cfg, worlds[i], events[i])
  }

  ghost predicate WorldInvariant(cfg: Config, w: World) {
    Invariant(cfg, w.runner) && forall l <- w.past :: InOrder(l)
  }

  lemma {:induction false} OnlySelectLeaves(s: Runner, u: Stored, step: Step)
    requires InSession(s.pc)
    ensures LoopEnabled(s, step) ==> IsSelect(step)
    ensures WorldEnabled(s, step) ==> NextWorld(s, step).pc == s.pc
    ensures ControlEnabled(s, step) ==> NextControl(s, u, step).pc == s.pc
  {
  }

  lemma {:induction false} LeavingKeepsReader(cfg: Config, s: Runner, step: Step)
    requires LoopEnabled(s, step) && IsSelect(step) && EndsSession(s, NextSelect(cfg, s, step))
    ensures var l, l' := s.link, NextSelect(cfg, s, step).link;
            l'.reader == l.reader && l'.readError == l.readError && l'.read == l.read && l'.processed == l.processed
  {
  }

  /** The step that ends a session takes nothing from the reader. */
  lemma {:induction false} ExitKeepsReader(cfg: Config, s: Runner, step: Step)
    requires Enabled(s, step) && EndsSession(s, Next(cfg, s, step))
    ensures LoopEnabled(s, step) && IsSelect(step) && Next(cfg, s, step) == NextSelect(cfg, s, step)
    ensures var l, l' := s.link, Next(cfg, s, step).link;
            l'.reader == l.reader && l'.readError == l.readError && l'.read == l.read && l'.processed == l.processed
  {
    OnlySelectLeaves(s, StoreStep(cfg, s, step), step);
    LeavingKeepsReader(cfg, s, step);
  }

  lemma {:induction false} LateKeepsOrder(l: Link, f: Frame, cause: Error)
    requires InOrder(l) && l.reader.Reading?
    ensures InOrder(FrameRead(l, f)) && InOrder(ReadFailed(l, cause))
  {
    assert l.processed + [] == l.processed;
  }

  lemma {:induction false} HappeningKeepsInvariant(cfg: Config, w: World, e: Happening)
    requires WorldInvariant(cfg, w) && CanHappen(w, e)
    ensures WorldInvariant(cfg, Happen(cfg, w, e))
  {
    match e
    case Acts(step) =>
      StepKeepsInvariant(cfg, w.runner, step);
      if EndsSession(w.runner, Next(cfg, w.runner, step)) {
        ExitKeepsReader(cfg, w.runner, step);
      }
    case LateFrame(k, f) => LateKeepsOrder(w.past[k], f, Canceled);
    case LateError(k, cause) => LateKeepsOrder(w.past[k], Frame(Event, "", ""), cause);
  }

  lemma {:induction false} WorldInvariantHolds(cfg: Config, worlds: seq<World>, events: seq<Happening>, i: nat)
    requires WorldExecution(cfg, worlds, events) && i < |worlds|
    ensures WorldInvariant(cfg, worlds[i])
  {
    if i == 0 {
      InitialInvariant(cfg, worlds[0].runner);
    } else {
      WorldInvariantHolds(cfg, worlds, events, i - 1);
      HappeningKeepsInvariant(cfg, worlds[i - 1], events[i - 1]);
    }
  }

  // ---------------------------------------------------------------- how many are blocked

  function Blocked(past: seq<Link>): nat {
    if past == [] then 0 else Blocked(past[..|past| - 1]) + if Leaked(past[|past| - 1]) then 1 else 0
  }

  /** Frames read by the readers of these sessions, and frames their sessions processed. */
  function FramesRead(past: seq<Link>): nat {
    if past == [] then 0 else FramesRead(past[..|past| - 1]) + |past[|past| - 1].read|
  }

  function FramesProcessed(past: seq<Link>): nat {
    if past == [] then 0 else FramesProcessed(past[..|past| - 1]) + |past[|past| - 1].processed|
  }

  lemma {:induction false} UnprocessedBlock(past: seq<Link>)
    requires forall l <- past :: InOrder(l)
    ensures FramesRead(past) == FramesProcessed(past) + Blocked(past)
  {
    if past != [] {
      UnprocessedBlock(past[..|past| - 1]);
      assert InOrder(past[|past| - 1]);
    }
  }

  /** In every run, each frame that a finished session's reader got and its session did not process keeps one
      goroutine blocked, and nothing else does. */
  lemma {:induction false} ReadersAccounted(cfg: Config, worlds: seq<World>, events: seq<Happening>, i: nat)
    requires WorldExecution(cfg, worlds, events) && i < |worlds|
    ensures Blocked(worlds[i].past) == FramesRead(worlds[i].past) - FramesProcessed(worlds[i].past)
    ensures forall l <- worlds[i].past :: Leaked(l) <==> l.read != l.processed
  {
    WorldInvariantHolds(cfg, worlds, events, i);
    UnprocessedBlock(worlds[i].past);
  }

  // ---------------------------------------------------------------- which sessions leak

  /** The reader of session `k` gets a frame when nobody will take it. */
  predicate LateFor(e: Happening, k: nat) {
    e.LateFrame? && e.session == k
  }

  lemma {:induction false} PastStep(cfg: Config, w: World, e: Happening, k: nat)
    requires CanHappen(w, e) && k < |w.past|
    ensures k < |Happen(cfg, w, e).past|
    ensures Leaked(Happen(cfg, w, e).past[k]) <==> Leaked(w.past[k]) || LateFor(e, k)
    ensures !w.past[k].reader.Reading? ==> Happen(cfg, w, e).past[k] == w.past[k]
  {
  }

  lemma {:induction false} LeaksSince(cfg: Config, worlds: seq<World>, events: seq<Happening>, k: nat, i: nat, j: nat)
    requires WorldExecution(cfg, worlds, events) && i <= j < |worlds| && k < |worlds[i].past|
    ensures k < |worlds[j].past|
    ensures Leaked(worlds[j].past[k])
       <==> Leaked(worlds[i].past[k]) || exists n: nat :: i <= n < j && LateFor(events[n], k)
    ensures !worlds[i].past[k].reader.Reading? ==> worlds[j].past[k] == worlds[i].past[k]
    decreases j - i
  {
    if i < j {
      LeaksSince(cfg, worlds, events, k, i, j - 1);
      PastStep(cfg, worlds[j - 1], events[j - 1], k);
    }
  }

  /** The `i`-th event ends a session. */
  predicate Ends(worlds: seq<World>, events: seq<Happening>, i: nat) {
    && i + 1 < |worlds| && i < |events| && events[i].Acts? && EndsSession(worlds[i].runner, worlds[i + 1].runner)
  }

  /** A finished session leaks its reader exactly when the reader held a frame as the session ended, or got one
      afterwards; and a reader that is blocked or gone stays so. */
  lemma {:induction false} LeaksExactly(cfg: Config, worlds: seq<World>, events: seq<Happening>, i: nat, j: nat)
    requires WorldExecution(cfg, worlds, events) && Ends(worlds, events, i) && i < j < |worlds|
    ensures var k := |worlds[i].past|;
            && k < |worlds[j].past|
            && (Leaked(worlds[j].past[k])
                <==> worlds[i].runner.link.reader.Holding? || exists n: nat :: i < n < j && LateFor(events[n], k))
            && (!worlds[i].runner.link.reader.Reading? ==> worlds[j].past[k] == worlds[i + 1].past[k])
  {
    var k := |worlds[i].past|;
    ExitKeepsReader(cfg, worlds[i].runner, events[i].step);
    assert worlds[i + 1].past[k] == worlds[i + 1].runner.link;
    LeaksSince(cfg, worlds, events, k, i + 1, j);
  }

  /** A session that ends because a read failed never leaks its reader. */
  lemma {:induction false} ReadErrorLeaksNone(cfg: Config, worlds: seq<World>, events: seq<Happening>, i: nat, j: nat)
    requires WorldExecution(cfg, worlds, events) && i < j < |worlds| && events[i] == Acts(SelectReadError)
    ensures var k := |worlds[i].past|;
            && k < |worlds[j].past| && worlds[j].past[k].reader.Gone?
            && worlds[j].past[k].read == worlds[j].past[k].processed
  {
    WorldInvariantHolds(cfg, worlds, events, i);
    var s := worlds[i].runner;
    assert worlds[i + 1].runner == NextSelect(cfg, s, SelectReadError);
    assert s.link.reader.Gone?;
    LeaksExactly(cfg, worlds, events, i, j);
    WorldInvariantHolds(cfg, worlds, events, j);
    assert InOrder(worlds[j].past[|worlds[i].past|]);
  }

  // ---------------------------------------------------------------- readers pile up

  /** These events can happen one after the other, and lead there. */
  ghost predicate Reaches(cfg: Config, w: World, events: seq<Happening>, t: World)
    decreases |events|
  {
    if events == [] then w == t
    else CanHappen(w, events[0]) && Reaches(cfg, Happen(cfg, w, events[0]), events[1..], t)
  }

  lemma {:induction false} ReachesJoin(cfg: Config, w: World, a: seq<Happening>, v: World, b: seq<Happening>, t: World)
    requires Reaches(cfg, w, a, v) && Reaches(cfg, v, b, t)
    ensures Reaches(cfg, w, a + b, t)
    decreases |a|
  {
    if a == [] {
      assert a + b == b;
    } else {
      assert (a + b)[1..] == a[1..] + b;
      ReachesJoin(cfg, Happen(cfg, w, a[0]), a[1..], v, b, t);
    }
  }

  predicate NoSelect(steps: seq<Step>) {
    forall step <- steps :: !IsSelect(step)
  }

  /** Steps outside the select loop, as events of the world. */
  lemma {:induction false} LeadsReaches(cfg: Config, s: Runner, steps: seq<Step>, t: Runner, past: seq<Link>)
      returns (events: seq<Happening>)
    requires Leads(cfg, s, steps, t) && NoSelect(steps)
    ensures Reaches(cfg, World(s, past), events, World(t, past))
    decreases |steps|
  {
    if steps == [] {
      events := [];
    } else {
      var next := Next(cfg, s, steps[0]);
      if EndsSession(s, next) {
        ExitKeepsReader(cfg, s, steps[0]);
        assert false;
      }
      var rest := LeadsReaches(cfg, next, steps[1..], t, past);
      events := [Acts(steps[0])] + rest;
      assert events[1..] == rest;
    }
  }

  /** The loop is about to connect again, and nothing is in its way. */
  predicate Idle(s: Runner) {
    s.pc.Announce? && Identified(s.register) && s.context.Live?
  }

  lemma {:induction false} FrameThenSignal(cfg: Config, s: Runner, f: Frame) returns (t: Runner)
    requires s.pc.Selecting? && s.link.reader.Reading?
    ensures Leads(cfg, s, [ReaderFrame(f)] + [ReconnectCommand], t)
    ensures t == s.(link := FrameRead(s.link, f), signal := true)
  {
    var a := Next(cfg, s, ReaderFrame(f));
    LeadsOne(cfg, s, ReaderFrame(f));
    t := Next(cfg, a, ReconnectCommand);
    LeadsOne(cfg, a, ReconnectCommand);
    LeadsJoin(cfg, s, [ReaderFrame(f)], a, [ReconnectCommand], t);
  }

  lemma {:induction false} MarkAndClassify(cfg: Config, s: Runner) returns (t: Runner)
    requires s.pc.Reconnecting? && Identified(s.register) && s.context.Live?
    ensures Leads(cfg, s, [ReconnectMarked] + [Classifies], t) && Idle(t)
  {
    var a := Next(cfg, s, ReconnectMarked);
    LeadsOne(cfg, s, ReconnectMarked);
    t := Next(cfg, a, Classifies);
    LeadsOne(cfg, a, Classifies);
    LeadsJoin(cfg, s, [ReconnectMarked], a, [Classifies], t);
  }

  lemma {:induction false} SignalEnds(cfg: Config, s: Runner, past: seq<Link>)
    requires s.pc.Selecting? && s.signal
    ensures var t := Next(cfg, s, SelectSignal);
            && t == NextSelect(cfg, s, SelectSignal) && t.pc.Reconnecting? && t.register == s.register
            && t.context == s.context
            && Reaches(cfg, World(s, past), [Acts(SelectSignal)], World(t, past + [s.link]))
  {
    var t := Next(cfg, s, SelectSignal);
    assert [Acts(SelectSignal)][1..] == [];
    assert Reaches(cfg, World(t, past + [s.link]), [], World(t, past + [s.link]));
  }

  /** A session whose reader holds a frame, with a reconnect signal waiting. */
  predicate AboutToLeak(s: Runner) {
    s.pc.Selecting? && s.signal && Leaked(s.link) && Identified(s.register) && s.context.Live?
  }

  lemma {:induction false} ConnectionIsNoSelect(pairing: string, tickMs: Int64, at: string)
    ensures NoSelect(FirstConnection(pairing, tickMs, at))
  {
  }

  lemma {:induction false} Connects(cfg: Config, s: Runner, past: seq<Link>)
      returns (events: seq<Happening>, t: Runner)
    requires Idle(s)
    ensures Reaches(cfg, World(s, past), events, World(t, past))
    ensures t.pc.Selecting? && t.link.reader.Reading? && Identified(t.register) && t.context.Live?
  {
    t := SessionFrom(cfg, s, "paired", 0, "");
    ConnectionIsNoSelect("paired", 0, "");
    events := LeadsReaches(cfg, s, FirstConnection("paired", 0, ""), t, past);
  }

  lemma {:induction false} HoldsAndIsSignalled(cfg: Config, s: Runner, past: seq<Link>, f: Frame)
      returns (events: seq<Happening>, t: Runner)
    requires s.pc.Selecting? && s.link.reader.Reading? && Identified(s.register) && s.context.Live?
    ensures Reaches(cfg, World(s, past), events, World(t, past)) && AboutToLeak(t)
  {
    t := FrameThenSignal(cfg, s, f);
    events := LeadsReaches(cfg, s, [ReaderFrame(f)] + [ReconnectCommand], t, past);
  }

  lemma {:induction false} ConnectsAndReads(cfg: Config, s: Runner, past: seq<Link>, f: Frame)
      returns (events: seq<Happening>, t: Runner)
    requires Idle(s)
    ensures Reaches(cfg, World(s, past), events, World(t, past)) && AboutToLeak(t)
  {
    var first, a := Connects(cfg, s, past);
    var second: seq<Happening>;
    second, t := HoldsAndIsSignalled(cfg, a, past, f);
    ReachesJoin(cfg, World(s, past), first, World(a, past), second, World(t, past));
    events := first + second;
  }

  lemma {:induction false} SignalledAway(cfg: Config, s: Runner, past: seq<Link>)
      returns (events: seq<Happening>, t: Runner)
    requires AboutToLeak(s)
    ensures Reaches(cfg, World(s, past), events, World(t, past + [s.link])) && Idle(t)
  {
    SignalEnds(cfg, s, past);
    var a := Next(cfg, s, SelectSignal);
    t := MarkAndClassify(cfg, a);
    var rest := LeadsReaches(cfg, a, [ReconnectMarked] + [Classifies], t, past + [s.link]);
    events := [Acts(SelectSignal)] + rest;
    ReachesJoin(cfg, World(s, past), [Acts(SelectSignal)], World(a, past + [s.link]), rest, World(t, past + [s.link]));
  }

  /** Once more round: connect, read a frame, reconnect before it is taken. */
  lemma {:induction false} OneMoreLeaks(cfg: Config, s: Runner, past: seq<Link>, f: Frame)
      returns (events: seq<Happening>, t: Runner, l: Link)
    requires Idle(s)
    ensures Reaches(cfg, World(s, past), events, World(t, past + [l])) && Idle(t) && Leaked(l)
  {
    var first, a := ConnectsAndReads(cfg, s, past, f);
    var second: seq<Happening>;
    second, t := SignalledAway(cfg, a, past);
    l := a.link;
    ReachesJoin(cfg, World(s, past), first, World(a, past), second, World(t, past + [l]));
    events := first + second;
  }

  /** Blocked readers pile up without bound: from every start of an identified runtime, and for every number,
      some run has that many sessions behind it, each of which leaked its reader. */
  lemma {:induction false} ReadersPileUp(cfg: Config, s: Runner, f: Frame, n: nat)
      returns (events: seq<Happening>, t: Runner, past: seq<Link>)
    requires Initial(s) && Identified(s.register)
    ensures Reaches(cfg, World(s, []), events, World(t, past)) && Idle(t)
    ensures |past| == n && forall l <- past :: Leaked(l)
  {
    if n == 0 {
      events, t, past := [], s, [];
    } else {
      var before, u, fewer := ReadersPileUp(cfg, s, f, n - 1);
      var more, v, l := OneMoreLeaks(cfg, u, fewer, f);
      ReachesJoin(cfg, World(s, []), before, World(u, fewer), more, World(v, fewer + [l]));
      events, t, past := before + more, v, fewer + [l];
    }
  }
}
