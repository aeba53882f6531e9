/** Runs that lose what they should not, and from which starts there are any. An identity returned by a
    `Load` vanishes with the power when the directory sync of the update that stored it had failed; an
    acknowledged write and a returned identity vanish when the store had to make its directory. */
module StoreLoss {
  import opened Text
  import opened StateCodec
  import opened StateModel
  import opened StateStore
  import opened StoreHistory
  import opened StoreDurability

  /** `events` can happen from `m` and end in `t`. */
  ghost predicate Happens(base: string, m: Machine, events: seq<Event>, t: Machine)
    decreases |events|
  {
    if events == [] then m == t
    else EventEnabled(m, base, events[0]) && Happens(base, NextMachine(m, base, events[0]), events[1..], t)
  }

  lemma {:induction false} HappensThen(base: string, m: Machine, events: seq<Event>, t: Machine, e: Event)
    requires Happens(base, m, events, t) && EventEnabled(t, base, e)
    ensures Happens(base, m, events + [e], NextMachine(t, base, e))
    decreases |events|
  {
    if events == [] {
      assert (events + [e])[1..] == [];
      assert Happens(base, NextMachine(m, base, e), [], NextMachine(t, base, e));
    } else {
      assert (events + [e])[1..] == events[1..] + [e];
      HappensThen(base, NextMachine(m, base, events[0]), events[1..], t, e);
    }
  }

  const A_CALLER: nat := 0
  const ANOTHER: nat := 1

  /** The update that first names the runtime. */
  ghost function Naming(id: Uuid): State -> Option<State> {
    s => Mutate(EnsureIdentity(Some(id)), s)
  }

  /** The first caller is inside the lock at `p`. */
  ghost predicate Inside(m: Machine, d: Directory, p: Phase) {
    m.system == System(d, Some(A_CALLER), map[A_CALLER := p], [])
  }

  /** The directory may still come back empty. */
  ghost predicate MayBeEmpty(m: Machine) {
    |m.recent| > 0 && m.recent[0] == map[]
  }

  /** Whether the state directory was there is not changed by anything but a loss of power. */
  ghost predicate SameHome(home: Home, m: Machine) {
    home.Kept? <==> m.home.Kept?
  }

  lemma {:induction false} OnePhase(p: Phase, p': Phase)
    ensures map[A_CALLER := p][A_CALLER := p'] == map[A_CALLER := p']
  {
  }

  lemma {:induction false} FileStep(m: Machine, base: string, d: Directory, op: Operation, goal: State, stage: Stage,
      c: Choice, d': Directory, stage': Stage)
    requires Inside(m, d, Writing(op, goal, false, stage)) && StageEnabled(stage, d, base, c)
    requires Advance(stage, d, base, Encode(Normalize(goal)), c) == (d', stage')
    ensures EventEnabled(m, base, Runs(FileCall(A_CALLER, c)))
    ensures var m' := NextMachine(m, base, Runs(FileCall(A_CALLER, c)));
            && Inside(m', d', Writing(op, goal, false, stage')) && SameHome(m.home, m')
            && m'.first == m.first && (MayBeEmpty(m) && !(stage.SyncDirectory? && c.ok) ==> MayBeEmpty(m'))
  {
    OnePhase(Writing(op, goal, false, stage), Writing(op, goal, false, stage'));
    var step := FileCall(A_CALLER, c);
    assert Next(m.system, base, step)
        == System(d', Some(A_CALLER), map[A_CALLER := Writing(op, goal, false, stage')], []);
    assert SyncsDirectory(m.system, step) <==> stage.SyncDirectory? && c.ok;
  }

  /** The system calls of a replacement in which nothing fails, except perhaps the directory sync. */
  function Calls(temp: string, synced: bool): seq<Choice> {
    [Choice(true, "", 0), Choice(true, temp, 0), Choice(true, "", 0), Choice(true, "", 0), Choice(true, "", 0),
     Choice(true, "", 0), Choice(true, "", 0), Choice(synced, "", 0)]
  }

  /** The stages they go through. */
  function Stages(temp: string, synced: bool): seq<Stage> {
    [MakeDir, Create, Chmod(temp), WriteTemp(temp), SyncTemp(temp), CloseTemp(temp), Rename(temp), SyncDirectory,
     Finished(synced, true)]
  }

  /** The directories they show. */
  function Disks(base: string, temp: string, payload: string): seq<Directory> {
    [map[], map[], map[temp := File("", false)], map[temp := File("", false)], map[temp := File(payload, false)],
     map[temp := File(payload, true)], map[temp := File(payload, true)],
     map[base := File(payload, true)], map[base := File(payload, true)]]
  }

  lemma {:induction false} CallsAdvance(base: string, temp: string, payload: string, synced: bool, k: nat)
    requires temp != base && k < 8
    ensures StageEnabled(Stages(temp, synced)[k], Disks(base, temp, payload)[k], base, Calls(temp, synced)[k])
    ensures Advance(Stages(temp, synced)[k], Disks(base, temp, payload)[k], base, payload, Calls(temp, synced)[k])
         == (Disks(base, temp, payload)[k + 1], Stages(temp, synced)[k + 1])
    ensures Stages(temp, synced)[k].SyncDirectory? && Calls(temp, synced)[k].ok ==> synced && k == 7
  {
    assert map[temp := File("", false)][temp := File(payload, false)] == map[temp := File(payload, false)];
    assert map[temp := File(payload, false)][temp := File(payload, true)] == map[temp := File(payload, true)];
    assert (map[temp := File(payload, true)] - {temp})[base := File(payload, true)] == map[base := File(payload, true)];
  }

  /** Every call made keeps identities. */
  ghost predicate AllSafeEvents(events: seq<Event>) {
    forall i :: 0 <= i < |events| ==> SafeEvent(events[i])
  }

  /** One more event that is no call. */
  lemma {:induction false} ThenSafely(base: string, start: Machine, before: seq<Event>, m: Machine, e: Event)
      returns (events: seq<Event>, t: Machine)
    requires Happens(base, start, before, m) && AllSafeEvents(before)
    requires EventEnabled(m, base, e) && (e.Runs? ==> !e.step.Call?)
    ensures events == before + [e] && t == NextMachine(m, base, e)
    ensures Happens(base, start, events, t) && AllSafeEvents(events)
  {
    HappensThen(base, start, before, m, e);
    events, t := before + [e], NextMachine(m, base, e);
    assert SafeEvent(e);
  }

  /** The first `k` of them, one after the other. */
  lemma {:induction false} CallsHappen(start: Machine, before: seq<Event>, m: Machine, base: string, temp: string,
      op: Operation, goal: State, synced: bool, k: nat) returns (events: seq<Event>, t: Machine)
    requires Happens(base, start, before, m) && Inside(m, map[], Writing(op, goal, false, MakeDir)) && MayBeEmpty(m)
    requires AllSafeEvents(before) && temp != base && k <= 8
    ensures Happens(base, start, events, t) && AllSafeEvents(events) && SameHome(m.home, t) && t.first == m.first
    ensures Inside(t, Disks(base, temp, Encode(Normalize(goal)))[k], Writing(op, goal, false, Stages(temp, synced)[k]))
    ensures k < 8 || !synced ==> MayBeEmpty(t)
  {
    if k == 0 {
      events, t := before, m;
    } else {
      var payload := Encode(Normalize(goal));
      var prefix, s := CallsHappen(start, before, m, base, temp, op, goal, synced, k - 1);
      CallsAdvance(base, temp, payload, synced, k - 1);
      var c := Calls(temp, synced)[k - 1];
      FileStep(s, base, Disks(base, temp, payload)[k - 1], op, goal, Stages(temp, synced)[k - 1], c,
               Disks(base, temp, payload)[k], Stages(temp, synced)[k]);
      events, t := ThenSafely(base, start, prefix, s, Runs(FileCall(A_CALLER, c)));
    }
  }

  /** Making the call, taking the lock and reading the missing file. */
  lemma {:induction false} CallAndRead(base: string, home: Home, op: Operation) returns (events: seq<Event>, t: Machine)
    requires op.Update? && IdentitySafe(op)
    ensures Happens(base, Boot(map[], home), events, t) && Inside(t, map[], AfterRead(op, None)) && MayBeEmpty(t)
    ensures AllSafeEvents(events) && SameHome(home, t) && t.first == map[]
  {
    var m := Boot(map[], home);
    assert Happens(base, m, [], m);
    var call, acquire, read := Runs(Call(A_CALLER, op)), Runs(Acquire(A_CALLER)), Runs(Step.Read(A_CALLER, true));
    var a := NextMachine(m, base, call);
    HappensThen(base, m, [], m, call);
    assert a.system.calls == map[A_CALLER := Waiting(op)];
    var b := NextMachine(a, base, acquire);
    HappensThen(base, m, [] + [call], a, acquire);
    assert b.system.calls == map[A_CALLER := Reading(op)];
    t := NextMachine(b, base, read);
    HappensThen(base, m, [] + [call] + [acquire], b, read);
    assert t.system.calls == map[A_CALLER := AfterRead(op, None)];
    events := [] + [call] + [acquire] + [read];
  }

  /** The outcome a finished replacement reports. */
  function Reported(goal: State, synced: bool): Outcome {
    if synced then Returned(Normalize(goal)) else Aborted(true)
  }

  lemma {:induction false} SettleStep(base: string, m: Machine, d: Directory, op: Operation, goal: State, synced: bool)
    requires Inside(m, d, Writing(op, goal, false, Finished(synced, true)))
    ensures EventEnabled(m, base, Runs(Settle(A_CALLER)))
    ensures var t := NextMachine(m, base, Runs(Settle(A_CALLER)));
            && SameHome(m.home, t) && t.recent == m.recent && t.first == m.first
            && Inside(t, d, Releasing(op, Reported(goal, synced)))
  {
    OnePhase(Writing(op, goal, false, Finished(synced, true)), Releasing(op, Reported(goal, synced)));
  }

  /** The outcome is known; the lock is still held. */
  lemma {:induction false} Reporting(base: string, start: Machine, before: seq<Event>, m: Machine, d: Directory,
      op: Operation, goal: State, synced: bool) returns (events: seq<Event>, t: Machine)
    requires Happens(base, start, before, m) && AllSafeEvents(before)
    requires Inside(m, d, Writing(op, goal, false, Finished(synced, true)))
    ensures Happens(base, start, events, t) && AllSafeEvents(events) && SameHome(m.home, t)
    ensures t.recent == m.recent && t.first == m.first
    ensures Inside(t, d, Releasing(op, Reported(goal, synced)))
  {
    SettleStep(base, m, d, op, goal, synced);
    events, t := ThenSafely(base, start, before, m, Runs(Settle(A_CALLER)));
  }

  lemma {:induction false} ReleaseStep(base: string, m: Machine, d: Directory, op: Operation, outcome: Outcome)
    requires Inside(m, d, Releasing(op, outcome))
    ensures EventEnabled(m, base, Runs(Release(A_CALLER)))
    ensures var t := NextMachine(m, base, Runs(Release(A_CALLER)));
            && SameHome(m.home, t) && t.recent == m.recent && t.first == m.first
            && t.system == System(d, None, map[], [Entry(A_CALLER, op, outcome)])
  {
    var t := NextMachine(m, base, Runs(Release(A_CALLER)));
    assert t.system.calls == map[];
  }

  /** A second caller takes the free lock to load. */
  lemma {:induction false} LoadStarts(base: string, start: Machine, before: seq<Event>, m: Machine)
      returns (events: seq<Event>, t: Machine)
    requires Happens(base, start, before, m) && m.system.owner.None? && m.system.calls == map[]
    ensures Happens(base, start, events, t) && t.recent == m.recent && SameHome(m.home, t)
    ensures t.system == System(m.system.disk, Some(ANOTHER), map[ANOTHER := Reading(Load)], m.system.history)
  {
    var call, acquire := Runs(Call(ANOTHER, Load)), Runs(Acquire(ANOTHER));
    var a := NextMachine(m, base, call);
    HappensThen(base, start, before, m, call);
    assert a.system.calls == map[ANOTHER := Waiting(Load)];
    t := NextMachine(a, base, acquire);
    HappensThen(base, start, before + [call], a, acquire);
    assert t.system.calls == map[ANOTHER := Reading(Load)];
    events := before + [call] + [acquire];
  }

  /** It reads a clean file and returns its state. */
  lemma {:induction false} LoadReturns(base: string, start: Machine, before: seq<Event>, m: Machine, v: State)
      returns (events: seq<Event>, t: Machine)
    requires Happens(base, start, before, m)
    requires m.system == System(m.system.disk, Some(ANOTHER), map[ANOTHER := Reading(Load)], m.system.history)
    requires AfterRead(Load, Content(m.system.disk, base)) == Releasing(Load, Returned(v))
    ensures Happens(base, start, events, t) && t.recent == m.recent && SameHome(m.home, t)
    ensures t.system == System(m.system.disk, None, map[], m.system.history + [Entry(ANOTHER, Load, Returned(v))])
  {
    var read, release := Runs(Step.Read(ANOTHER, true)), Runs(Release(ANOTHER));
    var a := NextMachine(m, base, read);
    HappensThen(base, start, before, m, read);
    assert a.system.calls == map[ANOTHER := Releasing(Load, Returned(v))];
    t := NextMachine(a, base, release);
    HappensThen(base, start, before + [read], a, release);
    assert t.system.calls == map[];
    events := before + [read] + [release];
  }

  /** The named state is what a reader of the new file gets. */
  lemma {:induction false} NamedStateLoads(base: string, goal: State)
    ensures AfterRead(Load, Content(map[base := File(Encode(Normalize(goal)), true)], base))
         == Releasing(Load, Returned(Normalize(goal)))
  {
    NormalizeIdempotent(goal);
    DecodeEncoded(Normalize(goal));
    NewlineIsBlank();
  }

  /** The state a first naming asks for. */
  function Named(id: Uuid): State {
    Normalize(EMPTY_STATE).(runtimeId := id)
  }

  lemma {:induction false} FirstNaming(id: Uuid)
    ensures AfterRead(Update(Naming(id)), None) == Writing(Update(Naming(id)), Named(id), false, MakeDir)
    ensures Normalize(Named(id)).runtimeId == id && Normalize(EMPTY_STATE).runtimeId == ""
  {
    assert Trim("") == "";
    NormalFields(EMPTY_STATE);
    NormalFields(Named(id));
  }

  /** The naming update keeps identities like every other. */
  lemma {:induction false} NamingIsSafe(id: Uuid)
    ensures IdentitySafe(Update(Naming(id)))
  {
    MutationsKeepIdentity(EnsureIdentity(Some(id)));
    forall s | Normal(s) && s.runtimeId != "" && Naming(id)(s).Some?
      ensures Normalize(Naming(id)(s).value).runtimeId == s.runtimeId
    {
      var f := s => Mutate(EnsureIdentity(Some(id)), s);
      assert Naming(id)(s) == f(s);
    }
  }

  /** From an empty state directory, or none, the update stores the identity and is about to report. */
  lemma {:induction false} NamingRun(base: string, temp: string, home: Home, id: Uuid, synced: bool)
      returns (events: seq<Event>, t: Machine)
    requires temp != base
    ensures Happens(base, Boot(map[], home), events, t) && AllSafeEvents(events) && SameHome(home, t)
    ensures t.first == map[] && (!synced ==> MayBeEmpty(t))
    ensures Inside(t, map[base := File(Encode(Normalize(Named(id))), true)],
                   Releasing(Update(Naming(id)), Reported(Named(id), synced)))
  {
    var op, goal := Update(Naming(id)), Named(id);
    FirstNaming(id);
    NamingIsSafe(id);
    var m: Machine;
    events, m := CallAndRead(base, home, op);
    events, m := CallsHappen(Boot(map[], home), events, m, base, temp, op, goal, synced, 8);
    events, t := Reporting(base, Boot(map[], home), events, m, map[base := File(Encode(Normalize(goal)), true)],
                           op, goal, synced);
  }

  // ---------------------------------------------------------------- what was only read

  /** The update stores the identity, fails at the directory sync, and leaves the lock. */
  lemma {:induction false} NamedButFailed(base: string, temp: string, id: Uuid) returns (events: seq<Event>, t: Machine)
    requires temp != base
    ensures Happens(base, Boot(map[], Kept), events, t) && SameHome(Kept, t) && MayBeEmpty(t)
    ensures t.system == System(map[base := File(Encode(Normalize(Named(id))), true)], None, map[],
                               [Entry(A_CALLER, Update(Naming(id)), Aborted(true))])
  {
    var op, d := Update(Naming(id)), map[base := File(Encode(Normalize(Named(id))), true)];
    var m: Machine;
    events, m := NamingRun(base, temp, Kept, id, false);
    ReleaseStep(base, m, d, op, Aborted(true));
    events, t := ThenSafely(base, Boot(map[], Kept), events, m, Runs(Release(A_CALLER)));
  }

  lemma {:induction false} LoadHappens(base: string, start: Machine, before: seq<Event>, m: Machine, v: State)
      returns (events: seq<Event>, t: Machine)
    requires Happens(base, start, before, m) && m.system.owner.None? && m.system.calls == map[]
    requires AfterRead(Load, Content(m.system.disk, base)) == Releasing(Load, Returned(v))
    ensures Happens(base, start, events, t) && t.recent == m.recent && SameHome(m.home, t)
    ensures t.system.history == m.system.history + [Entry(ANOTHER, Load, Returned(v))]
  {
    var n: Machine;
    events, n := LoadStarts(base, start, before, m);
    events, t := LoadReturns(base, start, events, n, v);
  }

  lemma {:induction false} EmptyComesBack(m: Machine, base: string)
    requires MayBeEmpty(m) && m.home.Kept?
    ensures EventEnabled(m, base, PowerLoss(0, map[], Kept)) && RegisterOf(map[], base) == NOTHING
  {
  }

  lemma {:induction false} NothingIsNameless()
    ensures NOTHING.state.runtimeId == ""
  {
    assert Trim("") == "";
    NormalFields(EMPTY_STATE);
  }

  /** An identity that a `Load` returned can vanish. For every identity there is a run, in a state directory
      that was there from the start, in which an update stores it and reports failure, a load then returns
      it, the power fails, and the file is gone again, although the update keeps identities. */
  lemma {:induction false} LoadedIdentityCanVanish(base: string, temp: string, id: Uuid)
      returns (events: seq<Event>, before: Machine, loaded: State)
    requires temp != base
    ensures IdentitySafe(Update(Naming(id)))
    ensures Happens(base, Boot(map[], Kept), events, before) && loaded.runtimeId == id
    ensures before.system.history
         == [Entry(A_CALLER, Update(Naming(id)), Aborted(true)), Entry(ANOTHER, Load, Returned(loaded))]
    ensures EventEnabled(before, base, PowerLoss(0, map[], Kept))
    ensures RegisterOf(map[], base) == NOTHING && NOTHING.state.runtimeId == ""
  {
    NamingIsSafe(id);
    NamedStateLoads(base, Named(id));
    FirstNaming(id);
    var m: Machine;
    events, m := NamedButFailed(base, temp, id);
    loaded := Normalize(Named(id));
    events, before := LoadHappens(base, Boot(map[], Kept), events, m, loaded);
    EmptyComesBack(before, base);
    NothingIsNameless();
  }

  // ---------------------------------------------------------------- what was acknowledged

  /** Some run from this start loses an acknowledged write with the power. */
  ghost predicate LosesWrite(base: string, start: Machine) {
    exists events: seq<Event>, m: Machine, loss: Event ::
      && Happens(base, start, events, m) && loss.PowerLoss? && EventEnabled(m, base, loss)
      && !SafelyRestored(RegisterOf(loss.disk, base), base, m)
  }

  /** An update returned the identity, and some time later the file does not show it. */
  ghost predicate IdentityGone(base: string, start: Machine, before: seq<Event>, m: Machine, caller: nat, v: State,
      after: seq<Event>, t: Machine)
  {
    && Happens(base, start, before, m) && AllSafeEvents(before)
    && EventEnabled(m, base, Runs(Release(caller))) && Returning(m.system, caller, v) && v.runtimeId != ""
    && Happens(base, NextMachine(m, base, Runs(Release(caller))), after, t) && AllSafeEvents(after)
    && !HasIdentity(Shown(t.system, base), v.runtimeId)
  }

  /** Some run of identity-keeping calls from this start loses a returned identity. */
  ghost predicate LosesIdentity(base: string, start: Machine) {
    exists before: seq<Event>, m: Machine, caller: nat, v: State, after: seq<Event>, t: Machine ::
      IdentityGone(base, start, before, m, caller, v, after, t)
  }

  lemma {:induction false} HappensKeeps(base: string, m: Machine, events: seq<Event>, t: Machine)
    requires Happens(base, m, events, t) && MachineInvariant(m, base)
    ensures MachineInvariant(t, base) && (m.home.Kept? ==> t.home.Kept?)
    ensures AllSafe(m.system) && AllSafeEvents(events) ==> AllSafe(t.system)
    decreases |events|
  {
    if events != [] {
      EventKeepsInvariant(m, base, events[0]);
      var n := NextMachine(m, base, events[0]);
      if AllSafe(m.system) && AllSafeEvents(events) {
        assert SafeEvent(events[0]);
        if events[0].Runs? {
          StepKeepsSafe(m.system, base, events[0].step);
        }
        assert AllSafeEvents(events[1..]);
      }
      HappensKeeps(base, n, events[1..], t);
    }
  }

  lemma {:induction false} SafeTail(events: seq<Event>)
    requires events != [] && AllSafeEvents(events)
    ensures SafeEvent(events[0]) && AllSafeEvents(events[1..])
  {
  }

  lemma {:induction false} HappensKeepsPromise(base: string, m: Machine, events: seq<Event>, t: Machine, id: string)
    requires Happens(base, m, events, t) && MachineInvariant(m, base) && AllSafeEvents(events)
    requires id != "" && Promised(m, base, id)
    ensures Promised(t, base, id) && MachineInvariant(t, base)
    decreases |events|
  {
    if events != [] {
      SafeTail(events);
      PromiseAndInvariant(m, base, id, events[0]);
      HappensKeepsPromise(base, NextMachine(m, base, events[0]), events[1..], t, id);
    }
  }

  lemma {:induction false} PromiseAndInvariant(m: Machine, base: string, id: string, e: Event)
    requires MachineInvariant(m, base) && EventEnabled(m, base, e) && SafeEvent(e)
    requires id != "" && Promised(m, base, id)
    ensures Promised(NextMachine(m, base, e), base, id) && MachineInvariant(NextMachine(m, base, e), base)
  {
    EventKeepsInvariant(m, base, e);
    EventKeepsPromise(m, base, id, e);
  }

  /** The loss of power that takes the directory. */
  const GONE := PowerLoss(0, map[], Absent)

  lemma {:induction false} GoneIsNothing(m: Machine, base: string)
    ensures RegisterOf(GONE.disk, base) == NOTHING
    ensures EventEnabled(m, base, GONE) <==> !m.home.Kept?
  {
  }

  /** After an acknowledged update only its own register is safe. */
  lemma {:induction false} OnlyAnswerIsSafe(base: string, m: Machine, e: Entry, answer: Register)
    requires m.system.history == [e] && Acknowledged(e) && Shown(m.system, base) == answer
    requires Effect(RegisterOf(m.first, base), e.op, e.outcome) == answer
    ensures forall r :: SafelyRestored(r, base, m) ==> r == answer
  {
    var start := RegisterOf(m.first, base);
    assert Replay(start, [e]) == answer by {
      assert [e][..0] == [];
    }
    forall r, n: nat | ReplayedTo(r, start, [e], n) ensures r == answer {
      assert [e][..n] == [e];
    }
  }

  /** The acknowledged state of the naming run, and that it is not what a lost directory holds. */
  lemma {:induction false} NamedRegister(base: string, id: Uuid)
    ensures var v := Normalize(Named(id));
            && RegisterOf(map[base := File(Encode(v), true)], base) == Holds(v)
            && Holds(v) != NOTHING && v.runtimeId != ""
            && Effect(NOTHING, Update(Naming(id)), Returned(v)) == Holds(v)
  {
    FirstNaming(id);
    NormalizedStateReads(Named(id));
  }

  /** The update returns an identity, and then the power takes the directory that it made. */
  lemma {:induction false} AnswerVanishes(base: string, m: Machine, id: Uuid)
    requires !m.home.Kept? && m.first == map[]
    requires Inside(m, map[base := File(Encode(Normalize(Named(id))), true)],
                    Releasing(Update(Naming(id)), Returned(Normalize(Named(id)))))
    ensures Returning(m.system, A_CALLER, Normalize(Named(id))) && EventEnabled(m, base, Runs(Release(A_CALLER)))
    ensures var t := NextMachine(m, base, Runs(Release(A_CALLER)));
            EventEnabled(t, base, GONE) && !SafelyRestored(RegisterOf(GONE.disk, base), base, t)
  {
    var op, v := Update(Naming(id)), Normalize(Named(id));
    ReleaseStep(base, m, map[base := File(Encode(v), true)], op, Returned(v));
    var t := NextMachine(m, base, Runs(Release(A_CALLER)));
    NamedRegister(base, id);
    GoneIsNothing(t, base);
    OnlyAnswerIsSafe(base, t, Entry(A_CALLER, op, Returned(v)), Holds(v));
  }

  /** A run that starts after the event `e` is also one that starts before it. */
  lemma {:induction false} AfterEvent(base: string, m: Machine, e: Event, events: seq<Event>, t: Machine)
    requires EventEnabled(m, base, e) && !e.Runs? && Happens(base, NextMachine(m, base, e), events, t)
    ensures Happens(base, m, [e] + events, t)
    ensures AllSafeEvents(events) ==> AllSafeEvents([e] + events)
  {
    assert ([e] + events)[1..] == events;
  }

  /** From every start without a lasting directory: the loss of what there was, and the naming run. */
  lemma {:induction false} NamingFromNothing(base: string, temp: string, start: Machine, id: Uuid)
      returns (events: seq<Event>, t: Machine)
    requires temp != base && !start.home.Kept?
    ensures Happens(base, start, events, t) && AllSafeEvents(events) && !t.home.Kept? && t.first == map[]
    ensures Inside(t, map[base := File(Encode(Normalize(Named(id))), true)],
                   Releasing(Update(Naming(id)), Returned(Normalize(Named(id)))))
  {
    GoneIsNothing(start, base);
    events, t := NamingRun(base, temp, Absent, id, true);
    AfterEvent(base, start, GONE, events, t);
    events := [GONE] + events;
  }

  /** The two witnesses, for any run that ends with an answer which the loss of the directory undoes. */
  lemma {:induction false} AnswerIsLost(base: string, start: Machine, before: seq<Event>, m: Machine, v: State)
    requires Happens(base, start, before, m) && AllSafeEvents(before)
    requires EventEnabled(m, base, Runs(Release(A_CALLER))) && Returning(m.system, A_CALLER, v) && v.runtimeId != ""
    requires var t := NextMachine(m, base, Runs(Release(A_CALLER)));
             EventEnabled(t, base, GONE) && !SafelyRestored(RegisterOf(GONE.disk, base), base, t)
    ensures LosesWrite(base, start)
    ensures IdentityGone(base, start, before, m, A_CALLER, v, [GONE], Boot(map[], Absent))
  {
    var done, gone := NextMachine(m, base, Runs(Release(A_CALLER))), Boot(map[], Absent);
    HappensThen(base, start, before, m, Runs(Release(A_CALLER)));
    assert Happens(base, gone, [], gone);
    AfterEvent(base, done, GONE, [], gone);
    assert [GONE] + [] == [GONE];
    GoneIsNothing(done, base);
    NothingIsNameless();
  }

  lemma {:induction false} LostFromNothing(base: string, temp: string, start: Machine, id: Uuid)
    requires temp != base && !start.home.Kept?
    ensures LosesWrite(base, start) && LosesIdentity(base, start)
  {
    var events, m := NamingFromNothing(base, temp, start, id);
    AnswerVanishes(base, m, id);
    NamedRegister(base, id);
    AnswerIsLost(base, start, events, m, Normalize(Named(id)));
  }

  lemma {:induction false} KeptKeepsWrites(base: string, start: Machine)
    requires MachineInvariant(start, base) && start.home.Kept?
    ensures !LosesWrite(base, start)
  {
    forall events: seq<Event>, m: Machine, loss: Event
      | Happens(base, start, events, m) && loss.PowerLoss? && EventEnabled(m, base, loss)
      ensures SafelyRestored(RegisterOf(loss.disk, base), base, m)
    {
      HappensKeeps(base, start, events, m);
      SuccessSurvives(m, base, loss);
    }
  }

  lemma {:induction false} KeptKeepsIdentity(base: string, start: Machine, before: seq<Event>, m: Machine, caller: nat,
      v: State, after: seq<Event>, t: Machine)
    requires MachineInvariant(start, base) && start.home.Kept? && AllSafe(start.system)
    ensures !IdentityGone(base, start, before, m, caller, v, after, t)
  {
    if IdentityGone(base, start, before, m, caller, v, after, t) {
      HappensKeeps(base, start, before, m);
      ReturnPromises(m, base, caller, v);
      EventKeepsInvariant(m, base, Runs(Release(caller)));
      HappensKeepsPromise(base, NextMachine(m, base, Runs(Release(caller))), after, t, v.runtimeId);
      assert false;
    }
  }

  /** Acknowledged writes survive every loss of power exactly when the state directory was there when the
      machine started. `MkdirAll` makes a missing one, but nobody syncs its parent. */
  lemma {:induction false} WritesSurviveExactly(base: string, disk: Directory, home: Home)
    requires Bootable(base, disk, home)
    ensures !LosesWrite(base, Boot(disk, home)) <==> home.Kept?
  {
    BootInvariant(disk, home, base);
    if home.Kept? {
      KeptKeepsWrites(base, Boot(disk, home));
    } else {
      assert |base + "."| != |base|;
      var id: Uuid :| true;
      LostFromNothing(base, base + ".", Boot(disk, home), id);
    }
  }

  /** So do returned identities, whatever identity-keeping updates follow. */
  lemma {:induction false} IdentitySurvivesExactly(base: string, disk: Directory, home: Home)
    requires Bootable(base, disk, home)
    ensures !LosesIdentity(base, Boot(disk, home)) <==> home.Kept?
  {
    var start := Boot(disk, home);
    BootInvariant(disk, home, base);
    if home.Kept? {
      forall before: seq<Event>, m: Machine, caller: nat, v: State, after: seq<Event>, t: Machine
        ensures !IdentityGone(base, start, before, m, caller, v, after, t)
      {
        KeptKeepsIdentity(base, start, before, m, caller, v, after, t);
      }
    } else {
      assert |base + "."| != |base|;
      var id: Uuid :| true;
      LostFromNothing(base, base + ".", start, id);
    }
  }
}
