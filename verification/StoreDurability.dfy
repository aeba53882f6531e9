/** internal/state/store.go under loss of power, on a platform whose rename replaces its target and whose
    directories can be synced. A change to a directory is certain to survive only once that directory has
    been synced. So until the state directory is synced the disk may come back with any directory it has
    shown since the last sync, and with any content in files that were not synced; and since its parent is
    never synced, a state directory made by the store itself may be gone altogether. */
module StoreDurability {
  import opened Text
  import opened StateCodec
  import opened StateModel
  import opened StateStore
  import opened StoreHistory

  /** The state directory itself: missing, made since the power came on, or there before. */
  datatype Home = Absent | Fresh | Kept

  /** The store of StoreHistory, the state directory, the disk the machine started from, and every directory
      content shown since the last directory sync, oldest first. */
  datatype Machine = Machine(system: System, home: Home, first: Directory, recent: seq<Directory>)

  datatype Event = Runs(step: Step) | PowerLoss(kept: nat, disk: Directory, home: Home)

  ghost function RegisterOf(d: Directory, base: string): Register {
    Interpret(Content(d, base))
  }

  /** The call that makes the directory durable. */
  ghost predicate SyncsDirectory(s: System, step: Step) {
    && step.FileCall? && step.caller in s.calls && s.calls[step.caller].Writing?
    && s.calls[step.caller].stage.SyncDirectory? && step.choice.ok
  }

  /** The call that finds the state directory or makes it. */
  ghost predicate MakesDirectory(s: System, step: Step) {
    && step.FileCall? && step.caller in s.calls && s.calls[step.caller].Writing?
    && s.calls[step.caller].stage.MakeDir? && step.choice.ok
  }

  /** What may be on the disk after the power returns, when the directory comes back as `d`: its target,
      with arbitrary content if that was never synced; nothing is known of other entries. */
  predicate Survives(d: Directory, base: string, disk: Directory) {
    && (base in d <==> base in disk)
    && (base in d ==> disk[base].synced && (d[base].synced ==> disk[base] == d[base]))
  }

  ghost predicate EventEnabled(m: Machine, base: string, e: Event) {
    match e
    case Runs(step) => Enabled(m.system, base, step)
    case PowerLoss(kept, disk, home) =>
      match home
      case Kept => !m.home.Absent? && kept < |m.recent| && Survives(m.recent[kept], base, disk)
      case Absent => !m.home.Kept? && disk == map[]
      case Fresh => false
  }

  /** A machine that has just started on a disk. */
  function Boot(disk: Directory, home: Home): Machine {
    Machine(System(disk, None, map[], []), home, disk, [disk])
  }

  /** A disk a machine can start on: a missing directory is empty, and a state file is on the disk. */
  predicate Bootable(base: string, disk: Directory, home: Home) {
    (home.Absent? ==> disk == map[]) && (base in disk ==> disk[base].synced)
  }

  ghost function NextMachine(m: Machine, base: string, e: Event): Machine
    requires EventEnabled(m, base, e)
  {
    match e
    case Runs(step) =>
      var s := Next(m.system, base, step);
      m.(system := s,
         home := if m.home.Absent? && MakesDirectory(m.system, step) then Fresh else m.home,
         recent := if SyncsDirectory(m.system, step) then [s.disk]
                   else if step.FileCall? then m.recent + [s.disk]
                   else m.recent)
    case PowerLoss(_, disk, home) => Boot(disk, home)
  }

  // ---------------------------------------------------------------- what a success promises

  /** A write whose caller was told that it succeeded. */
  predicate Acknowledged(e: Entry) {
    e.outcome.Returned? && !e.op.Load?
  }

  /** How much of the history is certain to survive: everything up to the last acknowledged write. */
  function Floor(history: seq<Entry>): (n: nat)
    ensures n <= |history|
    ensures forall k :: 0 <= k < |history| && Acknowledged(history[k]) ==> k < n
  {
    if history == [] then 0
    else if Acknowledged(history[|history| - 1]) then |history|
    else Floor(history[..|history| - 1])
  }

  /** `r` is the register as the first `n` calls left it, with every acknowledged write among them. */
  ghost predicate ReplayedTo(r: Register, start: Register, history: seq<Entry>, n: nat) {
    Floor(history) <= n <= |history| && r == Replay(start, history[..n])
  }

  /** Power loss at this directory would lose no acknowledged write. */
  ghost predicate Recalls(s: System, start: Register, base: string, d: Directory) {
    || RegisterOf(d, base) == Shown(s, base)
    || exists n: nat :: ReplayedTo(RegisterOf(d, base), start, s.history, n)
  }

  /** The target is the one the machine started from, or one complete synced encoding. */
  ghost predicate Whole(d: Directory, first: Directory, base: string) {
    || (base !in first && base !in d)
    || (base in first && base in d && d[base] == first[base])
    || (base in d && exists s: State :: d[base] == File(Encode(Normalize(s)), true))
  }

  /** The call in the lock has synced the directory and is about to report success. */
  predicate Succeeding(p: Phase) {
    || (p.Writing? && !p.repair && p.stage.Finished? && p.stage.ok)
    || (p.Releasing? && !p.op.Load? && p.outcome.Returned?)
  }

  ghost predicate SyncedUp(s: System, recent: seq<Directory>) {
    s.owner.Some? && s.owner.value in s.calls && Succeeding(s.calls[s.owner.value]) ==>
      forall d <- recent :: d == s.disk
  }

  ghost predicate AllRecall(s: System, start: Register, base: string, recent: seq<Directory>) {
    forall d <- recent :: Recalls(s, start, base, d)
  }

  ghost predicate AllWhole(recent: seq<Directory>, first: Directory, base: string) {
    forall d <- recent :: Whole(d, first, base)
  }

  /** The directories that may come back, seen from the system as it is. */
  ghost predicate Shows(s: System, first: Directory, base: string, recent: seq<Directory>) {
    && s.disk in recent && AllRecall(s, RegisterOf(first, base), base, recent) && AllWhole(recent, first, base)
  }

  /** Nothing has been written: the call in the lock has not passed the directory's creation. */
  ghost predicate Untouched(s: System, recent: seq<Directory>) {
    && (forall d <- recent :: d == map[])
    && (s.owner.Some? && s.owner.value in s.calls && s.calls[s.owner.value].Writing? ==>
          s.calls[s.owner.value].stage.MakeDir? || s.calls[s.owner.value].stage.Finished?)
  }

  ghost predicate MachineInvariant(m: Machine, base: string) {
    && Invariant(m.system, base, RegisterOf(m.first, base))
    && (base in m.first ==> m.first[base].synced)
    && Shows(m.system, m.first, base, m.recent)
    && SyncedUp(m.system, m.recent)
    && (m.home.Absent? ==> Untouched(m.system, m.recent))
  }

  lemma {:induction false} BootInvariant(disk: Directory, home: Home, base: string)
    requires Bootable(base, disk, home)
    ensures MachineInvariant(Boot(disk, home), base)
  {
  }

  lemma {:induction false} FloorExtend(history: seq<Entry>, e: Entry)
    ensures Floor(history + [e]) == if Acknowledged(e) then |history| + 1 else Floor(history)
  {
    assert (history + [e])[..|history|] == history;
  }

  lemma {:induction false} ReplayedLater(r: Register, start: Register, history: seq<Entry>, e: Entry, n: nat)
    requires ReplayedTo(r, start, history, n) && !Acknowledged(e)
    ensures ReplayedTo(r, start, history + [e], n)
  {
    FloorExtend(history, e);
    assert (history + [e])[..n] == history[..n];
  }

  // ---------------------------------------------------------------- the steps

  /** A step that keeps history and register keeps what a directory recalls; so does one that replaces a
      register which the history accounts for. */
  lemma {:induction false} SameHistoryRecalls(s: System, s': System, start: Register, base: string, d: Directory)
    requires Recalls(s, start, base, d) && s'.history == s.history
    requires Shown(s', base) == Shown(s, base) || Shown(s, base) == Replay(start, s.history)
    ensures Recalls(s', start, base, d)
  {
    if RegisterOf(d, base) == Shown(s, base) && Shown(s', base) != Shown(s, base) {
      assert s.history[..|s.history|] == s.history;
      assert ReplayedTo(RegisterOf(d, base), start, s.history, |s.history|);
    }
  }

  /** A finished or interrupted call: only an acknowledged write raises the floor, and then every directory
      that may come back is the current one. */
  lemma {:induction false} LongerHistoryRecalls(s: System, s': System, start: Register, base: string, e: Entry,
      d: Directory)
    requires Recalls(s, start, base, d) && s'.history == s.history + [e] && s'.disk == s.disk
    requires Acknowledged(e) ==> d == s.disk
    ensures Recalls(s', start, base, d)
  {
    if RegisterOf(d, base) != Shown(s, base) {
      var n: nat :| ReplayedTo(RegisterOf(d, base), start, s.history, n);
      ReplayedLater(RegisterOf(d, base), start, s.history, e, n);
    }
  }

  /** One system call: the register before it is accounted for whenever the call replaces it. */
  lemma {:induction false} FileCallShows(s: System, base: string, start: Register, step: Step)
    requires Invariant(s, base, start) && step.FileCall? && Enabled(s, base, step)
    ensures var s' := Next(s, base, step);
            && s.owner == Some(step.caller) && s'.owner == s.owner && s'.history == s.history
            && (Shown(s', base) == Shown(s, base) || Shown(s, base) == Replay(start, s.history))
            && step.caller in s'.calls
            && (Succeeding(s'.calls[step.caller]) ==> SyncsDirectory(s, step))
  {
    var p := s.calls[step.caller];
    AdvanceIsAtomic(p.stage, s.disk, base, Encode(Normalize(p.goal)), step.choice);
  }

  lemma {:induction false} FileCallIsWhole(s: System, base: string, start: Register, first: Directory, step: Step)
    requires Invariant(s, base, start) && step.FileCall? && Enabled(s, base, step) && Whole(s.disk, first, base)
    ensures Whole(Next(s, base, step).disk, first, base)
  {
    var p := s.calls[step.caller];
    AdvanceIsAtomic(p.stage, s.disk, base, Encode(Normalize(p.goal)), step.choice);
  }

  lemma {:induction false} OneMoreRecalls(s: System, s': System, start: Register, base: string, recent: seq<Directory>)
    requires AllRecall(s, start, base, recent) && s'.history == s.history
    requires Shown(s', base) == Shown(s, base) || Shown(s, base) == Replay(start, s.history)
    ensures AllRecall(s', start, base, recent + [s'.disk]) && AllRecall(s', start, base, [s'.disk])
  {
    forall d | d in recent ensures Recalls(s', start, base, d) {
      SameHistoryRecalls(s, s', start, base, d);
    }
  }

  lemma {:induction false} OneMoreWhole(recent: seq<Directory>, d: Directory, first: Directory, base: string)
    requires AllWhole(recent, first, base) && Whole(d, first, base)
    ensures AllWhole(recent + [d], first, base) && AllWhole([d], first, base)
  {
  }

  /** A new directory is shown. */
  lemma {:induction false} ShowsAnother(s: System, s': System, first: Directory, base: string, recent: seq<Directory>)
    requires Shows(s, first, base, recent) && s'.history == s.history && Whole(s'.disk, first, base)
    requires Shown(s', base) == Shown(s, base) || Shown(s, base) == Replay(RegisterOf(first, base), s.history)
    ensures Shows(s', first, base, recent + [s'.disk]) && Shows(s', first, base, [s'.disk])
  {
    OneMoreRecalls(s, s', RegisterOf(first, base), base, recent);
    OneMoreWhole(recent, s'.disk, first, base);
  }

  lemma {:induction false} Assembles(m: Machine, base: string, s: System, home: Home, recent: seq<Directory>)
    requires Invariant(s, base, RegisterOf(m.first, base)) && (base in m.first ==> m.first[base].synced)
    requires Shows(s, m.first, base, recent) && SyncedUp(s, recent) && (home.Absent? ==> Untouched(s, recent))
    ensures MachineInvariant(m.(system := s, home := home, recent := recent), base)
  {
  }

  lemma {:induction false} FileCallMoves(m: Machine, base: string, step: Step)
      returns (s: System, home: Home, recent: seq<Directory>)
    requires MachineInvariant(m, base) && step.FileCall? && Enabled(m.system, base, step)
    ensures NextMachine(m, base, Runs(step)) == m.(system := s, home := home, recent := recent)
    ensures s == Next(m.system, base, step) && m.system.owner == Some(step.caller)
    ensures Invariant(s, base, RegisterOf(m.first, base)) && SyncedUp(s, recent)
    ensures recent == [s.disk] || recent == m.recent + [s.disk]
    ensures s.history == m.system.history && Whole(s.disk, m.first, base)
    ensures Shown(s, base) == Shown(m.system, base)
         || Shown(m.system, base) == Replay(RegisterOf(m.first, base), m.system.history)
    ensures home.Absent? ==> m.home.Absent? && !MakesDirectory(m.system, step)
  {
    var start := RegisterOf(m.first, base);
    StepKeepsInvariant(m.system, base, start, step);
    FileCallShows(m.system, base, start, step);
    FileCallIsWhole(m.system, base, start, m.first, step);
    s := Next(m.system, base, step);
    home := if m.home.Absent? && MakesDirectory(m.system, step) then Fresh else m.home;
    recent := if SyncsDirectory(m.system, step) then [s.disk] else m.recent + [s.disk];
  }

  lemma {:induction false} MakeDirFails(s: System, base: string, caller: nat, c: Choice)
    requires Enabled(s, base, FileCall(caller, c)) && s.calls[caller].stage.MakeDir? && !c.ok
    ensures Next(s, base, FileCall(caller, c))
         == s.(calls := s.calls[caller := s.calls[caller].(stage := Finished(false, false))])
  {
  }

  lemma {:induction false} FinishedIsUntouched(s: System, s': System, caller: nat, recent: seq<Directory>)
    requires Untouched(s, recent) && s.disk in recent && s.owner == Some(caller)
    requires caller in s.calls && s.calls[caller].Writing?
    requires s' == s.(calls := s.calls[caller := s.calls[caller].(stage := Finished(false, false))])
    ensures Untouched(s', recent + [s'.disk]) && Untouched(s', [s'.disk])
  {
  }

  /** While the directory is missing, a system call can only have failed to make it. */
  lemma {:induction false} StillUntouched(s: System, base: string, recent: seq<Directory>, step: Step)
    requires step.FileCall? && Enabled(s, base, step) && s.owner == Some(step.caller)
    requires Untouched(s, recent) && s.disk in recent && !MakesDirectory(s, step)
    ensures var s' := Next(s, base, step);
            Untouched(s', recent + [s'.disk]) && Untouched(s', [s'.disk])
  {
    MakeDirFails(s, base, step.caller, step.choice);
    FinishedIsUntouched(s, Next(s, base, step), step.caller, recent);
  }

  lemma {:induction false} FileCallKeepsMachine(m: Machine, base: string, step: Step)
    requires MachineInvariant(m, base) && step.FileCall? && Enabled(m.system, base, step)
    ensures MachineInvariant(NextMachine(m, base, Runs(step)), base)
  {
    var s, home, recent := FileCallMoves(m, base, step);
    ShowsAnother(m.system, s, m.first, base, m.recent);
    if home.Absent? {
      StillUntouched(m.system, base, m.recent, step);
    }
    Assembles(m, base, s, home, recent);
  }

  /** The entry a call leaves behind when it gives up the lock. */
  ghost function Leaving(s: System): Entry
    requires s.owner.Some? && s.owner.value in s.calls
  {
    Entry(s.owner.value, s.calls[s.owner.value].op, Interrupted(s.calls[s.owner.value]))
  }

  lemma {:induction false} LeavingHistory(s: System, base: string, start: Register, step: Step)
    requires Invariant(s, base, start) && Enabled(s, base, step) && (step.Release? || step.Crash?)
    ensures var s' := Next(s, base, step);
            && s'.disk == s.disk && s'.owner.None?
            && (if s.owner.Some? then s.owner.value in s.calls && s'.history == s.history + [Leaving(s)]
                else s'.history == s.history)
  {
  }

  lemma {:induction false} LeaveKeepsMachine(m: Machine, base: string, step: Step)
    requires MachineInvariant(m, base) && Enabled(m.system, base, step) && (step.Release? || step.Crash?)
    ensures MachineInvariant(NextMachine(m, base, Runs(step)), base)
  {
    var start := RegisterOf(m.first, base);
    var m' := NextMachine(m, base, Runs(step));
    StepKeepsInvariant(m.system, base, start, step);
    LeavingHistory(m.system, base, start, step);
    assert m'.recent == m.recent;
    forall d | d in m'.recent ensures Recalls(m'.system, start, base, d) {
      if m.system.owner.Some? {
        LongerHistoryRecalls(m.system, m'.system, start, base, Leaving(m.system), d);
      } else {
        SameHistoryRecalls(m.system, m'.system, start, base, d);
      }
    }
  }

  /** The steps that touch neither disk nor history, and announce no success of their own. */
  lemma {:induction false} QuietStep(s: System, base: string, start: Register, step: Step)
    requires Invariant(s, base, start) && Enabled(s, base, step)
    requires step.Call? || step.Acquire? || step.Read? || step.Settle?
    ensures var s' := Next(s, base, step);
            && s'.disk == s.disk && s'.history == s.history
            && (s'.owner.Some? && s'.owner.value in s'.calls && Succeeding(s'.calls[s'.owner.value]) ==>
                  s.owner == s'.owner && s.owner.value in s.calls && Succeeding(s.calls[s.owner.value]))
  {
  }

  lemma {:induction false} QuietUntouched(s: System, base: string, recent: seq<Directory>, step: Step)
    requires Enabled(s, base, step) && (step.Call? || step.Acquire? || step.Read? || step.Settle?)
    requires Untouched(s, recent)
    ensures Untouched(Next(s, base, step), recent)
  {
  }

  lemma {:induction false} QuietKeepsMachine(m: Machine, base: string, step: Step)
    requires MachineInvariant(m, base) && Enabled(m.system, base, step)
    requires step.Call? || step.Acquire? || step.Read? || step.Settle?
    ensures MachineInvariant(NextMachine(m, base, Runs(step)), base)
  {
    var start := RegisterOf(m.first, base);
    var m' := NextMachine(m, base, Runs(step));
    StepKeepsInvariant(m.system, base, start, step);
    QuietStep(m.system, base, start, step);
    if m.home.Absent? {
      QuietUntouched(m.system, base, m.recent, step);
    }
    assert m'.recent == m.recent;
    forall d | d in m'.recent ensures Recalls(m'.system, start, base, d) {
      SameHistoryRecalls(m.system, m'.system, start, base, d);
    }
  }

  /** Every target that may come back was synced before it took its place. */
  lemma {:induction false} WholeIsSynced(d: Directory, first: Directory, base: string)
    requires Whole(d, first, base) && (base in first ==> first[base].synced)
    ensures base in d ==> d[base].synced
  {
  }

  /** Every step, every process crash and every loss of power keeps the invariant. */
  lemma {:induction false} EventKeepsInvariant(m: Machine, base: string, e: Event)
    requires MachineInvariant(m, base) && EventEnabled(m, base, e)
    ensures MachineInvariant(NextMachine(m, base, e), base)
  {
    match e
    case PowerLoss(kept, disk, home) =>
      BootInvariant(disk, home, base);
    case Runs(step) =>
      if step.FileCall? {
        FileCallKeepsMachine(m, base, step);
      } else if step.Release? || step.Crash? {
        LeaveKeepsMachine(m, base, step);
      } else {
        QuietKeepsMachine(m, base, step);
      }
  }

  // ---------------------------------------------------------------- what survives

  /** A register with at least every acknowledged write, and nothing that was never there. */
  ghost predicate SafelyRestored(r: Register, base: string, m: Machine) {
    || r == Shown(m.system, base)
    || exists n: nat :: ReplayedTo(r, RegisterOf(m.first, base), m.system.history, n)
  }

  /** Unless the power takes the directory itself, the register comes back as one of those shown since the
      last sync. */
  lemma {:induction false} SurvivorShows(m: Machine, base: string, e: Event) returns (d: Directory)
    requires MachineInvariant(m, base) && e.PowerLoss? && EventEnabled(m, base, e) && !m.home.Fresh?
    ensures d in m.recent && RegisterOf(e.disk, base) == RegisterOf(d, base)
    ensures (base in e.disk <==> base in d) && (base in d ==> e.disk[base] == d[base])
  {
    if e.home.Kept? {
      d := m.recent[e.kept];
      WholeIsSynced(d, m.first, base);
    } else {
      d := m.system.disk;
      assert d == map[];
    }
  }

  /** A success survives a loss of power, unless the store itself had to make the state directory. After it
      the register stands where the calls up to some point of the history had left it (or where it was
      shown), a point behind every write whose caller was told of success; the state file is the initial
      one or one complete synced encoding. */
  lemma {:induction false} SuccessSurvives(m: Machine, base: string, e: Event)
    requires MachineInvariant(m, base) && e.PowerLoss? && EventEnabled(m, base, e) && !m.home.Fresh?
    ensures SafelyRestored(RegisterOf(e.disk, base), base, m)
    ensures Whole(e.disk, m.first, base)
  {
    var d := SurvivorShows(m, base, e);
    assert Recalls(m.system, RegisterOf(m.first, base), base, d) && Whole(d, m.first, base);
  }

  ghost predicate MachineExecution(base: string, machines: seq<Machine>, events: seq<Event>) {
    && |machines| == |events| + 1
    && Bootable(base, machines[0].first, machines[0].home)
    && machines[0] == Boot(machines[0].first, machines[0].home)
    && forall i :: 0 <= i < |events| ==>
         EventEnabled(machines[i], base, events[i]) && machines[i + 1] == NextMachine(machines[i], base, events[i])
  }

  lemma {:induction false} MachineInvariantHolds(base: string, machines: seq<Machine>, events: seq<Event>, i: nat)
    requires MachineExecution(base, machines, events) && i < |machines|
    ensures MachineInvariant(machines[i], base)
  {
    if i == 0 {
      BootInvariant(machines[0].first, machines[0].home, base);
    } else {
      MachineInvariantHolds(base, machines, events, i - 1);
      EventKeepsInvariant(machines[i - 1], base, events[i - 1]);
    }
  }

  // ---------------------------------------------------------------- a returned identity

  ghost predicate HasIdentity(r: Register, id: string) {
    r.Holds? && r.state.runtimeId == id
  }

  ghost predicate AllNamed(recent: seq<Directory>, base: string, id: string) {
    forall d <- recent :: HasIdentity(RegisterOf(d, base), id)
  }

  /** The state directory is there to stay, every content that may come back shows the identity, and every
      call in progress keeps it. */
  ghost predicate Promised(m: Machine, base: string, id: string) {
    m.home.Kept? && AllSafe(m.system) && AllNamed(m.recent, base, id)
  }

  ghost predicate SafeEvent(e: Event) {
    e.Runs? && e.step.Call? ==> IdentitySafe(e.step.op)
  }

  lemma {:induction false} LossKeepsPromise(m: Machine, base: string, id: string, e: Event)
    requires MachineInvariant(m, base) && e.PowerLoss? && EventEnabled(m, base, e) && Promised(m, base, id)
    ensures Promised(Boot(e.disk, e.home), base, id)
  {
    var d := SurvivorShows(m, base, e);
    assert HasIdentity(RegisterOf(d, base), id);
  }

  lemma {:induction false} StepKeepsName(s: System, base: string, start: Register, id: string, step: Step)
    requires Invariant(s, base, start) && Enabled(s, base, step) && AllSafe(s) && id != ""
    requires step.Call? ==> IdentitySafe(step.op)
    requires HasIdentity(Shown(s, base), id)
    ensures AllSafe(Next(s, base, step)) && HasIdentity(RegisterOf(Next(s, base, step).disk, base), id)
  {
    StepKeepsSafe(s, base, step);
    StepKeepsIdentity(s, base, start, step);
  }

  lemma {:induction false} OneMoreNamed(recent: seq<Directory>, d: Directory, base: string, id: string)
    requires AllNamed(recent, base, id) && HasIdentity(RegisterOf(d, base), id)
    ensures AllNamed(recent + [d], base, id) && AllNamed([d], base, id)
  {
  }

  lemma {:induction false} StepKeepsPromise(m: Machine, base: string, id: string, step: Step)
    requires Enabled(m.system, base, step) && (step.Call? ==> IdentitySafe(step.op))
    requires Invariant(m.system, base, RegisterOf(m.first, base)) && m.system.disk in m.recent
    requires id != "" && Promised(m, base, id)
    ensures Promised(NextMachine(m, base, Runs(step)), base, id)
  {
    StepKeepsName(m.system, base, RegisterOf(m.first, base), id, step);
    OneMoreNamed(m.recent, Next(m.system, base, step).disk, base, id);
  }

  lemma {:induction false} EventKeepsPromise(m: Machine, base: string, id: string, e: Event)
    requires MachineInvariant(m, base) && EventEnabled(m, base, e) && SafeEvent(e)
    requires id != "" && Promised(m, base, id)
    ensures Promised(NextMachine(m, base, e), base, id)
  {
    match e
    case PowerLoss(_, _, _) =>
      LossKeepsPromise(m, base, id, e);
    case Runs(step) =>
      StepKeepsPromise(m, base, id, step);
  }

  /** When a successful update leaves the lock, its identity is promised. */
  lemma {:induction false} ReturnPromises(m: Machine, base: string, caller: nat, v: State)
    requires Returning(m.system, caller, v) && Enabled(m.system, base, Release(caller))
    requires MachineInvariant(m, base) && AllSafe(m.system) && m.home.Kept?
    ensures Promised(NextMachine(m, base, Runs(Release(caller))), base, v.runtimeId)
  {
    var s, p := m.system, m.system.calls[caller];
    assert s.owner == Some(caller) && Succeeding(p);
    StepKeepsSafe(s, base, Release(caller));
    assert InsideOk(Replay(RegisterOf(m.first, base), s.history), p, Shown(s, base));
    assert Shown(s, base) == Holds(v);
  }

  /** A call about to leave the lock with a success to report. */
  predicate Returning(s: System, caller: nat, v: State) {
    && caller in s.calls && s.calls[caller].Releasing? && s.calls[caller].op.Update?
    && s.calls[caller].outcome == Returned(v)
  }

  // ---------------------------------------------------------------- along a run

  lemma {:induction false} SafeSoFar(base: string, machines: seq<Machine>, events: seq<Event>, i: nat)
    requires MachineExecution(base, machines, events) && i < |machines|
    requires forall k :: 0 <= k < |events| ==> SafeEvent(events[k])
    ensures AllSafe(machines[i].system)
  {
    if i > 0 {
      SafeSoFar(base, machines, events, i - 1);
      if events[i - 1].Runs? {
        StepKeepsSafe(machines[i - 1].system, base, events[i - 1].step);
      }
    }
  }

  /** A state directory that was there stays. */
  lemma {:induction false} KeptStays(base: string, machines: seq<Machine>, events: seq<Event>, i: nat)
    requires MachineExecution(base, machines, events) && i < |machines| && machines[0].home.Kept?
    ensures machines[i].home.Kept?
  {
    if i > 0 {
      KeptStays(base, machines, events, i - 1);
    }
  }

  lemma {:induction false} PromiseStep(base: string, machines: seq<Machine>, events: seq<Event>, id: string, k: nat)
    requires MachineExecution(base, machines, events) && k < |events| && id != "" && SafeEvent(events[k])
    requires Promised(machines[k], base, id)
    ensures Promised(machines[k + 1], base, id)
  {
    MachineInvariantHolds(base, machines, events, k);
    EventKeepsPromise(machines[k], base, id, events[k]);
  }

  lemma {:induction false} PromiseAlong(base: string, machines: seq<Machine>, id: string, i: nat, j: nat)
    requires i <= j < |machines| && Promised(machines[i], base, id)
    requires forall k: nat ::
      k + 1 < |machines| && Promised(machines[k], base, id) ==> Promised(machines[k + 1], base, id)
    ensures Promised(machines[j], base, id)
    decreases j - i
  {
    if i < j {
      PromiseAlong(base, machines, id, i, j - 1);
      assert Promised(machines[j - 1 + 1], base, id);
    }
  }

  /** A returned identity is permanent, where the state directory was there from the start. In any run with
      identity-keeping updates, through failures, process crashes and losses of power: once an update has
      returned a non-empty identity, the file shows it at every later moment. StoreLoss shows that a start
      without the directory can lose it. */
  lemma {:induction false} ReturnedIdentityIsPermanent(base: string, machines: seq<Machine>, events: seq<Event>,
      i: nat, caller: nat, v: State, j: nat)
    requires MachineExecution(base, machines, events) && i < |events| && i < j < |machines|
    requires machines[0].home.Kept? && forall k :: 0 <= k < |events| ==> SafeEvent(events[k])
    requires events[i] == Runs(Release(caller)) && Returning(machines[i].system, caller, v) && v.runtimeId != ""
    ensures HasIdentity(Shown(machines[j].system, base), v.runtimeId)
  {
    MachineInvariantHolds(base, machines, events, i);
    SafeSoFar(base, machines, events, i);
    KeptStays(base, machines, events, i);
    ReturnPromises(machines[i], base, caller, v);
    forall k: nat | k + 1 < |machines| && Promised(machines[k], base, v.runtimeId)
      ensures Promised(machines[k + 1], base, v.runtimeId)
    {
      PromiseStep(base, machines, events, v.runtimeId, k);
    }
    PromiseAlong(base, machines, v.runtimeId, i + 1, j);
    MachineInvariantHolds(base, machines, events, j);
  }

  // ---------------------------------------------------------------- what was only shown

  /** The event fixes what is certain: a successful directory sync, or a start after a loss of power. */
  ghost predicate Fixes(m: Machine, e: Event) {
    e.PowerLoss? || SyncsDirectory(m.system, e.step)
  }

  /** The last moment up to `i` whose directory content is certain: right after the last successful
      directory sync, or the last start. */
  ghost function LastSync(machines: seq<Machine>, events: seq<Event>, i: nat): (k: nat)
    requires |machines| == |events| + 1 && i < |machines|
    ensures k <= i
  {
    if i == 0 || Fixes(machines[i - 1], events[i - 1]) then i else LastSync(machines, events, i - 1)
  }

  /** The last start up to `i`. */
  function LastBoot(events: seq<Event>, i: nat): (k: nat)
    requires i <= |events|
    ensures k <= i
  {
    if i == 0 || events[i - 1].PowerLoss? then i else LastBoot(events, i - 1)
  }

  lemma {:induction false} StepKeepsHome(m: Machine, base: string, step: Step)
    requires EventEnabled(m, base, Runs(step))
    ensures NextMachine(m, base, Runs(step)).home.Kept? <==> m.home.Kept?
  {
  }

  /** Only a start decides whether the state directory is there to stay. */
  lemma {:induction false} KeptSinceBoot(base: string, machines: seq<Machine>, events: seq<Event>, i: nat)
    requires MachineExecution(base, machines, events) && i < |machines|
    ensures machines[i].home.Kept? <==> machines[LastBoot(events, i)].home.Kept?
  {
    if i > 0 && !events[i - 1].PowerLoss? {
      KeptSinceBoot(base, machines, events, i - 1);
      StepKeepsHome(machines[i - 1], base, events[i - 1].step);
    }
  }

  /** The disk showed `d` at some moment from `k` to `i`. */
  ghost predicate ShownSince(machines: seq<Machine>, k: nat, i: nat, d: Directory) {
    exists j: nat :: k <= j <= i && j < |machines| && machines[j].system.disk == d
  }

  /** What one event does to the contents that may come back. */
  lemma {:induction false} RecentStep(m: Machine, base: string, e: Event)
    requires MachineInvariant(m, base) && EventEnabled(m, base, e)
    ensures var m' := NextMachine(m, base, e);
            if Fixes(m, e) then m'.recent == [m'.system.disk]
            else m'.recent == m.recent + [m'.system.disk] || (m'.recent == m.recent && m'.system.disk == m.system.disk)
  {
    if e.Runs? && !e.step.FileCall? {
      assert Next(m.system, base, e.step).disk == m.system.disk;
    }
  }

  /** The contents that may come back are exactly those shown since that moment. */
  lemma {:induction false} RecentAreShown(base: string, machines: seq<Machine>, events: seq<Event>, i: nat)
    requires MachineExecution(base, machines, events) && i < |machines|
    ensures forall d :: d in machines[i].recent <==> ShownSince(machines, LastSync(machines, events, i), i, d)
  {
    if i == 0 {
      assert forall d :: ShownSince(machines, 0, 0, d) <==> d == machines[0].system.disk;
    } else {
      MachineInvariantHolds(base, machines, events, i - 1);
      RecentStep(machines[i - 1], base, events[i - 1]);
      if Fixes(machines[i - 1], events[i - 1]) {
        assert forall d :: ShownSince(machines, i, i, d) <==> d == machines[i].system.disk;
      } else {
        RecentAreShown(base, machines, events, i - 1);
        ShownLater(machines, LastSync(machines, events, i - 1), i);
      }
    }
  }

  lemma {:induction false} ShownLater(machines: seq<Machine>, k: nat, i: nat)
    requires k < i < |machines|
    ensures forall d :: ShownSince(machines, k, i, d) <==>
              ShownSince(machines, k, i - 1, d) || d == machines[i].system.disk
    ensures ShownSince(machines, k, i - 1, machines[i - 1].system.disk)
  {
    forall d
      ensures ShownSince(machines, k, i, d) <==> ShownSince(machines, k, i - 1, d) || d == machines[i].system.disk
    {
      if ShownSince(machines, k, i, d) && d != machines[i].system.disk {
        var j: nat :| k <= j <= i && j < |machines| && machines[j].system.disk == d;
        assert j <= i - 1;
      }
    }
  }

  /** Every loss of power that may happen now keeps a property of the register. */
  ghost predicate SurvivesLoss(m: Machine, base: string, keeps: Register -> bool) {
    forall e: Event :: e.PowerLoss? && EventEnabled(m, base, e) ==> keeps(RegisterOf(e.disk, base))
  }

  /** Losing the directory is losing everything. */
  const NOTHING := Holds(Normalize(EMPTY_STATE))

  lemma {:induction false} SurvivesExactly(m: Machine, base: string, keeps: Register -> bool)
    requires MachineInvariant(m, base) && keeps(Shown(m.system, base))
    ensures SurvivesLoss(m, base, keeps)
       <==> (m.home.Kept? || keeps(NOTHING)) && (forall d <- m.recent :: keeps(RegisterOf(d, base)))
  {
    if (m.home.Kept? || keeps(NOTHING)) && (forall d <- m.recent :: keeps(RegisterOf(d, base))) {
      forall e: Event | e.PowerLoss? && EventEnabled(m, base, e) ensures keeps(RegisterOf(e.disk, base)) {
        if e.home.Kept? {
          WholeIsSynced(m.recent[e.kept], m.first, base);
          assert keeps(RegisterOf(m.recent[e.kept], base));
        }
      }
    }
    if SurvivesLoss(m, base, keeps) {
      LossesHappen(m, base, keeps);
    }
  }

  lemma {:induction false} LossesHappen(m: Machine, base: string, keeps: Register -> bool)
    requires MachineInvariant(m, base) && SurvivesLoss(m, base, keeps) && keeps(Shown(m.system, base))
    ensures m.home.Kept? || keeps(NOTHING)
    ensures forall d <- m.recent :: keeps(RegisterOf(d, base))
  {
    if !m.home.Kept? {
      var gone := PowerLoss(0, map[], Absent);
      assert EventEnabled(m, base, gone) && RegisterOf(gone.disk, base) == NOTHING;
    }
    forall d | d in m.recent ensures keeps(RegisterOf(d, base)) {
      if m.home.Absent? {
        assert d == m.system.disk;
      } else {
        var k :| 0 <= k < |m.recent| && m.recent[k] == d;
        WholeIsSynced(d, m.first, base);
        assert EventEnabled(m, base, PowerLoss(k, d, Kept));
      }
    }
  }

  /** A state that is only shown, say to a `Load`, survives every loss of power exactly when the register has
      been that state ever since the last successful directory sync (or start), and the state directory was
      there at the last start (or there is nothing to lose). */
  lemma {:induction false} ShownStateSurvivesExactly(base: string, machines: seq<Machine>, events: seq<Event>, i: nat)
    requires MachineExecution(base, machines, events) && i < |machines|
    ensures var r := Shown(machines[i].system, base);
            SurvivesLoss(machines[i], base, q => q == r)
            <==> && (machines[LastBoot(events, i)].home.Kept? || r == NOTHING)
                 && forall k: nat :: LastSync(machines, events, i) <= k <= i ==> Shown(machines[k].system, base) == r
  {
    var m, r := machines[i], Shown(machines[i].system, base);
    MachineInvariantHolds(base, machines, events, i);
    KeptSinceBoot(base, machines, events, i);
    SurvivesExactly(m, base, q => q == r);
    RecentRegisters(base, machines, events, i, q => q == r);
  }

  /** A property of all contents that may come back is one of all moments since the last sync. */
  lemma {:induction false} RecentRegisters(base: string, machines: seq<Machine>, events: seq<Event>, i: nat,
      keeps: Register -> bool)
    requires MachineExecution(base, machines, events) && i < |machines|
    ensures (forall d <- machines[i].recent :: keeps(RegisterOf(d, base)))
       <==> (forall k: nat :: LastSync(machines, events, i) <= k <= i ==> keeps(Shown(machines[k].system, base)))
  {
    var first := LastSync(machines, events, i);
    RecentAreShown(base, machines, events, i);
    if forall d <- machines[i].recent :: keeps(RegisterOf(d, base)) {
      forall k: nat | first <= k <= i ensures keeps(Shown(machines[k].system, base)) {
        assert ShownSince(machines, first, i, machines[k].system.disk);
      }
    }
    if forall k: nat :: first <= k <= i ==> keeps(Shown(machines[k].system, base)) {
      forall d | d in machines[i].recent ensures keeps(RegisterOf(d, base)) {
        var k: nat :| first <= k <= i && k < |machines| && machines[k].system.disk == d;
        assert keeps(Shown(machines[k].system, base));
      }
    }
  }

  /** A moment after the last fixing event is reached by a step. */
  lemma {:induction false} StepsSince(machines: seq<Machine>, events: seq<Event>, k: nat, i: nat)
    requires |machines| == |events| + 1 && i < |machines| && LastSync(machines, events, i) <= k < i
    ensures events[k].Runs?
    decreases i
  {
    if k < i - 1 {
      StepsSince(machines, events, k, i - 1);
    }
  }

  /** One step of a run of identity-keeping calls. */
  lemma {:induction false} RunKeepsIdentity(base: string, machines: seq<Machine>, events: seq<Event>, k: nat)
    requires MachineExecution(base, machines, events) && k < |events| && events[k].Runs?
    requires forall j :: 0 <= j < |events| ==> SafeEvent(events[j])
    ensures SameIdentity(Shown(machines[k].system, base), Shown(machines[k + 1].system, base))
  {
    MachineInvariantHolds(base, machines, events, k);
    SafeSoFar(base, machines, events, k);
    StepKeepsIdentity(machines[k].system, base, RegisterOf(machines[k].first, base), events[k].step);
  }

  /** The registers a run shows. */
  ghost function ShownRegisters(base: string, machines: seq<Machine>): seq<Register> {
    seq(|machines|, k requires 0 <= k < |machines| => Shown(machines[k].system, base))
  }

  lemma {:induction false} IdentityFrom(registers: seq<Register>, first: nat, k: nat)
    requires first <= k < |registers|
    requires forall n: nat :: first <= n < k ==> SameIdentity(registers[n], registers[n + 1])
    ensures SameIdentity(registers[first], registers[k])
    decreases k
  {
    if first < k {
      IdentityFrom(registers, first, k - 1);
      assert SameIdentity(registers[k - 1], registers[k - 1 + 1]);
    }
  }

  /** Since the last fixing event an identity, once shown, stays. */
  lemma {:induction false} IdentitySince(base: string, machines: seq<Machine>, events: seq<Event>, k: nat, i: nat)
    requires MachineExecution(base, machines, events) && i < |machines|
    requires LastSync(machines, events, i) <= k <= i
    requires forall j :: 0 <= j < |events| ==> SafeEvent(events[j])
    ensures SameIdentity(Shown(machines[LastSync(machines, events, i)].system, base), Shown(machines[k].system, base))
  {
    var first, registers := LastSync(machines, events, i), ShownRegisters(base, machines);
    forall n: nat | first <= n < k ensures SameIdentity(registers[n], registers[n + 1]) {
      StepsSince(machines, events, n, i);
      RunKeepsIdentity(base, machines, events, n);
    }
    IdentityFrom(registers, first, k);
  }

  /** An identity that is only shown, say to a `Load`, survives every loss of power exactly when the state
      directory was there at the last start and the last successful directory sync (or start) already
      showed it. */
  lemma {:induction false} ShownIdentitySurvivesExactly(base: string, machines: seq<Machine>, events: seq<Event>,
      i: nat, id: string)
    requires MachineExecution(base, machines, events) && i < |machines| && id != ""
    requires forall k :: 0 <= k < |events| ==> SafeEvent(events[k])
    requires HasIdentity(Shown(machines[i].system, base), id)
    ensures SurvivesLoss(machines[i], base, q => HasIdentity(q, id))
       <==> && machines[LastBoot(events, i)].home.Kept?
            && HasIdentity(Shown(machines[LastSync(machines, events, i)].system, base), id)
  {
    var first := LastSync(machines, events, i);
    MachineInvariantHolds(base, machines, events, i);
    KeptSinceBoot(base, machines, events, i);
    SurvivesExactly(machines[i], base, q => HasIdentity(q, id));
    RecentRegisters(base, machines, events, i, q => HasIdentity(q, id));
    NormalFields(EMPTY_STATE);
    if HasIdentity(Shown(machines[first].system, base), id) {
      forall k: nat | first <= k <= i ensures HasIdentity(Shown(machines[k].system, base), id) {
        IdentitySince(base, machines, events, k, i);
      }
    }
  }
}
