/** internal/state/store.go under concurrency, failures and process crashes: any number of callers of
    `Load`, `Save` and `Update` on one `Store`, interleaved at every lock operation and every system
    call, each of which may fail, on a platform whose rename replaces its target. The runs refine an
    atomic register. StoreDurability adds the loss of power. */
module StoreHistory {
  import opened Text
  import opened StateCodec
  import opened StateModel
  import opened StateStore

  // ---------------------------------------------------------------- the specification

  datatype Operation = Load | Save(value: State) | Update(change: State -> Option<State>)

  /** How a call ended. `Aborted(true)`: the new file was renamed into place before the failure. */
  datatype Outcome = Returned(value: State) | Aborted(committed: bool)

  datatype Entry = Entry(caller: nat, op: Operation, outcome: Outcome)

  ghost function Changed(r: Register, change: State -> Option<State>): Option<State> {
    if r.Holds? then change(r.state) else None
  }

  /** Which outcomes the atomic register allows a call that finds it at `r`. */
  ghost predicate Legal(r: Register, op: Operation, outcome: Outcome) {
    match op
    case Load => if outcome.Returned? then r == Holds(outcome.value) else !outcome.committed
    case Save(value) => outcome.Returned? ==> outcome.value == Normalize(value)
    case Update(change) =>
      && (outcome.Returned? || outcome.committed ==> Changed(r, change).Some?)
      && (outcome.Returned? ==> outcome.value == Normalize(Changed(r, change).value))
  }

  /** The register after the call. */
  ghost function Effect(r: Register, op: Operation, outcome: Outcome): Register {
    if outcome == Aborted(false) then r
    else
      match op
      case Load => r
      case Save(value) => Holds(Normalize(value))
      case Update(change) =>
        if Changed(r, change).Some? then Holds(Normalize(Changed(r, change).value)) else r
  }

  /** The register after a whole history, one call at a time. */
  ghost function Replay(start: Register, history: seq<Entry>): Register {
    if history == [] then start
    else
      var last := history[|history| - 1];
      Effect(Replay(start, history[..|history| - 1]), last.op, last.outcome)
  }

  ghost predicate LegalHistory(start: Register, history: seq<Entry>) {
    forall k :: 0 <= k < |history| ==> Legal(Replay(start, history[..k]), history[k].op, history[k].outcome)
  }

  lemma {:induction false} ReplayExtend(start: Register, history: seq<Entry>, e: Entry)
    requires LegalHistory(start, history)
    ensures Replay(start, history + [e]) == Effect(Replay(start, history), e.op, e.outcome)
    ensures Legal(Replay(start, history), e.op, e.outcome) ==> LegalHistory(start, history + [e])
  {
    var longer := history + [e];
    assert longer[..|history|] == history;
    forall k | 0 <= k < |history| ensures longer[..k] == history[..k] && longer[k] == history[k] {
    }
  }

  /** What an update may do: nothing, or its change, reported or not. */
  lemma {:induction false} UpdateOutcomes(r: Register, change: State -> Option<State>)
    ensures Legal(r, Update(change), Aborted(false)) && Effect(r, Update(change), Aborted(false)) == r
    ensures Changed(r, change).Some? ==>
              var n := Normalize(Changed(r, change).value);
              && Legal(r, Update(change), Returned(n)) && Effect(r, Update(change), Returned(n)) == Holds(n)
              && Legal(r, Update(change), Aborted(true)) && Effect(r, Update(change), Aborted(true)) == Holds(n)
  {
  }

  // ---------------------------------------------------------------- the implementation

  /** Program points of `saveUnlocked` and `writeFileAtomic`; the argument is the temporary file. */
  datatype Stage =
    | MakeDir
    | Create
    | Chmod(temp: string)
    | WriteTemp(temp: string)
    | SyncTemp(temp: string)
    | CloseTemp(temp: string)
    | Rename(temp: string)
    | SyncDirectory
    | Remove(temp: string)
    | Finished(ok: bool, renamed: bool)

  /** The environment's answer to one system call. */
  datatype Choice = Choice(ok: bool, temp: string, written: nat)

  predicate Renamed(stage: Stage) {
    stage.SyncDirectory? || (stage.Finished? && stage.renamed)
  }

  predicate StageEnabled(stage: Stage, d: Directory, base: string, c: Choice) {
    match stage
    case Create => c.ok ==> FreshTemp(c.temp, base, d)
    case Rename(temp) => temp in d
    case Finished(_, _) => false
    case _ => true
  }

  /** One system call of a file replacement. */
  function Advance(stage: Stage, d: Directory, base: string, payload: string, c: Choice): (Directory, Stage)
    requires StageEnabled(stage, d, base, c)
  {
    match stage
    case MakeDir => (d, if c.ok then Create else Finished(false, false))
    case Create =>
      if c.ok then (d[c.temp := File("", false)], Chmod(c.temp)) else (d, Finished(false, false))
    case Chmod(temp) => (d, if c.ok then WriteTemp(temp) else Remove(temp))
    case WriteTemp(temp) =>
      if c.ok then (d[temp := File(payload, false)], SyncTemp(temp))
      else (d[temp := File(if c.written <= |payload| then payload[..c.written] else payload, false)], Remove(temp))
    case SyncTemp(temp) =>
      if c.ok then (d[temp := File(payload, true)], CloseTemp(temp)) else (d, Remove(temp))
    case CloseTemp(temp) => (d, if c.ok then Rename(temp) else Remove(temp))
    case Rename(temp) =>
      if c.ok then ((d - {temp})[base := d[temp]], SyncDirectory) else (d, Remove(temp))
    case SyncDirectory => (d, Finished(c.ok, true))
    case Remove(temp) => (if c.ok then d - {temp} else d, Finished(false, false))
  }

  /** Where one call is. Everything but `Waiting` is inside the lock. */
  datatype Phase =
    | Waiting(op: Operation)
    | Reading(op: Operation)
    | Writing(op: Operation, goal: State, repair: bool, stage: Stage)
    | Releasing(op: Operation, outcome: Outcome)

  datatype System = System(
    disk: Directory,
    owner: Option<nat>,
    calls: map<nat, Phase>,
    history: seq<Entry>)

  datatype Step =
    | Call(caller: nat, op: Operation)
    | Acquire(caller: nat)
    | Read(caller: nat, ok: bool)
    | FileCall(caller: nat, choice: Choice)
    | Settle(caller: nat)
    | Release(caller: nat)
    | Crash

  ghost function Shown(s: System, base: string): Register {
    Interpret(Content(s.disk, base))
  }

  /** The rest of `loadUnlocked` and `Update` once the state is known. */
  ghost function Loaded(op: Operation, raw: State): (p: Phase)
    ensures p.op == op
  {
    match op
    case Load => Releasing(op, Returned(Normalize(raw)))
    case Save(_) => Releasing(op, Aborted(false))
    case Update(change) =>
      match change(Normalize(raw))
      case None => Releasing(op, Aborted(false))
      case Some(next) => Writing(op, next, false, MakeDir)
  }

  ghost function AfterRead(op: Operation, content: Option<string>): (p: Phase)
    ensures p.op == op
  {
    match content
    case None => Loaded(op, EMPTY_STATE)
    case Some(text) =>
      match Decode(text)
      case Fail => Releasing(op, Aborted(false))
      case Done(raw, rest) => if Trim(rest) != "" then Writing(op, raw, true, MakeDir) else Loaded(op, raw)
  }

  ghost function AfterWriting(p: Phase): (p': Phase)
    requires p.Writing? && p.stage.Finished?
    ensures p'.op == p.op
  {
    if p.repair then
      if p.stage.ok then Loaded(p.op, p.goal) else Releasing(p.op, Aborted(false))
    else
      Releasing(p.op, if p.stage.ok then Returned(Normalize(p.goal)) else Aborted(p.stage.renamed))
  }

  /** What a crash makes of the call inside the lock. */
  ghost function Interrupted(p: Phase): Outcome {
    match p
    case Waiting(_) => Aborted(false)
    case Reading(_) => Aborted(false)
    case Writing(_, _, repair, stage) => Aborted(!repair && Renamed(stage))
    case Releasing(_, outcome) => outcome
  }

  ghost predicate Enabled(s: System, base: string, step: Step) {
    match step
    case Call(caller, _) => caller !in s.calls
    case Acquire(caller) => s.owner.None? && caller in s.calls && s.calls[caller].Waiting?
    case Read(caller, _) => caller in s.calls && s.calls[caller].Reading?
    case FileCall(caller, choice) =>
      && caller in s.calls && s.calls[caller].Writing?
      && StageEnabled(s.calls[caller].stage, s.disk, base, choice)
    case Settle(caller) => caller in s.calls && s.calls[caller].Writing? && s.calls[caller].stage.Finished?
    case Release(caller) => caller in s.calls && s.calls[caller].Releasing?
    case Crash => true
  }

  ghost function Next(s: System, base: string, step: Step): System
    requires Enabled(s, base, step)
  {
    match step
    case Call(caller, op) => s.(calls := s.calls[caller := Waiting(op)])
    case Acquire(caller) =>
      var op := s.calls[caller].op;
      var p := if op.Save? then Writing(op, op.value, false, MakeDir) else Reading(op);
      s.(owner := Some(caller), calls := s.calls[caller := p])
    case Read(caller, ok) =>
      var op := s.calls[caller].op;
      var p := if ok then AfterRead(op, Content(s.disk, base)) else Releasing(op, Aborted(false));
      s.(calls := s.calls[caller := p])
    case FileCall(caller, choice) =>
      var p := s.calls[caller];
      var (disk, stage) := Advance(p.stage, s.disk, base, Encode(Normalize(p.goal)), choice);
      s.(disk := disk, calls := s.calls[caller := p.(stage := stage)])
    case Settle(caller) => s.(calls := s.calls[caller := AfterWriting(s.calls[caller])])
    case Release(caller) =>
      var p := s.calls[caller];
      s.(owner := None, calls := s.calls - {caller}, history := s.history + [Entry(caller, p.op, p.outcome)])
    case Crash =>
      var history :=
        if s.owner.Some? && s.owner.value in s.calls
        then s.history + [Entry(s.owner.value, s.calls[s.owner.value].op, Interrupted(s.calls[s.owner.value]))]
        else s.history;
      s.(owner := None, calls := map[], history := history)
  }

  // ---------------------------------------------------------------- the invariant

  /** The call asks for `goal` when it finds the register at `r`. */
  ghost predicate Asks(op: Operation, r: Register, goal: State) {
    match op
    case Load => false
    case Save(value) => goal == value
    case Update(change) => Changed(r, change) == Some(goal)
  }

  /** What the temporary file holds at each program point. */
  ghost predicate TempReady(stage: Stage, d: Directory, base: string, payload: string) {
    match stage
    case Chmod(temp) => temp != base && temp in d
    case WriteTemp(temp) => temp != base && temp in d
    case SyncTemp(temp) => temp != base && temp in d && d[temp].content == payload
    case CloseTemp(temp) => temp != base && temp in d && d[temp] == File(payload, true)
    case Rename(temp) => temp != base && temp in d && d[temp] == File(payload, true)
    case Remove(temp) => temp != base && temp in d
    case _ => true
  }

  /** The register stands at `r`, the file shows `shown`, and `p` is the call inside the lock. */
  ghost predicate InsideOk(r: Register, p: Phase, shown: Register) {
    match p
    case Waiting(_) => false
    case Reading(op) => !op.Save? && shown == r
    case Writing(op, goal, repair, stage) =>
      && (stage.Finished? && stage.ok ==> stage.renamed)
      && (if repair then !op.Save? && r == Holds(Normalize(goal)) == shown
          else Asks(op, r, goal) && shown == if Renamed(stage) then Holds(Normalize(goal)) else r)
    case Releasing(op, outcome) => Legal(r, op, outcome) && shown == Effect(r, op, outcome)
  }

  ghost predicate FilesOk(p: Phase, d: Directory, base: string) {
    p.Writing? ==> TempReady(p.stage, d, base, Encode(Normalize(p.goal)))
  }

  ghost predicate Invariant(s: System, base: string, start: Register) {
    var r := Replay(start, s.history);
    && LegalHistory(start, s.history)
    && (forall caller :: caller in s.calls && s.owner != Some(caller) ==> s.calls[caller].Waiting?)
    && (s.owner.None? ==> Shown(s, base) == r)
    && (s.owner.Some? ==> s.owner.value in s.calls && InsideOk(r, s.calls[s.owner.value], Shown(s, base)))
    && (s.owner.Some? && s.owner.value in s.calls ==> FilesOk(s.calls[s.owner.value], s.disk, base))
  }

  predicate Owns(stage: Stage, name: string) {
    !stage.MakeDir? && !stage.Create? && !stage.SyncDirectory? && !stage.Finished? && stage.temp == name
  }

  /** One system call changes the target only by a successful rename, which installs the complete,
      synced new content; every other entry except the temporary file stays as it was. */
  lemma {:induction false} AdvanceIsAtomic(stage: Stage, d: Directory, base: string, payload: string, c: Choice)
    requires StageEnabled(stage, d, base, c) && TempReady(stage, d, base, payload)
    ensures var (d', stage') := Advance(stage, d, base, payload, c);
            && TempReady(stage', d', base, payload)
            && (Renamed(stage) ==> Renamed(stage'))
            && (stage.Rename? && c.ok ==> base in d' && d'[base] == File(payload, true))
            && (!(stage.Rename? && c.ok) ==>
                  Content(d', base) == Content(d, base) && (base in d ==> d'[base] == d[base]))
            && (Renamed(stage') <==> Renamed(stage) || (stage.Rename? && c.ok))
            && (stage'.Finished? && stage'.ok ==> stage'.renamed)
            && (forall name :: name in d && name != base && !Owns(stage, name) ==> name in d' && d'[name] == d[name])
  {
  }

  /** What a given environment answers at each program point. */
  function Answer(stage: Stage, e: Environment): Choice {
    match stage
    case MakeDir => Choice(e.mkdir, "", 0)
    case Create => Choice(e.create, e.temp, 0)
    case Chmod(_) => Choice(e.chmod, "", 0)
    case WriteTemp(_) => Choice(e.write, "", e.written)
    case SyncTemp(_) => Choice(e.sync, "", 0)
    case CloseTemp(_) => Choice(e.close, "", 0)
    case Rename(_) => Choice(e.rename, "", 0)
    case SyncDirectory => Choice(e.syncDir, "", 0)
    case Remove(_) => Choice(e.removeTemp, "", 0)
    case Finished(_, _) => Choice(false, "", 0)
  }

  function Remaining(stage: Stage): nat {
    match stage
    case MakeDir => 9
    case Create => 8
    case Chmod(_) => 7
    case WriteTemp(_) => 6
    case SyncTemp(_) => 5
    case CloseTemp(_) => 4
    case Rename(_) => 3
    case SyncDirectory => 2
    case Remove(_) => 1
    case Finished(_, _) => 0
  }

  /** The system calls from a program point to the end of the replacement. */
  function Finish(stage: Stage, d: Directory, base: string, payload: string, e: Environment): (Directory, Stage)
    decreases Remaining(stage)
  {
    if !StageEnabled(stage, d, base, Answer(stage, e)) then (d, stage)
    else
      var (d', stage') := Advance(stage, d, base, payload, Answer(stage, e));
      Finish(stage', d', base, payload, e)
  }

  lemma {:induction false} FinishUnfolds(stage: Stage, d: Directory, base: string, payload: string, e: Environment)
    requires StageEnabled(stage, d, base, Answer(stage, e))
    ensures var (d', stage') := Advance(stage, d, base, payload, Answer(stage, e));
            Finish(stage, d, base, payload, e) == Finish(stage', d', base, payload, e)
  {
  }

  lemma {:induction false} FinishRemove(d: Directory, base: string, payload: string, e: Environment)
    ensures Finish(Remove(e.temp), d, base, payload, e)
         == (if e.removeTemp then d - {e.temp} else d, Finished(false, false))
  {
    FinishUnfolds(Remove(e.temp), d, base, payload, e);
  }

  lemma {:induction false} FinishRename(d: Directory, base: string, payload: string, e: Environment)
    requires e.temp in d && e.temp != base
    ensures Finish(Rename(e.temp), d, base, payload, e)
         == if e.rename then ((d - {e.temp})[base := d[e.temp]], Finished(e.syncDir, true))
            else (if e.removeTemp then d - {e.temp} else d, Finished(false, false))
  {
    FinishUnfolds(Rename(e.temp), d, base, payload, e);
    if e.rename {
      FinishUnfolds(SyncDirectory, (d - {e.temp})[base := d[e.temp]], base, payload, e);
    } else {
      FinishRemove(d, base, payload, e);
    }
  }

  /** The directory with the temporary file at some content, and without it. */
  lemma {:induction false} TempFacts(d: Directory, temp: string, base: string, a: File, b: File)
    requires temp !in d && temp != base
    ensures d[temp := a][temp := b] == d[temp := b] && d[temp := a] - {temp} == d
    ensures (d[temp := a] - {temp})[base := d[temp := a][temp]] == d[base := a]
  {
    assert d[temp := a] - {temp} == d;
  }

  lemma {:induction false} FinishSynced(d: Directory, base: string, payload: string, e: Environment)
    requires FreshTemp(e.temp, base, d) && e.sync
    ensures Finish(CloseTemp(e.temp), d[e.temp := File(payload, true)], base, payload, e)
         == if e.close && e.rename then (d[base := File(payload, true)], Finished(e.syncDir, true))
            else (if e.removeTemp then d else d[e.temp := File(payload, true)], Finished(false, false))
  {
    var full := d[e.temp := File(payload, true)];
    TempFacts(d, e.temp, base, File(payload, true), File(payload, true));
    FinishUnfolds(CloseTemp(e.temp), full, base, payload, e);
    if e.close {
      FinishRename(full, base, payload, e);
    } else {
      FinishRemove(full, base, payload, e);
    }
  }

  lemma {:induction false} FinishWritten(d: Directory, base: string, payload: string, e: Environment)
    requires FreshTemp(e.temp, base, d) && e.create && e.chmod && e.write
    ensures Finish(SyncTemp(e.temp), d[e.temp := File(payload, false)], base, payload, e)
         == (AfterWrite(d, base, payload, e, false), Finished(Replaced(e, false) && e.syncDir, Replaced(e, false)))
  {
    var part := d[e.temp := File(payload, false)];
    TempFacts(d, e.temp, base, File(payload, false), File(payload, true));
    FinishUnfolds(SyncTemp(e.temp), part, base, payload, e);
    if e.sync {
      FinishSynced(d, base, payload, e);
    } else {
      FinishRemove(part, base, payload, e);
    }
  }

  lemma {:induction false} FinishCreated(d: Directory, base: string, payload: string, e: Environment)
    requires FreshTemp(e.temp, base, d) && e.create
    ensures Finish(Chmod(e.temp), d[e.temp := File("", false)], base, payload, e)
         == (AfterWrite(d, base, payload, e, false), Finished(Replaced(e, false) && e.syncDir, Replaced(e, false)))
  {
    var blank, rest := d[e.temp := File("", false)], File(WrittenPart(e, payload), false);
    TempFacts(d, e.temp, base, File("", false), rest);
    TempFacts(d, e.temp, base, rest, rest);
    FinishUnfolds(Chmod(e.temp), blank, base, payload, e);
    if !e.chmod {
      FinishRemove(blank, base, payload, e);
    } else {
      FinishUnfolds(WriteTemp(e.temp), blank, base, payload, e);
      if e.write {
        FinishWritten(d, base, payload, e);
      } else {
        FinishRemove(d[e.temp := rest], base, payload, e);
      }
    }
  }

  /** The two accounts of one replacement agree: running the program points with an environment's answers
      ends in the directory and the outcome that `Store.WriteFileAtomic` specifies. */
  lemma {:induction false} FinishIsAfterWrite(d: Directory, base: string, payload: string, e: Environment)
    requires FreshTemp(e.temp, base, d)
    ensures Finish(Create, d, base, payload, e)
         == (AfterWrite(d, base, payload, e, false), Finished(Replaced(e, false) && e.syncDir, Replaced(e, false)))
  {
    FinishUnfolds(Create, d, base, payload, e);
    if e.create {
      FinishCreated(d, base, payload, e);
    }
  }

  lemma {:induction false} LoadedOk(r: Register, op: Operation, raw: State)
    requires !op.Save? && r == Holds(Normalize(raw))
    ensures InsideOk(r, Loaded(op, raw), r)
  {
    if op.Update? && op.change(Normalize(raw)).Some? {
      assert Changed(r, op.change) == op.change(Normalize(raw));
    }
  }

  lemma {:induction false} ReadOk(r: Register, op: Operation, content: Option<string>)
    requires !op.Save? && Interpret(content) == r
    ensures InsideOk(r, AfterRead(op, content), r)
    ensures AfterRead(op, content).Writing? ==> AfterRead(op, content).stage.MakeDir?
  {
    if content.None? {
      LoadedOk(r, op, EMPTY_STATE);
    } else if Decode(content.value).Done? && Trim(Decode(content.value).rest) == "" {
      LoadedOk(r, op, Decode(content.value).value);
    }
  }

  lemma {:induction false} FileCallOk(r: Register, p: Phase, d: Directory, base: string, c: Choice)
    requires p.Writing? && StageEnabled(p.stage, d, base, c) && FilesOk(p, d, base)
    requires InsideOk(r, p, Interpret(Content(d, base)))
    ensures var (d', stage) := Advance(p.stage, d, base, Encode(Normalize(p.goal)), c);
            InsideOk(r, p.(stage := stage), Interpret(Content(d', base))) && FilesOk(p.(stage := stage), d', base)
  {
    AdvanceIsAtomic(p.stage, d, base, Encode(Normalize(p.goal)), c);
    NormalizedStateReads(p.goal);
  }

  lemma {:induction false} WrittenOk(r: Register, op: Operation, goal: State, renamed: bool, ok: bool)
    requires Asks(op, r, goal) && (ok ==> renamed)
    ensures var outcome := if ok then Returned(Normalize(goal)) else Aborted(renamed);
            Legal(r, op, outcome) && Effect(r, op, outcome) == if renamed then Holds(Normalize(goal)) else r
  {
  }

  lemma {:induction false} SettleOk(r: Register, p: Phase, shown: Register)
    requires p.Writing? && p.stage.Finished? && InsideOk(r, p, shown)
    ensures InsideOk(r, AfterWriting(p), shown)
    ensures AfterWriting(p).Writing? ==> AfterWriting(p).stage.MakeDir?
  {
    if !p.repair {
      WrittenOk(r, p.op, p.goal, p.stage.renamed, p.stage.ok);
    } else if p.stage.ok {
      LoadedOk(r, p.op, p.goal);
    } else {
      assert AfterWriting(p) == Releasing(p.op, Aborted(false));
    }
  }

  lemma {:induction false} InterruptedOk(r: Register, p: Phase, shown: Register)
    requires InsideOk(r, p, shown)
    ensures Legal(r, p.op, Interrupted(p))
    ensures shown == Effect(r, p.op, Interrupted(p))
  {
  }

  /** The caller inside the lock may move to any phase that is right for the same register. */
  lemma {:induction false} InsideMove(s: System, base: string, start: Register, disk: Directory, caller: nat, p: Phase)
    requires Invariant(s, base, start) && s.owner == Some(caller) && !p.Waiting?
    requires InsideOk(Replay(start, s.history), p, Interpret(Content(disk, base))) && FilesOk(p, disk, base)
    ensures Invariant(s.(disk := disk, calls := s.calls[caller := p]), base, start)
  {
  }

  lemma {:induction false} AcquireKeepsInvariant(s: System, base: string, start: Register, caller: nat)
    requires Invariant(s, base, start) && Enabled(s, base, Acquire(caller))
    ensures Invariant(Next(s, base, Acquire(caller)), base, start)
  {
  }

  lemma {:induction false} LeaveKeepsInvariant(s: System, base: string, start: Register, step: Step)
    requires Invariant(s, base, start) && Enabled(s, base, step) && (step.Release? || step.Crash?)
    ensures Invariant(Next(s, base, step), base, start)
  {
    if s.owner.Some? {
      var p := s.calls[s.owner.value];
      InterruptedOk(Replay(start, s.history), p, Shown(s, base));
      ReplayExtend(start, s.history, Entry(s.owner.value, p.op, Interrupted(p)));
    }
  }

  /** Every step of every caller, and every crash, keeps the invariant. */
  lemma {:induction false} StepKeepsInvariant(s: System, base: string, start: Register, step: Step)
    requires Invariant(s, base, start) && Enabled(s, base, step)
    ensures Invariant(Next(s, base, step), base, start)
  {
    var r := Replay(start, s.history);
    match step {
      case Call(_, _) =>
      case Acquire(caller) =>
        AcquireKeepsInvariant(s, base, start, caller);
      case Read(caller, ok) =>
        var op := s.calls[caller].op;
        ReadOk(r, op, Content(s.disk, base));
        InsideMove(s, base, start, s.disk, caller,
                   if ok then AfterRead(op, Content(s.disk, base)) else Releasing(op, Aborted(false)));
      case FileCall(caller, choice) =>
        var p := s.calls[caller];
        FileCallOk(r, p, s.disk, base, choice);
        var (disk, stage) := Advance(p.stage, s.disk, base, Encode(Normalize(p.goal)), choice);
        InsideMove(s, base, start, disk, caller, p.(stage := stage));
      case Settle(caller) =>
        SettleOk(r, s.calls[caller], Shown(s, base));
        InsideMove(s, base, start, s.disk, caller, AfterWriting(s.calls[caller]));
      case Release(_) =>
        LeaveKeepsInvariant(s, base, start, step);
      case Crash =>
        LeaveKeepsInvariant(s, base, start, step);
    }
  }

  // ---------------------------------------------------------------- whole runs

  ghost predicate Execution(base: string, states: seq<System>, steps: seq<Step>) {
    && |states| == |steps| + 1
    && states[0].owner.None? && states[0].calls == map[] && states[0].history == []
    && forall i :: 0 <= i < |steps| ==>
         Enabled(states[i], base, steps[i]) && states[i + 1] == Next(states[i], base, steps[i])
  }

  lemma {:induction false} InvariantHolds(base: string, states: seq<System>, steps: seq<Step>, i: nat)
    requires Execution(base, states, steps) && i < |states|
    ensures Invariant(states[i], base, Shown(states[0], base))
  {
    if i > 0 {
      InvariantHolds(base, states, steps, i - 1);
      StepKeepsInvariant(states[i - 1], base, Shown(states[0], base), steps[i - 1]);
    }
  }

  /** The one call inside the lock whose change is already visible. */
  ghost predicate InFlight(s: System, base: string, r: Register) {
    && s.owner.Some? && s.owner.value in s.calls
    && var p := s.calls[s.owner.value];
       Legal(r, p.op, Interrupted(p)) && Shown(s, base) == Effect(r, p.op, Interrupted(p))
  }

  /** Linearisation. At every moment of every run the finished calls, in the order in which they left
      the lock, form a legal history of an atomic register that starts at the first file content.
      Outside the lock the file shows exactly that register; inside, it shows the register or the
      effect of the one call holding the lock, so a crash there is an atomic outcome of that call. */
  lemma {:induction false} Linearizable(base: string, states: seq<System>, steps: seq<Step>, i: nat)
    requires Execution(base, states, steps) && i < |states|
    ensures LegalHistory(Shown(states[0], base), states[i].history)
    ensures var r := Replay(Shown(states[0], base), states[i].history);
            if states[i].owner.None? then Shown(states[i], base) == r
            else InFlight(states[i], base, r)
  {
    InvariantHolds(base, states, steps, i);
    var s := states[i];
    if s.owner.Some? {
      InterruptedOk(Replay(Shown(states[0], base), s.history), s.calls[s.owner.value], Shown(s, base));
    }
  }

  /** The order of finished calls never changes, so a call that returned before another was made
      precedes it in the history. */
  lemma {:induction false} HistoryGrows(base: string, states: seq<System>, steps: seq<Step>, i: nat, j: nat)
    requires Execution(base, states, steps) && i <= j < |states|
    ensures states[i].history <= states[j].history
    decreases j - i
  {
    if i < j {
      HistoryGrows(base, states, steps, i, j - 1);
    }
  }

  /** A successful or committed update is built on everything before it and undone by nothing but a
      later call: its value is its change applied to the register as all earlier calls left it. */
  lemma {:induction false} NoUpdateIsLost(base: string, states: seq<System>, steps: seq<Step>, i: nat, k: nat)
    requires Execution(base, states, steps) && i < |states| && k < |states[i].history|
    requires states[i].history[k].op.Update? && states[i].history[k].outcome != Aborted(false)
    ensures var h := states[i].history;
            var start := Shown(states[0], base);
            var before := Replay(start, h[..k]);
            && Changed(before, h[k].op.change).Some?
            && Replay(start, h[..k + 1]) == Holds(Normalize(Changed(before, h[k].op.change).value))
            && (h[k].outcome.Returned? ==> Replay(start, h[..k + 1]) == Holds(h[k].outcome.value))
  {
    Linearizable(base, states, steps, i);
    var h := states[i].history;
    assert h[..k + 1][..k] == h[..k];
    assert Legal(Replay(Shown(states[0], base), h[..k]), h[k].op, h[k].outcome);
  }

  /** A failed update changes the register only when the rename succeeded and the directory sync
      after it was the one call that failed. */
  lemma {:induction false} FailedUpdateIsInvisible(s: System, base: string, start: Register, caller: nat, step: Step)
    requires Invariant(s, base, start) && Enabled(s, base, step) && step == Settle(caller)
    requires s.calls[caller].op.Update? && !s.calls[caller].stage.ok
    ensures var p := s.calls[caller];
            var s' := Next(s, base, step);
            && s'.calls[caller] == Releasing(p.op, Aborted(!p.repair && p.stage.renamed))
            && Shown(s', base) == (if !p.repair && p.stage.renamed then Holds(Normalize(p.goal))
                                   else Replay(start, s.history))
  {
    assert s.owner == Some(caller);
  }

  /** At every moment of every run, whatever failed and wherever the process crashed, the state file is the
      initial one, untouched, or one complete and synced encoding of a normalised state. */
  lemma {:induction false} TargetIsNeverPartial(base: string, states: seq<System>, steps: seq<Step>, i: nat)
    requires Execution(base, states, steps) && i < |states|
    ensures var d0, d := states[0].disk, states[i].disk;
            || (base !in d0 && base !in d)
            || (base in d0 && base in d && d[base] == d0[base])
            || (base in d && exists s: State :: d[base] == File(Encode(Normalize(s)), true))
  {
    if i > 0 {
      TargetIsNeverPartial(base, states, steps, i - 1);
      InvariantHolds(base, states, steps, i - 1);
      var s, step := states[i - 1], steps[i - 1];
      if step.FileCall? {
        var p := s.calls[step.caller];
        AdvanceIsAtomic(p.stage, s.disk, base, Encode(Normalize(p.goal)), step.choice);
      } else {
        assert states[i].disk == s.disk;
      }
    }
  }

  // ---------------------------------------------------------------- identity

  /** Calls that cannot replace an identity: reads, and updates with identity-keeping callbacks. */
  ghost predicate IdentitySafe(op: Operation) {
    op.Load? || (op.Update? && KeepsIdentity(op.change))
  }

  ghost predicate AllSafe(s: System) {
    forall caller :: caller in s.calls ==> IdentitySafe(s.calls[caller].op)
  }

  ghost predicate SameIdentity(r: Register, r': Register) {
    r.Holds? && r.state.runtimeId != "" ==> r'.Holds? && r'.state.runtimeId == r.state.runtimeId
  }

  lemma {:induction false} ShownIsNormal(content: Option<string>)
    ensures Interpret(content).Holds? ==> Normal(Interpret(content).state)
  {
    match content {
      case None => NormalizeIdempotent(EMPTY_STATE);
      case Some(text) =>
        if Decode(text).Done? {
          NormalizeIdempotent(Decode(text).value);
        }
    }
  }

  lemma {:induction false} FileCallKeepsIdentity(r: Register, p: Phase, d: Directory, base: string, c: Choice)
    requires p.Writing? && StageEnabled(p.stage, d, base, c) && IdentitySafe(p.op)
    requires InsideOk(r, p, Interpret(Content(d, base))) && FilesOk(p, d, base)
    ensures SameIdentity(Interpret(Content(d, base)),
                         Interpret(Content(Advance(p.stage, d, base, Encode(Normalize(p.goal)), c).0, base)))
  {
    AdvanceIsAtomic(p.stage, d, base, Encode(Normalize(p.goal)), c);
    NormalizedStateReads(p.goal);
    ShownIsNormal(Content(d, base));
  }

  lemma {:induction false} StepKeepsSafe(s: System, base: string, step: Step)
    requires Enabled(s, base, step) && AllSafe(s)
    requires step.Call? ==> IdentitySafe(step.op)
    ensures AllSafe(Next(s, base, step))
    ensures !step.FileCall? ==> Next(s, base, step).disk == s.disk
  {
  }

  lemma {:induction false} StepKeepsIdentity(s: System, base: string, start: Register, step: Step)
    requires Invariant(s, base, start) && Enabled(s, base, step) && AllSafe(s)
    requires step.Call? ==> IdentitySafe(step.op)
    ensures SameIdentity(Shown(s, base), Shown(Next(s, base, step), base))
  {
    if step.FileCall? {
      FileCallKeepsIdentity(Replay(start, s.history), s.calls[step.caller], s.disk, base, step.choice);
    } else {
      StepKeepsSafe(s, base, step);
    }
  }

  lemma {:induction false} SafeThroughout(base: string, states: seq<System>, steps: seq<Step>, j: nat)
    requires Execution(base, states, steps) && j < |states|
    requires forall k :: 0 <= k < |steps| && steps[k].Call? ==> IdentitySafe(steps[k].op)
    ensures AllSafe(states[j])
  {
    if j > 0 {
      SafeThroughout(base, states, steps, j - 1);
      StepKeepsSafe(states[j - 1], base, steps[j - 1]);
    }
  }

  lemma {:induction false} IdentityStep(base: string, states: seq<System>, steps: seq<Step>, k: nat)
    requires Execution(base, states, steps) && k < |steps|
    requires forall i :: 0 <= i < |steps| && steps[i].Call? ==> IdentitySafe(steps[i].op)
    ensures SameIdentity(Shown(states[k], base), Shown(states[k + 1], base))
  {
    InvariantHolds(base, states, steps, k);
    SafeThroughout(base, states, steps, k);
    StepKeepsIdentity(states[k], base, Shown(states[0], base), steps[k]);
  }

  lemma {:induction false} IdentityAlong(registers: seq<Register>, i: nat, j: nat)
    requires i <= j < |registers|
    requires forall k: nat :: k + 1 < |registers| ==> SameIdentity(registers[k], registers[k + 1])
    ensures SameIdentity(registers[i], registers[j])
    decreases j - i
  {
    if i < j {
      IdentityAlong(registers, i, j - 1);
      assert SameIdentity(registers[j - 1], registers[j - 1 + 1]);
    }
  }

  /** The runtime identity is permanent: in any run whose updates are identity-keeping, with any
      failures and any process crashes, once the file shows a non-empty identity it shows that identity
      at every later moment, also in the middle of a replacement. */
  lemma {:induction false} IdentityIsPermanent(base: string, states: seq<System>, steps: seq<Step>, i: nat, j: nat)
    requires Execution(base, states, steps) && i <= j < |states|
    requires forall k :: 0 <= k < |steps| && steps[k].Call? ==> IdentitySafe(steps[k].op)
    ensures SameIdentity(Shown(states[i], base), Shown(states[j], base))
  {
    var registers := seq(|states|, k requires 0 <= k < |states| => Shown(states[k], base));
    forall k: nat | k + 1 < |registers| ensures SameIdentity(registers[k], registers[k + 1]) {
      IdentityStep(base, states, steps, k);
    }
    IdentityAlong(registers, i, j);
  }

  /** A raw `Save` is the one call that can replace an identity, so the condition above is needed. */
  lemma {:induction false} SaveCanReplaceIdentity()
    ensures exists r: Register, op: Operation, outcome: Outcome ::
              Legal(r, op, outcome) && !SameIdentity(r, Effect(r, op, outcome))
  {
    var a, b := EMPTY_STATE.(runtimeId := "a"), EMPTY_STATE.(runtimeId := "b");
    assert Legal(Holds(a), Save(b), Returned(Normalize(b)));
    assert Normalize(b).runtimeId == "b";
    assert !SameIdentity(Holds(a), Effect(Holds(a), Save(b), Returned(Normalize(b))));
  }
}
