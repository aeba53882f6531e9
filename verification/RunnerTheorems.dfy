/** What the invariants of RunnerSafety mean for whole runs of the daemon. */
module RunnerTheorems {
  import opened Text
  import opened StateCodec
  import opened StateModel
  import opened Heartbeat
  import opened Session
  import opened RunnerModel
  import opened RunnerSafety
  import StoreHistory

  // ---------------------------------------------------------------- reconnect

  /** No lost reconnect. In every interleaving, an attempt that loaded its state before the latest
      successful token command still has a signal waiting for it (in the channel, or about to be sent),
      and it loaded after every signal consumed so far. So an attempt whose token differs from the
      stored one has a signal coming, unless the token was last changed by a command that reported
      failure after its file was already in place. */
  lemma {:induction false} NoLostReconnect(cfg: Config, states: seq<Runner>, steps: seq<Step>, i: nat)
    requires Execution(cfg, states, steps) && i < |states| && Attached(states[i].pc)
    ensures states[i].loadedVersion < states[i].announcedVersion ==> SignalPending(states[i])
    ensures states[i].consumedVersion <= states[i].loadedVersion
    ensures states[i].loadedToken != Token(states[i].register) ==>
              || SignalPending(states[i])
              || states[i].announcedVersion <= states[i].loadedVersion < states[i].silentVersion
  {
    InvariantHolds(cfg, states, steps, i);
  }

  // ---------------------------------------------------------------- what strands an attempt

  /** A token command whose file is in place although it reports failure: its directory sync failed. */
  predicate SyncFails(step: Step) {
    step.TokenCommand? && step.choice.FailsAfterRename?
  }

  /** The token a command asks for; a clear-token command asks for none. */
  function NewToken(token: Option<string>): string {
    if token.Some? then Trim(token.value) else ""
  }

  /** The command gets as far as writing, and what it writes is another token than the stored one. */
  predicate ChangesToken(r: Register, token: Option<string>, newId: Option<Uuid>) {
    && r.Holds? && (r.state.runtimeId != "" || newId.Some?)
    && (token.Some? ==> NewToken(token) != "")
    && NewToken(token) != Token(r)
  }

  /** The command's callback succeeds and asks for exactly the new token. */
  lemma {:induction false} SetTokenStores(s: State, token: string, newId: Option<Uuid>)
    requires Trim(s.runtimeId) == s.runtimeId
    ensures var stored := Mutated(SetToken(token, newId), s);
            && (stored.Some? <==> s.runtimeId != "" || newId.Some?)
            && (stored.Some? ==> stored.value.runtimeToken == Trim(token))
  {
    var changed := Mutate(SetToken(token, newId), s);
    if changed.Some? {
      NormalFields(changed.value);
    }
  }

  lemma {:induction false} ClearTokenStores(s: State, newId: Option<Uuid>)
    requires Trim(s.runtimeId) == s.runtimeId
    ensures var stored := Mutated(ClearToken(newId), s);
            && (stored.Some? <==> s.runtimeId != "" || newId.Some?)
            && (stored.Some? ==> stored.value.runtimeToken == "")
  {
    var changed := Mutate(ClearToken(newId), s);
    if changed.Some? {
      NormalFields(changed.value);
    }
  }

  /** The update of a token command: the file changes its token exactly when the command asks for another
      one and gets as far as the rename. */
  lemma {:induction false} TokenUpdateStores(r: Register, token: Option<string>, newId: Option<Uuid>, c: StoreChoice)
    requires RegisterTrimmed(r) && (token.Some? ==> NewToken(token) != "")
    ensures var u := UpdateRegister(r, if token.Some? then SetToken(NewToken(token), newId) else ClearToken(newId), c);
            && (u.result.Some? ==> c.Commits?)
            && (Token(u.register) != Token(r) <==> ChangesToken(r, token, newId) && !c.FailsBefore?)
            && (c.Commits? && ChangesToken(r, token, newId) ==> u.result.Some?)
  {
    if r.Holds? {
      SetTokenStores(r.state, NewToken(token), newId);
      ClearTokenStores(r.state, newId);
    }
  }

  /** What a token command does to the stored token. */
  lemma {:induction false} TokenCommandStores(cfg: Config, s: Runner, step: Step)
    requires ControlEnabled(s, step) && step.TokenCommand? && RegisterTrimmed(s.register)
    ensures var u := StoreStep(cfg, s, step);
            && (u.result.Some? ==> step.choice.Commits?)
            && (Token(u.register) != Token(s.register) <==>
                  ChangesToken(s.register, step.token, step.newId) && !step.choice.FailsBefore?)
            && (step.choice.Commits? && ChangesToken(s.register, step.token, step.newId) ==> u.result.Some?)
  {
    if step.token.None? || NewToken(step.token) != "" {
      TokenUpdateStores(s.register, step.token, step.newId, step.choice);
    }
  }

  /** Exactly which token commands strand an attempt. From a state where the attempt carries the stored
      token and no signal is due, a token command leaves it with a stale token and no signal coming if
      and only if the command changes the token and its directory sync fails after the rename. */
  lemma {:induction false} CommandStrandsExactly(cfg: Config, s: Runner, step: Step)
    requires ControlEnabled(s, step) && step.TokenCommand? && RegisterTrimmed(s.register)
    requires s.loadedToken == Token(s.register) && !SignalPending(s)
    ensures var t := Next(cfg, s, step);
            (t.loadedToken != Token(t.register) && !SignalPending(t))
            <==> SyncFails(step) && ChangesToken(s.register, step.token, step.newId)
  {
    TokenCommandStores(cfg, s, step);
    var u := StoreStep(cfg, s, step);
    var t := NextControl(s, u, step);
    assert Next(cfg, s, step) == t;
    if u.result.Some? {
      assert step.thread in t.control && t.control[step.thread].Signalling?;
    }
  }

  /** One step back from an attempt with a stale token and nothing announced since it loaded: either the
      attempt was stale already, or this very step is a command that strands it. */
  lemma {:induction false} StaleStep(cfg: Config, s: Runner, step: Step)
    requires Enabled(s, step) && RegisterTrimmed(s.register) && s.loadedVersion <= s.tokenVersion
    requires var t := Next(cfg, s, step);
             Attached(t.pc) && t.loadedToken != Token(t.register) && t.announcedVersion <= t.loadedVersion
    ensures var t := Next(cfg, s, step);
            && Attached(s.pc) && s.loadedToken == t.loadedToken && s.loadedVersion == t.loadedVersion
            && s.announcedVersion <= s.loadedVersion
            && (s.loadedToken == Token(s.register) ==>
                  SyncFails(step) && ChangesToken(s.register, step.token, step.newId))
  {
    if LoopEnabled(s, step) {
      var u := NextCases(cfg, s, step);
      StaleLoopStep(cfg, s, u, step);
    } else if WorldEnabled(s, step) {
      WorldKeepsAttempt(s, step);
    } else {
      StaleControlStep(cfg, s, step);
    }
  }

  lemma {:induction false} StaleLoopStep(cfg: Config, s: Runner, u: Stored, step: Step)
    requires LoopEnabled(s, step) && UpdateOk(s, u, step)
    ensures var t := if IsSelect(step) then NextSelect(cfg, s, step) else NextConnect(cfg, s, u, step);
            Attached(t.pc) && t.loadedToken != Token(t.register) ==> KeepsAttempt(s, t)
  {
    if IsSelect(step) {
      SelectKeepsAttempt(cfg, s, step);
    } else if step.Ensures? {
      EnsureLoads(cfg, s, u, step);
    } else if RunnerSafety.Connecting(step) {
      ConnectingKeepsAttempt(cfg, s, u, step);
    } else if !step.SleepSignal? {
      EndingKeepsAttempt(cfg, s, u, step);
    }
  }

  lemma {:induction false} EnsureLoads(cfg: Config, s: Runner, u: Stored, step: Step)
    requires LoopEnabled(s, step) && step.Ensures? && UpdateOk(s, u, step)
    ensures var t := NextConnect(cfg, s, u, step);
            Attached(t.pc) ==>
              t.loadedToken == Token(t.register) == Token(s.register) && t.loadedVersion == s.tokenVersion
  {
  }

  /** Nothing was announced, so a token command changed the attempt's view only by failing to say so. */
  lemma {:induction false} StaleCommand(s: Runner, u: Stored, step: Step)
    requires ControlEnabled(s, step) && step.TokenCommand? && s.loadedVersion <= s.tokenVersion
    requires NextControl(s, u, step).announcedVersion <= NextControl(s, u, step).loadedVersion
    ensures var t := NextControl(s, u, step);
            && u.result.None? && t.announcedVersion == s.announcedVersion
            && (t.register == s.register || t.register == u.register)
  {
  }

  lemma {:induction false} ControlKeepsLoad(s: Runner, u: Stored, step: Step)
    requires ControlEnabled(s, step)
    ensures var t := NextControl(s, u, step);
            && t.pc == s.pc && t.loadedToken == s.loadedToken && t.loadedVersion == s.loadedVersion
            && (!step.TokenCommand? ==> t.register == s.register && t.announcedVersion == s.announcedVersion)
  {
  }

  lemma {:induction false} StaleControlStep(cfg: Config, s: Runner, step: Step)
    requires ControlEnabled(s, step) && RegisterTrimmed(s.register) && s.loadedVersion <= s.tokenVersion
    requires var t := NextControl(s, StoreStep(cfg, s, step), step);
             Attached(t.pc) && t.loadedToken != Token(t.register) && t.announcedVersion <= t.loadedVersion
    ensures var t := NextControl(s, StoreStep(cfg, s, step), step);
            && Attached(s.pc) && s.loadedToken == t.loadedToken && s.loadedVersion == t.loadedVersion
            && s.announcedVersion <= s.loadedVersion
            && (s.loadedToken == Token(s.register) ==>
                  SyncFails(step) && ChangesToken(s.register, step.token, step.newId))
  {
    var u := StoreStep(cfg, s, step);
    ControlKeepsLoad(s, u, step);
    if step.TokenCommand? {
      TokenCommandStores(cfg, s, step);
      StaleCommand(s, u, step);
    }
  }

  /** `StaleStep` along a run. */
  ghost predicate StaleBackwards(states: seq<Runner>, steps: seq<Step>, k: nat)
    requires k < |steps| && |states| == |steps| + 1
  {
    var s, t := states[k], states[k + 1];
    Attached(t.pc) && t.loadedToken != Token(t.register) && t.announcedVersion <= t.loadedVersion ==>
      && Attached(s.pc) && s.loadedToken == t.loadedToken && s.loadedVersion == t.loadedVersion
      && s.announcedVersion <= s.loadedVersion
      && (s.loadedToken == Token(s.register) ==>
            SyncFails(steps[k]) && ChangesToken(s.register, steps[k].token, steps[k].newId))
  }

  lemma {:induction false} RunsAreStaleBackwards(cfg: Config, states: seq<Runner>, steps: seq<Step>, k: nat)
    requires Execution(cfg, states, steps) && k < |steps|
    ensures StaleBackwards(states, steps, k)
  {
    InvariantHolds(cfg, states, steps, k);
    var s, t := states[k], states[k + 1];
    if Attached(t.pc) && t.loadedToken != Token(t.register) && t.announcedVersion <= t.loadedVersion {
      StaleStep(cfg, s, steps[k]);
    }
  }

  lemma {:induction false} StrandedFrom(states: seq<Runner>, steps: seq<Step>, i: nat) returns (k: nat)
    requires |states| == |steps| + 1 && i < |states| && !Attached(states[0].pc) && Attached(states[i].pc)
    requires forall k: nat :: k < |steps| ==> StaleBackwards(states, steps, k)
    requires states[i].loadedToken != Token(states[i].register)
    requires states[i].announcedVersion <= states[i].loadedVersion
    ensures k < i && Attached(states[k].pc) && states[k].loadedVersion == states[i].loadedVersion
    ensures SyncFails(steps[k]) && ChangesToken(states[k].register, steps[k].token, steps[k].newId)
  {
    assert StaleBackwards(states, steps, i - 1);
    if states[i - 1].loadedToken == Token(states[i - 1].register) {
      k := i - 1;
    } else {
      k := StrandedFrom(states, steps, i - 1);
    }
  }

  /** The cause of a lost reconnect. In any run, an attempt with a stale token and no signal coming was
      stranded by one command after it loaded: a token change whose directory sync failed. */
  lemma {:induction false} StrandedByOneCommand(cfg: Config, states: seq<Runner>, steps: seq<Step>, i: nat)
      returns (k: nat)
    requires Execution(cfg, states, steps) && i < |states| && Attached(states[i].pc)
    requires states[i].loadedToken != Token(states[i].register)
    requires !SignalPending(states[i])
    ensures k < i && Attached(states[k].pc) && states[k].loadedVersion == states[i].loadedVersion
    ensures SyncFails(steps[k]) && ChangesToken(states[k].register, steps[k].token, steps[k].newId)
  {
    NoLostReconnect(cfg, states, steps, i);
    forall k: nat | k < |steps| ensures StaleBackwards(states, steps, k) {
      RunsAreStaleBackwards(cfg, states, steps, k);
    }
    k := StrandedFrom(states, steps, i);
  }

  /** While no token change's directory sync fails, there is no exception: an attempt whose token is not
      the stored one has a signal in the channel or about to be sent. */
  lemma {:induction false} StaleTokenIsSignalled(cfg: Config, states: seq<Runner>, steps: seq<Step>, i: nat)
    requires Execution(cfg, states, steps) && i < |states| && Attached(states[i].pc)
    requires forall k :: 0 <= k < i && SyncFails(steps[k]) ==>
                !ChangesToken(states[k].register, steps[k].token, steps[k].newId)
    ensures states[i].loadedToken != Token(states[i].register) ==> SignalPending(states[i])
  {
    if states[i].loadedToken != Token(states[i].register) && !SignalPending(states[i]) {
      var k := StrandedByOneCommand(cfg, states, steps, i);
    }
  }

  // ---------------------------------------------------------------- what a consumed signal brings

  predicate Consumes(step: Step) {
    step.SelectSignal? || step.SleepSignal?
  }

  /** One step back inside an attempt: the same attempt, or the step that loaded it. */
  lemma {:induction false} AttemptStep(cfg: Config, s: Runner, step: Step)
    requires Enabled(s, step) && RegisterTrimmed(s.register) && Attached(Next(cfg, s, step).pc)
    ensures var t := Next(cfg, s, step);
            && !Consumes(step)
            && (if step.Ensures? then t.loadedToken == Token(s.register) && t.loadedVersion == s.tokenVersion
                else Attached(s.pc) && t.loadedToken == s.loadedToken && t.loadedVersion == s.loadedVersion)
  {
    var u := NextCases(cfg, s, step);
    if LoopEnabled(s, step) {
      AttemptLoopStep(cfg, s, u, step);
    } else if WorldEnabled(s, step) {
      WorldKeepsAttempt(s, step);
    } else {
      ControlKeepsLoad(s, u, step);
    }
  }

  lemma {:induction false} AttemptLoopStep(cfg: Config, s: Runner, u: Stored, step: Step)
    requires LoopEnabled(s, step) && UpdateOk(s, u, step)
    ensures var t := if IsSelect(step) then NextSelect(cfg, s, step) else NextConnect(cfg, s, u, step);
            Attached(t.pc) ==>
              && !Consumes(step)
              && (if step.Ensures? then t.loadedToken == Token(s.register) && t.loadedVersion == s.tokenVersion
                  else KeepsAttempt(s, t))
  {
    if IsSelect(step) {
      SelectKeepsAttempt(cfg, s, step);
    } else if step.Ensures? {
      EnsureLoads(cfg, s, u, step);
    } else if RunnerSafety.Connecting(step) {
      ConnectingKeepsAttempt(cfg, s, u, step);
    } else if !step.SleepSignal? {
      EndingKeepsAttempt(cfg, s, u, step);
    }
  }

  /** `AttemptStep` along a run. */
  ghost predicate AttemptBackwards(states: seq<Runner>, steps: seq<Step>, k: nat)
    requires k < |steps| && |states| == |steps| + 1
  {
    var s, t := states[k], states[k + 1];
    Attached(t.pc) ==>
      && !Consumes(steps[k])
      && (if steps[k].Ensures? then t.loadedToken == Token(s.register) && t.loadedVersion == s.tokenVersion
          else Attached(s.pc) && t.loadedToken == s.loadedToken && t.loadedVersion == s.loadedVersion)
  }

  lemma {:induction false} RunsAreAttemptBackwards(cfg: Config, states: seq<Runner>, steps: seq<Step>, k: nat)
    requires Execution(cfg, states, steps) && k < |steps|
    ensures AttemptBackwards(states, steps, k)
  {
    InvariantHolds(cfg, states, steps, k);
    if Attached(states[k + 1].pc) {
      AttemptStep(cfg, states[k], steps[k]);
    }
  }

  lemma {:induction false} LoadedFrom(states: seq<Runner>, steps: seq<Step>, i: nat, j: nat) returns (k: nat)
    requires |states| == |steps| + 1 && i < j < |states| && Consumes(steps[i]) && Attached(states[j].pc)
    requires forall k: nat :: k < |steps| ==> AttemptBackwards(states, steps, k)
    ensures i < k < j && steps[k].Ensures?
    ensures states[j].loadedToken == Token(states[k].register) && states[j].loadedVersion == states[k].tokenVersion
    decreases j
  {
    assert AttemptBackwards(states, steps, j - 1);
    if steps[j - 1].Ensures? {
      k := j - 1;
    } else {
      k := LoadedFrom(states, steps, i, j - 1);
    }
  }

  /** A consumed signal is never wasted. In any run, an attempt that runs after a signal was consumed
      loaded its state after that, and carries the token stored when it did. */
  lemma {:induction false} ConsumedSignalReloads(cfg: Config, states: seq<Runner>, steps: seq<Step>, i: nat, j: nat)
      returns (k: nat)
    requires Execution(cfg, states, steps) && i < j < |states| && Consumes(steps[i]) && Attached(states[j].pc)
    ensures i < k < j && steps[k].Ensures?
    ensures states[j].loadedToken == Token(states[k].register) && states[j].loadedVersion == states[k].tokenVersion
  {
    forall k: nat | k < |steps| ensures AttemptBackwards(states, steps, k) {
      RunsAreAttemptBackwards(cfg, states, steps, k);
    }
    k := LoadedFrom(states, steps, i, j);
  }

  /** `steps` can be taken from `s` and end in `t`. */
  ghost predicate Leads(cfg: Config, s: Runner, steps: seq<Step>, t: Runner)
    decreases |steps|
  {
    if steps == [] then s == t
    else Enabled(s, steps[0]) && Leads(cfg, Next(cfg, s, steps[0]), steps[1..], t)
  }

  lemma {:induction false} LeadsThen(cfg: Config, s: Runner, steps: seq<Step>, t: Runner, step: Step)
    requires Leads(cfg, s, steps, t) && Enabled(t, step)
    ensures Leads(cfg, s, steps + [step], Next(cfg, t, step))
    decreases |steps|
  {
    if steps == [] {
      assert (steps + [step])[1..] == [];
      assert Leads(cfg, Next(cfg, s, step), [], Next(cfg, t, step));
    } else {
      assert (steps + [step])[1..] == steps[1..] + [step];
      LeadsThen(cfg, Next(cfg, s, steps[0]), steps[1..], t, step);
    }
  }

  /** Loop steps that touch neither the store nor the context. */
  lemma {:induction false} SignalToEnsure(cfg: Config, s: Runner) returns (t: Runner)
    requires s.pc.Selecting? && s.signal && s.context.Live?
    ensures Leads(cfg, s, [SelectSignal, ReconnectMarked, Classifies, Announces], t)
    ensures t.pc.Ensure? && t.register == s.register && t.tokenVersion == s.tokenVersion
  {
    assert Leads(cfg, s, [], s);
    t := Next(cfg, s, SelectSignal);
    LeadsThen(cfg, s, [], s, SelectSignal);
    assert t == NextSelect(cfg, s, SelectSignal);
    var r := t;
    t := Next(cfg, r, ReconnectMarked);
    LeadsThen(cfg, s, [] + [SelectSignal], r, ReconnectMarked);
    assert t == r.(stateName := StateName.Connecting, online := false, pc := Returned(Some(ReconnectRequested)));
    r := t;
    t := Next(cfg, r, Classifies);
    LeadsThen(cfg, s, [] + [SelectSignal] + [ReconnectMarked], r, Classifies);
    assert t == r.(pc := Announce, backoff := 1, waits := []);
    r := t;
    t := Next(cfg, r, Announces);
    LeadsThen(cfg, s, [] + [SelectSignal] + [ReconnectMarked] + [Classifies], r, Announces);
    assert [] + [SelectSignal] + [ReconnectMarked] + [Classifies] + [Announces]
        == [SelectSignal, ReconnectMarked, Classifies, Announces];
  }

  lemma {:induction false} EnsureReloads(cfg: Config, s: Runner, newId: Uuid)
    requires s.pc.Ensure? && s.register.Holds? && RegisterTrimmed(s.register)
    ensures var t := Next(cfg, s, Ensures(Some(newId), Commits));
            t.pc.Dial? && t.loadedVersion == s.tokenVersion && t.loadedToken == Token(s.register)
  {
    var step := Ensures(Some(newId), Commits);
    var m := EnsureIdentity(Some(newId));
    assert Mutate(m, s.register.state).Some?;
    assert Mutated(m, s.register.state).Some?;
    var u := NextCases(cfg, s, step);
    StoreStepOk(cfg, s, step);
    assert StoreStep(cfg, s, step).result.Some?;
  }

  /** A waiting signal is never ignored by the session: the loop thread can take it, and when it does,
      its next attempt carries the token stored at that moment. */
  lemma {:induction false} SignalLeadsToReload(cfg: Config, s: Runner, newId: Uuid)
    requires Invariant(cfg, s) && s.pc.Selecting? && s.signal && s.context.Live? && s.register.Holds?
    ensures exists t: Runner ::
              && Leads(cfg, s, [SelectSignal, ReconnectMarked, Classifies, Announces, Ensures(Some(newId), Commits)], t)
              && t.pc.Dial? && t.loadedVersion == s.tokenVersion && t.loadedToken == Token(s.register)
  {
    var d := SignalToEnsure(cfg, s);
    EnsureReloads(cfg, d, newId);
    var last := Ensures(Some(newId), Commits);
    LeadsThen(cfg, s, [SelectSignal, ReconnectMarked, Classifies, Announces], d, last);
    assert [SelectSignal, ReconnectMarked, Classifies, Announces] + [last]
        == [SelectSignal, ReconnectMarked, Classifies, Announces, last];
  }

  /** The exception in `NoLostReconnect` is real: in every session of a paired runtime, a clear-token
      command whose directory sync fails strands the session, and so does a set-token command with
      another token. */
  lemma {:induction false} SilentChangeStrands(cfg: Config, s: Runner, thread: nat, token: Option<string>)
    requires RegisterTrimmed(s.register) && s.register.Holds? && s.register.state.runtimeId != ""
    requires s.pc.Selecting? && thread !in s.control
    requires s.loadedToken == Token(s.register) && !SignalPending(s)
    requires NewToken(token) != Token(s.register) && (token.Some? ==> NewToken(token) != "")
    ensures var t := Next(cfg, s, TokenCommand(thread, token, None, FailsAfterRename));
            t.pc.Selecting? && t.loadedToken != Token(t.register) && !SignalPending(t)
  {
    var step := TokenCommand(thread, token, None, FailsAfterRename);
    CommandStrandsExactly(cfg, s, step);
    ControlKeepsPc(cfg, s, step);
  }

  lemma {:induction false} ControlKeepsPc(cfg: Config, s: Runner, step: Step)
    requires Enabled(s, step) && RegisterTrimmed(s.register) && step.TokenCommand?
    ensures Next(cfg, s, step).pc == s.pc && Next(cfg, s, step).loadedToken == s.loadedToken
  {
    var u := NextCases(cfg, s, step);
  }

  // ---------------------------------------------------------------- cancellation

  /** Dials begun while the run context had already ended. */
  ghost function LateDials(states: seq<Runner>, steps: seq<Step>, n: nat): nat
    requires n <= |steps| && |states| == |steps| + 1
  {
    if n == 0 then 0
    else LateDials(states, steps, n - 1) + if steps[n - 1].DialBegins? && states[n - 1].context.Ended? then 1 else 0
  }

  lemma {:induction false} ConnectCountsDials(cfg: Config, s: Runner, u: Stored, step: Step)
    requires LoopEnabled(s, step) && !IsSelect(step)
    ensures NextConnect(cfg, s, u, step).dialsAfterEnd
         == s.dialsAfterEnd + if step.DialBegins? && s.context.Ended? then 1 else 0
  {
  }

  lemma {:induction false} OthersCountNoDials(cfg: Config, s: Runner, u: Stored, step: Step)
    ensures LoopEnabled(s, step) && IsSelect(step) ==> NextSelect(cfg, s, step).dialsAfterEnd == s.dialsAfterEnd
    ensures WorldEnabled(s, step) ==> NextWorld(s, step).dialsAfterEnd == s.dialsAfterEnd
    ensures ControlEnabled(s, step) ==> NextControl(s, u, step).dialsAfterEnd == s.dialsAfterEnd
  {
  }

  lemma {:induction false} StepCountsDials(cfg: Config, s: Runner, step: Step)
    requires Enabled(s, step) && RegisterTrimmed(s.register)
    ensures Next(cfg, s, step).dialsAfterEnd == s.dialsAfterEnd + if step.DialBegins? && s.context.Ended? then 1 else 0
  {
    var u := NextCases(cfg, s, step);
    if LoopEnabled(s, step) && !IsSelect(step) {
      ConnectCountsDials(cfg, s, u, step);
    } else {
      OthersCountNoDials(cfg, s, u, step);
    }
  }

  lemma {:induction false} LateDialsCounted(cfg: Config, states: seq<Runner>, steps: seq<Step>, n: nat)
    requires Execution(cfg, states, steps) && n <= |steps|
    ensures states[n].dialsAfterEnd == LateDials(states, steps, n)
  {
    if n > 0 {
      LateDialsCounted(cfg, states, steps, n - 1);
      InvariantHolds(cfg, states, steps, n - 1);
      StepCountsDials(cfg, states[n - 1], steps[n - 1]);
    }
  }

  /** Cancellation is honoured. On every interleaving, with signals and timers ready or not: `runOnce`
      never returns nil, `Run` ends only with `context.Canceled` or with the error of its ended context,
      and at most one dial begins after the run context has ended. */
  lemma {:induction false} CancellationHonoured(cfg: Config, states: seq<Runner>, steps: seq<Step>, i: nat)
    requires Execution(cfg, states, steps) && i < |states|
    ensures states[i].pc.Returned? ==> states[i].pc.result.Some?
    ensures states[i].pc.Exited? ==>
              || states[i].pc.result == Some(Canceled)
              || (states[i].context.Ended? && states[i].pc.result == Some(states[i].context.reason))
    ensures LateDials(states, steps, i) <= 1
  {
    InvariantHolds(cfg, states, steps, i);
    LateDialsCounted(cfg, states, steps, i);
  }

  // ---------------------------------------------------------------- status

  /** The published status is truthful: online exactly under the name `connected`; online only from going
      online to the status change that ends the attempt, unless the context has ended; and online for all
      of that time, unless a shutdown was requested. In particular a run that is neither cancelled nor
      shut down is never online while it dials, connects, is refused or waits. */
  lemma {:induction false} StatusTruthful(cfg: Config, states: seq<Runner>, steps: seq<Step>, i: nat)
    requires Execution(cfg, states, steps) && i < |states|
    ensures states[i].online <==> states[i].stateName.Connected?
    ensures states[i].online ==> ConnectedPhase(states[i].pc) || states[i].context.Ended?
    ensures ConnectedPhase(states[i].pc) ==> states[i].online || states[i].shutdownRequested
  {
    InvariantHolds(cfg, states, steps, i);
  }

  // ---------------------------------------------------------------- backoff

  function SumOf(waits: seq<nat>): nat {
    if waits == [] then 0 else SumOf(waits[..|waits| - 1]) + waits[|waits| - 1]
  }

  /** The waits since the last signal are 1, 2, 4, 8, 16, 30, 30, ... seconds; the next one continues
      the series, and their total has a closed form. */
  lemma {:induction false} BackoffClosedForm(cfg: Config, states: seq<Runner>, steps: seq<Step>, i: nat)
    requires Execution(cfg, states, steps) && i < |states|
    ensures states[i].backoff == Wait(|states[i].waits|)
    ensures var n := |states[i].waits|;
            SumOf(states[i].waits) == if n <= 5 then Pow2(n) - 1 else 31 + 30 * (n - 5)
  {
    InvariantHolds(cfg, states, steps, i);
    SumOfWaits(states[i].waits);
  }

  lemma {:induction false} Pow2Values()
    ensures Pow2(0) == 1 && Pow2(1) == 2 && Pow2(2) == 4 && Pow2(3) == 8 && Pow2(4) == 16 && Pow2(5) == 32
  {
    assert Pow2(2) == 2 * Pow2(1);
    assert Pow2(3) == 2 * Pow2(2);
    assert Pow2(4) == 2 * Pow2(3);
    assert Pow2(5) == 2 * Pow2(4);
  }

  lemma {:induction false} Pow2Grows(k: nat)
    requires k >= 5
    ensures Pow2(k) >= 32
  {
    Pow2Values();
    if k > 5 {
      Pow2Grows(k - 1);
    }
  }

  lemma {:induction false} SumOfWaits(waits: seq<nat>)
    requires forall k :: 0 <= k < |waits| ==> waits[k] == Wait(k)
    ensures SumOf(waits) == if |waits| <= 5 then Pow2(|waits|) - 1 else 31 + 30 * (|waits| - 5)
  {
    Pow2Values();
    if waits != [] {
      var n := |waits| - 1;
      SumOfWaits(waits[..n]);
      if n >= 5 {
        Pow2Grows(n);
      }
    }
  }

  lemma {:induction false} ConnectResetsBackoff(cfg: Config, s: Runner, u: Stored, step: Step)
    requires LoopEnabled(s, step) && !IsSelect(step)
    ensures var s' := NextConnect(cfg, s, u, step);
            || s'.waits == s.waits
            || s'.waits == s.waits + [s.backoff]
            || step.SleepSignal?
            || (step.Classifies? && s.pc.result == Some(ReconnectRequested))
  {
  }

  lemma {:induction false} OthersKeepWaits(cfg: Config, s: Runner, u: Stored, step: Step)
    ensures LoopEnabled(s, step) && IsSelect(step) ==> NextSelect(cfg, s, step).waits == s.waits
    ensures WorldEnabled(s, step) ==> NextWorld(s, step).waits == s.waits
    ensures ControlEnabled(s, step) ==> NextControl(s, u, step).waits == s.waits
  {
  }

  /** Going online does not reset the series; only a consumed reconnect signal does. */
  lemma {:induction false} OnlySignalsResetBackoff(cfg: Config, s: Runner, step: Step)
    requires Enabled(s, step) && RegisterTrimmed(s.register) && |Next(cfg, s, step).waits| < |s.waits|
    ensures step.SleepSignal? || (step.Classifies? && s.pc.result == Some(ReconnectRequested))
  {
    var u := NextCases(cfg, s, step);
    if LoopEnabled(s, step) && !IsSelect(step) {
      ConnectResetsBackoff(cfg, s, u, step);
    } else {
      OthersKeepWaits(cfg, s, u, step);
    }
  }

  // ---------------------------------------------------------------- frames and heartbeats

  lemma {:induction false} SessionFrames(l: Link, pending: nat)
    requires InOrder(l) && AnsweredUpTo(l, pending) && pending <= 1
    requires pending == 1 ==> l.processed[|l.processed| - 1].kind.Request?
    ensures l.processed <= l.read && |l.read| <= |l.processed| + 1
    ensures pending == 0 ==> ResponseIds(l.responses) == RequestIds(l.processed)
    ensures pending == 1 ==>
              ResponseIds(l.responses) + [l.processed[|l.processed| - 1].id] == RequestIds(l.processed)
    ensures l.readError.Some? ==> l.processed == l.read
  {
    if pending == 0 {
      assert l.processed[..|l.processed|] == l.processed;
    } else {
      var before, last := l.processed[..|l.processed| - 1], l.processed[|l.processed| - 1];
      assert l.processed == before + [last];
      RequestIdsExtend(before, last);
    }
  }

  /** Frames are processed in the order read, at most one behind, and every processed request gets
      exactly one answer attempt with its ID, in order; when a read error ends the session, every frame
      read was processed. */
  lemma {:induction false} FramesInOrder(cfg: Config, states: seq<Runner>, steps: seq<Step>, i: nat)
    requires Execution(cfg, states, steps) && i < |states| && InSession(states[i].pc)
    ensures var l := states[i].link;
            && l.processed <= l.read && |l.read| <= |l.processed| + 1
            && (!states[i].pc.Handling? ==> ResponseIds(l.responses) == RequestIds(l.processed))
            && (states[i].pc.Handling? ==>
                  ResponseIds(l.responses) + [states[i].pc.frame.id] == RequestIds(l.processed))
            && (LoopEnabled(states[i], SelectReadError) ==> l.processed == l.read)
  {
    InvariantHolds(cfg, states, steps, i);
    SessionFrames(states[i].link, if states[i].pc.Handling? then 1 else 0);
  }

  /** A heartbeat is outstanding exactly while the pong timer runs; heartbeats never exceed processed
      frames by more than one. */
  lemma {:induction false} HeartbeatsAccounted(cfg: Config, states: seq<Runner>, steps: seq<Step>, i: nat)
    requires Execution(cfg, states, steps) && i < |states| && InSession(states[i].pc)
    ensures var l := states[i].link;
            && (l.awaitingPong <==> l.pong.Armed? || l.pong.Fired?)
            && l.beats - l.cleared == (if l.awaitingPong then 1 else 0)
            && l.beats <= |l.processed| + 1
  {
    InvariantHolds(cfg, states, steps, i);
  }

  /** A dead peer is never reported wrongly: when the acknowledgement timeout ends a session, a
      heartbeat has been outstanding for at least the timeout and no frame was processed since. */
  lemma {:induction false} AckTimeoutIsSound(cfg: Config, states: seq<Runner>, steps: seq<Step>, i: nat)
    requires Execution(cfg, states, steps) && i < |steps| && steps[i].SelectPong?
    requires states[i + 1].pc == Recording(Error.AckTimeout, true)
    ensures var l := states[i].link;
            && l.awaitingPong && l.beats > 0 && l.lastBeat + l.ack <= states[i].now
            && |l.processed| == l.processedAtBeat && 3 * SECOND <= l.ack
  {
    InvariantHolds(cfg, states, steps, i);
    var s := states[i];
    assert states[i + 1] == NextSelect(cfg, s, SelectPong);
    DurationsBounded(cfg.heartbeatSeconds, s.link.tickMs);
  }

  // ---------------------------------------------------------------- token and identity

  /** What one step of a run does to the register. */
  lemma {:induction false} RegisterStep(cfg: Config, states: seq<Runner>, steps: seq<Step>, k: nat)
    requires Execution(cfg, states, steps) && k < |steps|
    ensures StoreHistory.SameIdentity(states[k].register, states[k + 1].register)
    ensures !steps[k].TokenCommand? ==> Token(states[k + 1].register) == Token(states[k].register)
  {
    InvariantHolds(cfg, states, steps, k);
    StepOnRegister(cfg, states[k], steps[k]);
  }

  /** The registers of a run, on their own. */
  function Registers(states: seq<Runner>): seq<Register> {
    seq(|states|, k requires 0 <= k < |states| => states[k].register)
  }

  /** Over any run, an identity once stored stays, on a platform whose rename replaces its target and while
      the power stays on. */
  lemma {:induction false} IdentityKept(cfg: Config, states: seq<Runner>, steps: seq<Step>, i: nat, j: nat)
    requires Execution(cfg, states, steps) && i <= j < |states|
    ensures StoreHistory.SameIdentity(states[i].register, states[j].register)
  {
    var registers := Registers(states);
    forall k: nat | k + 1 < |registers| ensures StoreHistory.SameIdentity(registers[k], registers[k + 1]) {
      RegisterStep(cfg, states, steps, k);
    }
    StoreHistory.IdentityAlong(registers, i, j);
  }

  lemma {:induction false} TokenAlong(registers: seq<Register>, i: nat, j: nat)
    requires i <= j < |registers|
    requires forall k: nat :: i <= k < j ==> Token(registers[k + 1]) == Token(registers[k])
    ensures Token(registers[j]) == Token(registers[i])
    decreases j - i
  {
    if i < j {
      TokenAlong(registers, i, j - 1);
      assert Token(registers[j - 1 + 1]) == Token(registers[j - 1]);
    }
  }

  /** Between token commands nothing changes the token, however often the loop connects and fails. */
  lemma {:induction false} TokenKept(cfg: Config, states: seq<Runner>, steps: seq<Step>, i: nat, j: nat)
    requires Execution(cfg, states, steps) && i <= j < |states|
    requires forall k :: i <= k < j ==> !steps[k].TokenCommand?
    ensures Token(states[j].register) == Token(states[i].register)
  {
    var registers := Registers(states);
    forall k: nat | i <= k < j ensures Token(registers[k + 1]) == Token(registers[k]) {
      RegisterStep(cfg, states, steps, k);
    }
    TokenAlong(registers, i, j);
  }
}
