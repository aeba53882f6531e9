/** internal/hostdrun/runner.go as a transition system: the reconnect loop, the select loop, the reader
    goroutine, the runtime's timers, and any number of control-socket threads, interleaved at every
    access to shared state. Dial, read and write outcomes, store failures and the passing of time are
    the environment's choice. */
module RunnerModel {
  import opened Text
  import opened StateCodec
  import opened StateModel
  import opened Heartbeat
  import opened Session
  import StoreHistory

  datatype Config = Config(heartbeatSeconds: Int64, url: string, hasComponent: bool)

  /** The run context. */
  datatype Context = Live | Ended(reason: Error)

  /** `ctx.Err()`. */
  function ContextError(c: Context): Option<Error> {
    match c
    case Live => None
    case Ended(reason) => Some(reason)
  }

  datatype StateName = Starting | Connecting | WaitingForPairing | BackingOff | Connected | Stopping

  /** The server's answer to the connect request. */
  datatype Reply =
    | ReadError(error: Error)
    | Refusal(payload: Option<(string, string)>)
    | Malformed(error: Error)
    | Welcome(pairing: string, tickMs: Int64)

  /** Program points of `Run` and `runOnce`. Recording an error and marking the backoff occur both before
      and inside the session, at different places of the source. */
  datatype Pc =
    | Announce
    | Ensure
    | Dial
    | Dialing
    | SendConnect
    | AwaitReply
    | Rejecting(code: string, message: string)
    | Greeting(pairing: string, tickMs: Int64)
    | GoingOnline(tickMs: Int64)
    | Selecting
    | Beating
    | Handling(frame: Frame)
    | Reconnecting
    | Recording(error: Error, inSession: bool)
    | MarkingBackoff(error: Error, inSession: bool)
    | Returned(result: Option<Error>)
    | Parking(error: Error)
    | Sleeping(until: int)
    | Exited(result: Option<Error>)

  /** A control-socket thread between two shared accesses. */
  datatype Control = Signalling | Cancelling

  /** Shared variables, loop variables, and history: how often the token was changed, as of which change
      the running attempt loaded it, the latest change announced by a successful command, the latest
      one that took effect although its command failed, the changes seen when the signal was last
      consumed, the token of the running attempt, the timed waits since the last signal, and the dials
      begun after the context ended. */
  datatype Runner = Runner(
    now: int,
    register: Register,
    signal: bool,
    context: Context,
    stateName: StateName,
    online: bool,
    control: map<nat, Control>,
    pc: Pc,
    backoff: nat,
    link: Link,
    tokenVersion: nat, loadedVersion: nat, announcedVersion: nat, silentVersion: nat, consumedVersion: nat,
    loadedToken: string,
    waits: seq<nat>,
    dialsAfterEnd: nat,
    shutdownRequested: bool)

  /** How one `Store.Update` ends; the middle outcome is a failure before the rename. */
  datatype StoreChoice = Commits | FailsBefore | FailsAfterRename

  /** The register after an `Update`, the caller's result, and whether the file was replaced. */
  datatype Stored = Stored(register: Register, result: Option<State>, committed: bool)

  /** An `Update` whose callback asks for `changed`, already normalised. */
  function Commit(r: Register, changed: Option<State>, c: StoreChoice): Stored {
    if changed.None? || c.FailsBefore? then Stored(r, None, false)
    else Stored(Holds(changed.value), if c.Commits? then changed else None, true)
  }

  function UpdateRegister(r: Register, m: Mutation, c: StoreChoice): Stored {
    Commit(r, if r.Holds? then Mutated(m, r.state) else None, c)
  }

  /** These are outcomes the concurrent store allows its atomic register, for any callback. */
  lemma {:induction false} CommitIsAtomic(r: Register, change: State -> Option<State>, changed: Option<State>,
      c: StoreChoice)
    requires match StoreHistory.Changed(r, change)
             case None => changed == None
             case Some(t) => changed == Some(Normalize(t))
    ensures var stored := Commit(r, changed, c);
            var outcome := if stored.result.Some? then StoreHistory.Returned(stored.result.value)
                           else StoreHistory.Aborted(stored.committed);
            && StoreHistory.Legal(r, StoreHistory.Update(change), outcome)
            && StoreHistory.Effect(r, StoreHistory.Update(change), outcome) == stored.register
  {
    StoreHistory.UpdateOutcomes(r, change);
  }

  function Token(r: Register): string {
    if r.Holds? then r.state.runtimeToken else ""
  }

  datatype Step =
    // the connection loop
    | Announces
    | Ensures(newId: Option<Uuid>, choice: StoreChoice)
    | DialBegins
    | DialEnds(error: Option<Error>)
    | ConnectSent(error: Option<Error>)
    | Replied(reply: Reply)
    | RejectRecorded(choice: StoreChoice)
    | HelloRecorded(at: string, choice: StoreChoice)
    | GoesOnline
    | SelectEnd
    | SelectSignal
    | SelectTick
    | SelectPong
    | SelectReadError
    | SelectFrame
    | BeatWritten(error: Option<Error>)
    | RequestHandled(dispatch: Dispatch, written: bool)
    | ReconnectMarked
    | ErrorRecorded(message: string, choice: StoreChoice)
    | BackoffMarked
    | Classifies
    | Parks
    | SleepEnd
    | SleepSignal
    | SleepTimer
    // the reader goroutine, the runtime and the world
    | ReaderFrame(frame: Frame)
    | ReaderError(cause: Error)
    | TickFires
    | PongFires
    | TimePasses(duration: int)
    | ParentEnds(reason: Error)
    // control-socket threads
    | TokenCommand(thread: nat, token: Option<string>, newId: Option<Uuid>, choice: StoreChoice)
    | Signals(thread: nat)
    | ReconnectCommand
    | ShutdownMarks(thread: nat)
    | ShutdownCancels(thread: nat)

  /** Errors from the dialer and the connection; the two sentinel errors are private to the runner. */
  predicate External(e: Error) {
    e.Canceled? || e.DeadlineExceeded? || e.NetworkFailure?
  }

  predicate ExternalOption(e: Option<Error>) {
    e.Some? ==> External(e.value)
  }

  /** `runOnce` is past `setConnectionState("connected", true)` and still in its select loop. */
  predicate InSession(pc: Pc) {
    pc.Selecting? || pc.Beating? || pc.Handling?
  }

  predicate LoopEnabled(s: Runner, step: Step) {
    match step
    case Announces => s.pc.Announce?
    case Ensures(_, _) => s.pc.Ensure?
    case DialBegins => s.pc.Dial?
    case DialEnds(e) => s.pc.Dialing? && ExternalOption(e)
    case ConnectSent(e) => s.pc.SendConnect? && ExternalOption(e)
    case Replied(reply) =>
      && s.pc.AwaitReply?
      && (reply.ReadError? ==> External(reply.error)) && (reply.Malformed? ==> reply.error.NetworkFailure?)
    case RejectRecorded(_) => s.pc.Rejecting?
    case HelloRecorded(_, _) => s.pc.Greeting?
    case GoesOnline => s.pc.GoingOnline?
    case SelectEnd => s.pc.Selecting? && s.context.Ended?
    case SelectSignal => s.pc.Selecting? && s.signal
    case SelectTick => s.pc.Selecting? && s.link.tickReady
    case SelectPong => s.pc.Selecting? && s.link.pong.Fired?
    case SelectReadError => s.pc.Selecting? && s.link.readError.Some?
    case SelectFrame => s.pc.Selecting? && s.link.reader.Holding?
    case BeatWritten(e) => s.pc.Beating? && ExternalOption(e)
    case RequestHandled(_, _) => s.pc.Handling?
    case ReconnectMarked => s.pc.Reconnecting?
    case ErrorRecorded(_, _) => s.pc.Recording?
    case BackoffMarked => s.pc.MarkingBackoff?
    case Classifies => s.pc.Returned?
    case Parks => s.pc.Parking?
    case SleepEnd => s.pc.Sleeping? && s.context.Ended?
    case SleepSignal => s.pc.Sleeping? && s.signal
    case SleepTimer => s.pc.Sleeping? && s.pc.until <= s.now
    case _ => false
  }

  predicate WorldEnabled(s: Runner, step: Step) {
    match step
    case ReaderFrame(_) => InSession(s.pc) && s.link.reader.Reading?
    case ReaderError(e) => InSession(s.pc) && s.link.reader.Reading? && External(e)
    case TickFires => InSession(s.pc) && s.link.probe > 0 && s.link.nextTick <= s.now
    case PongFires => InSession(s.pc) && s.link.pong.Armed? && s.link.pong.deadline <= s.now
    case TimePasses(d) => d > 0
    case ParentEnds(reason) => s.context.Live? && (reason.Canceled? || reason.DeadlineExceeded?)
    case _ => false
  }

  predicate ControlEnabled(s: Runner, step: Step) {
    match step
    case TokenCommand(t, _, _, _) => t !in s.control
    case Signals(t) => t in s.control && s.control[t].Signalling?
    case ReconnectCommand => true
    case ShutdownMarks(t) => t !in s.control
    case ShutdownCancels(t) => t in s.control && s.control[t].Cancelling?
    case _ => false
  }

  predicate Enabled(s: Runner, step: Step) {
    LoopEnabled(s, step) || WorldEnabled(s, step) || ControlEnabled(s, step)
  }

  /** `backoff *= 2`, capped at 30 s. */
  function Doubled(backoff: nat): nat {
    if backoff < 30 then (if backoff * 2 > 30 then 30 else backoff * 2) else backoff
  }

  function TrimmedRefusal(e: Option<(string, string)>): (string, string) {
    match e
    case None => ("", "connect rejected")
    case Some(pair) => (Trim(pair.0), Trim(pair.1))
  }

  /** The one store update a step performs, if any. */
  function StoreAction(cfg: Config, s: Runner, step: Step): Option<(Mutation, StoreChoice)>
    requires Enabled(s, step)
  {
    match step
    case Ensures(newId, choice) => Some((EnsureIdentity(newId), choice))
    case RejectRecorded(choice) => Some((RecordReject(s.pc.code, s.pc.message), choice))
    case HelloRecorded(at, choice) => Some((RecordHello(s.pc.pairing, cfg.url, at), choice))
    case ErrorRecorded(message, choice) => Some((RecordError(message), choice))
    case TokenCommand(_, token, newId, choice) =>
      (match token
       case None => Some((ClearToken(newId), choice))
       case Some(text) => if Trim(text) == "" then None else Some((SetToken(Trim(text), newId), choice)))
    case _ => None
  }

  function StoreStep(cfg: Config, s: Runner, step: Step): Stored
    requires Enabled(s, step)
  {
    match StoreAction(cfg, s, step)
    case None => Stored(s.register, None, false)
    case Some((m, choice)) => UpdateRegister(s.register, m, choice)
  }

  /** The outer loop and the part of `runOnce` before the session; `u` is the step's store update. */
  function NextConnect(cfg: Config, s: Runner, u: Stored, step: Step): Runner
    requires LoopEnabled(s, step)
  {
    match step
    case Announces => s.(stateName := Connecting, online := false, pc := Ensure)
    case Ensures(_, _) =>
      if u.result.None? then s.(register := u.register, pc := Returned(Some(StoreFailure)))
      else s.(register := u.register, pc := Dial, loadedVersion := s.tokenVersion,
              loadedToken := u.result.value.runtimeToken)
    case DialBegins =>
      s.(pc := Dialing, dialsAfterEnd := if s.context.Ended? then s.dialsAfterEnd + 1 else s.dialsAfterEnd)
    case DialEnds(e) => s.(pc := if e.Some? then Recording(e.value, false) else SendConnect)
    case ConnectSent(e) => s.(pc := if e.Some? then Returned(e) else AwaitReply)
    case Replied(reply) => s.(pc := AfterReply(reply))
    case RejectRecorded(_) =>
      s.(register := u.register,
         pc := if s.pc.code == PAIRING_REQUIRED then Returned(Some(PairingRequired))
               else MarkingBackoff(ConnectRejected(s.pc.message), false))
    case HelloRecorded(_, _) =>
      s.(register := u.register,
         pc := if u.result.None? then Returned(Some(StoreFailure)) else GoingOnline(s.pc.tickMs))
    case GoesOnline =>
      s.(stateName := Connected, online := true, pc := Selecting,
         link := Open(s.now, s.pc.tickMs, Probe(cfg.heartbeatSeconds, s.pc.tickMs),
                      Ack(cfg.heartbeatSeconds, s.pc.tickMs)))
    case ReconnectMarked => s.(stateName := Connecting, online := false, pc := Returned(Some(ReconnectRequested)))
    case ErrorRecorded(_, _) => s.(register := u.register, pc := MarkingBackoff(s.pc.error, s.pc.inSession))
    case BackoffMarked => s.(stateName := BackingOff, online := false, pc := Returned(Some(s.pc.error)))
    case Classifies =>
      var pc := AfterReturn(s.pc.result, s.context);
      s.(pc := pc, backoff := if pc.Announce? then 1 else s.backoff, waits := if pc.Announce? then [] else s.waits)
    case Parks =>
      s.(stateName := if s.pc.error.PairingRequired? then WaitingForPairing else BackingOff, online := false,
         pc := Sleeping(s.now + s.backoff * SECOND))
    case SleepEnd => s.(pc := Exited(ContextError(s.context)))
    case SleepSignal =>
      s.(signal := false, consumedVersion := s.tokenVersion, backoff := 1, waits := [], pc := Announce)
    case SleepTimer => s.(backoff := Doubled(s.backoff), waits := s.waits + [s.backoff], pc := Announce)
    case _ => s
  }

  /** The reply to the connect request. */
  function AfterReply(reply: Reply): Pc {
    match reply
    case ReadError(e) => Returned(Some(e))
    case Malformed(e) => Returned(Some(e))
    case Refusal(e) => Rejecting(TrimmedRefusal(e).0, TrimmedRefusal(e).1)
    case Welcome(pairing, tickMs) => Greeting(pairing, tickMs)
  }

  /** Where `Run` goes after `runOnce` returned `result`. */
  function AfterReturn(result: Option<Error>, context: Context): Pc {
    if result.None? || result.value.Canceled? then Exited(result)
    else if context.Ended? then Exited(ContextError(context))
    else if result.value.ReconnectRequested? then Announce
    else Parking(result.value)
  }

  /** The arms of the select loop. */
  function NextSelect(cfg: Config, s: Runner, step: Step): Runner
    requires LoopEnabled(s, step)
  {
    match step
    case SelectEnd => s.(pc := Returned(ContextError(s.context)))
    case SelectSignal => s.(signal := false, consumedVersion := s.tokenVersion, pc := Reconnecting)
    case SelectTick => s.(link := TakeTick(s.link), pc := if s.link.awaitingPong then Selecting else Beating)
    case BeatWritten(e) =>
      if e.Some? then s.(pc := Recording(e.value, true))
      else s.(link := Session.BeatSent(s.link, s.now), pc := Selecting)
    case SelectPong =>
      s.(link := TakePong(s.link), pc := if s.link.awaitingPong then Recording(AckTimeout, true) else Selecting)
    case SelectReadError => s.(pc := Recording(s.link.readError.value, true))
    case SelectFrame =>
      var f := s.link.reader.frame;
      s.(link := TakeFrame(s.link, s.now), pc := if f.kind.Request? then Handling(f) else Selecting)
    case RequestHandled(d, _) =>
      s.(link := Answered(s.link, Respond(s.pc.frame, cfg.hasComponent, d)), pc := Selecting)
    case _ => s
  }

  /** The reader goroutine, timers, time and the parent context. */
  function NextWorld(s: Runner, step: Step): Runner
    requires WorldEnabled(s, step)
  {
    match step
    case ReaderFrame(f) => s.(link := FrameRead(s.link, f))
    case ReaderError(e) => s.(link := ReadFailed(s.link, e))
    case TickFires => s.(link := Session.TickFires(s.link, s.now))
    case PongFires => s.(link := Session.PongFires(s.link))
    case TimePasses(d) => s.(now := s.now + d)
    case ParentEnds(reason) => s.(context := Ended(reason))
    case _ => s
  }

  /** The control-socket commands; `u` is the step's store update. */
  function NextControl(s: Runner, u: Stored, step: Step): Runner
    requires ControlEnabled(s, step)
  {
    match step
    case TokenCommand(t, _, _, _) =>
      if u.result.Some? then
        s.(register := u.register, control := s.control[t := Signalling],
           tokenVersion := s.tokenVersion + 1, announcedVersion := s.tokenVersion + 1)
      else if u.committed then
        s.(register := u.register, tokenVersion := s.tokenVersion + 1, silentVersion := s.tokenVersion + 1)
      else s.(register := u.register)
    case Signals(t) => s.(signal := true, control := s.control - {t})
    case ReconnectCommand => s.(signal := true)
    case ShutdownMarks(t) =>
      s.(stateName := Stopping, online := false, control := s.control[t := Cancelling], shutdownRequested := true)
    case ShutdownCancels(t) =>
      s.(control := s.control - {t},
         context := if s.context.Live? && !s.pc.Exited? then Ended(Canceled) else s.context)
    case _ => s
  }

  predicate IsSelect(step: Step) {
    || step.SelectEnd? || step.SelectSignal? || step.SelectTick? || step.BeatWritten? || step.SelectPong?
    || step.SelectReadError? || step.SelectFrame? || step.RequestHandled?
  }

  function Next(cfg: Config, s: Runner, step: Step): Runner
    requires Enabled(s, step)
  {
    if LoopEnabled(s, step) then
      if IsSelect(step) then NextSelect(cfg, s, step) else NextConnect(cfg, s, StoreStep(cfg, s, step), step)
    else if WorldEnabled(s, step) then NextWorld(s, step)
    else NextControl(s, StoreStep(cfg, s, step), step)
  }

  /** `Run` just entered its loop; the store may already hold any normalised state. */
  predicate Initial(s: Runner) {
    && (s.register.Holds? ==> Trimmed(s.register.state.runtimeId) && Trimmed(s.register.state.runtimeToken))
    && !s.signal && s.context.Live? && s.stateName.Starting? && !s.online && s.control == map[]
    && s.pc.Announce? && s.backoff == 1 && s.waits == []
    && s.tokenVersion == 0 && s.loadedVersion == 0 && s.announcedVersion == 0 && s.silentVersion == 0
    && s.consumedVersion == 0 && s.dialsAfterEnd == 0 && !s.shutdownRequested
  }

  ghost predicate Execution(cfg: Config, states: seq<Runner>, steps: seq<Step>) {
    && |states| == |steps| + 1
    && Initial(states[0])
    && forall i :: 0 <= i < |steps| ==>
         Enabled(states[i], steps[i]) && states[i + 1] == Next(cfg, states[i], steps[i])
  }
}
