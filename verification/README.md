# Verification of the host daemon

This project models the host daemon in Dafny and proves what its parts promise together: the connection
runner, the state file, the configuration and what it feeds into the host component, the launchd property
list, the search for a free download name, and where a runtime token may travel.
`dafny verify dfyconfig.toml` checks everything.

## Files

| files | subject |
|---|---|
| Text, Decimal | trimming, lower-casing, splitting; decimal numerals |
| StateCodec, StateModel | the state file's text and normal form, its repair rule, every update the daemon applies |
| StateStore | one `Store` as a class, with an outcome for every system call and a ghost trace of directories |
| StoreHistory | concurrent callers and process crashes as a transition system; the atomic register it refines |
| StoreDurability, StoreLoss | the same store under loss of power; the runs that lose a write or an identity, and the starts that have none |
| Heartbeat, Session, RunnerModel | durations with 64-bit wrap-around, one session's data, the runner as a transition system |
| RunnerSafety, RunnerTheorems, RunnerTiming | the inductive invariant, the theorems over whole runs, the timing bounds |
| RunnerLoops, RunnerRuns | timer helpers, select loop and reconnect loop in their own imperative form, each turn a run of the transition system; concrete runs |
| RunnerLapse | runs in which the heartbeat gap is as long as it can be |
| RunnerReaders | the reader goroutines that finished sessions leave behind |
| HostMethods | the method list from configuration to advertisement, with the in-place filter |
| Config, ConfigLoad, ConfigRoundTrip | layers and normal form as functions, the record the layers overwrite, save followed by load |
| Advertisement | from file, environment and options to the list the component advertises |
| Plist | the printer and a reader for what it prints |
| DownloadName | safe names, direct children, the search over a thousand candidates |
| ServiceOrigin | host and port, origins, invites, redirects, what a claim sends |
| TokenTravel, TokenClaims | every stage of every claim interleaved with daemons: which services are sent a runtime token; what must hold before a claim |

How to read the runner: `RunnerModel.Step` has one constructor per access to shared state, by the loop, the reader
goroutine, the runtime's timers or a control-socket thread; `Execution` is any interleaving. Dial, read, write
and store outcomes, and the passing of time, are chosen by the environment. History variables record which
token change an attempt has seen.

Seven claims one might expect are false of the code. Each is stated with the exact condition under which it
holds, and with runs or inputs that show it fail:

- A changed token reaches the running attempt. It does not when a token command's directory sync fails after the
  rename: the command reports an error and sends no signal, although the new token is in place. A command strands an
  up-to-date attempt if and only if it changes the stored token and its directory sync fails
  (`CommandStrandsExactly`); every attempt with a stale token and no signal coming was stranded by one such command
  (`StrandedByOneCommand`); and from every start of an identified runtime such a run exists (`ReconnectCanBeLost`).
- The advertised lifetime covers the gap between two heartbeats. Heartbeats fall on the ticker's grid; the longest
  gap is one probe more than the whole probes that fit into the acknowledgement timeout, and some prompt run reaches
  it for every setting and tick (`LongestGapIsReached`). Two heartbeats can be further apart than the advertised
  lifetime if and only if that gap exceeds it (`LapsesExactly`): never for settings of 4 s and more whose triple does
  not overflow (`SafeSettings`), below for server ticks over 2.5 s at 1 s and over 1.5 times the setting at 2 and 3 s
  (`GapFitsTick`).
- Saving and loading restores every normalised configuration. It does except for an update command beside
  `download: false`, which is omitted from the file and read back as true (`DownloadComesBack`; `RoundTrip` also
  covers hosts whose name or temporary directory carries white space).
- A write whose caller was told of success survives the loss of power. It does for every run from a start where
  the state directory was there, and for no other start: a save makes a missing directory with `MkdirAll`, but only
  the state directory itself is ever synced, never its parent (`WritesSurviveExactly`; the same for an identity
  returned by an update, `IdentitySurvivesExactly`).
- What a reader was shown survives the loss of power. A shown identity does if and only if the state directory was
  there at the last start and the last successful directory sync (or that start) already showed it
  (`ShownIdentitySurvivesExactly`, `LoadedIdentityCanVanish`); a shown state does if and only if, besides, the file has
  shown nothing else since (`ShownStateSurvivesExactly`).
- The runtime token is only ever sent to the service that issued it. A claim saves the new gateway first and stores
  the new token only after the service has answered; a daemon that starts in between sends the old token to the new
  service, even if the claim then finishes (`FinishedClaimSendsAway`). A claim that begins alone keeps every
  token secure, wherever it stops and whatever the daemon does meanwhile, if and only if, when it begins, the stored token (if
  any) is of the invite's service and, should that service be able to issue one, neither the running daemon nor the
  recorded gateway names another (`HarmlessExactly`, `FitClaimsReachIssuer`). Event by event, for overlapping claims
  too, the exact conditions are those of `StaysSecureExactly` and `TokenReachesIssuer`.
- A session's goroutines end with it. Its reader is blocked for ever if and only if it held a frame when the session
  ended, or got one afterwards (`LeaksExactly`); there are exactly as many as frames read and not processed
  (`ReadersAccounted`), and they pile up without bound (`ReadersPileUp`).

## Model

| member | source | states |
|---|---|---|
| StateCodec.ObjectParses | internal/state/store.go:153-161 | the object text is self-delimiting: whatever follows it is handed back untouched |
| StateCodec.DecodeEncoded | internal/state/store.go:106-116 | what is written is read back as the same state, with only the final newline left |
| StateModel.NormalizeIdempotent | internal/state/store.go:187-200 | normalising twice is normalising once |
| StateModel.SavedStateReads | internal/state/store.go:106-161 | a saved normal state reads back as itself and asks for no repair |
| StateModel.RepairConverges | internal/state/store.go:85-104 | for every decodable prefix and any trailing text, the repair keeps the register, needs no second repair and is a fixed point |
| StateModel.NewUuid | internal/state/store.go:202-217 | 36 characters, version 4, variant 10, never blank |
| StateModel.EnsureRuntimeId | internal/state/store.go:73-83 | a blank identity is filled, any other is left alone, nothing else changes |
| StateModel.MutationsKeepIdentity | internal/hostdrun/runner.go:518-552 | every update callback of the program keeps an existing identity through normalisation |
| StateModel.MutationsEnsureIdentity | internal/cli/cli.go:754-779 | the callbacks that check the identity leave a non-empty one |
| StateModel.LoopMutationsKeepToken | internal/hostdrun/runner.go:129-252 | the connection loop's own updates never change the token |
| StateStore.Store.constructor | internal/state/store.go:36-38 | a store over a given directory |
| StateStore.Store.WriteFileAtomic | internal/state/store.go:118-151 | exact success condition and final directory for every combination of failures; every directory shown on the way has the old or the complete new target and no other change but the temporary file |
| StateStore.Store.PrepareTemp | internal/state/store.go:120-145 | the temporary file from creation to close touches only its own entry |
| StateStore.Store.ReplaceFile | internal/state/store.go:163-173 | the rename, and on Windows remove and retry, with the exact directory in each outcome |
| StateStore.Store.SaveUnlocked | internal/state/store.go:106-116 | exact success condition and directory, crash atomicity |
| StateStore.Store.Repair | internal/state/store.go:97-102 | a successful repair leaves exactly the normal encoding; a failed one leaves the register |
| StateStore.Store.LoadUnlocked | internal/state/store.go:85-104 | returns the register, fails exactly when reading, decoding or a needed repair fails, rewrites only when text follows |
| StateStore.Store.Load | internal/state/store.go:44-48 | never changes the register; after a success a second load returns the same and writes nothing |
| StateStore.Store.Save | internal/state/store.go:50-54 | the register becomes the normalised state, or stays, or shows it although only the directory sync failed |
| StateStore.Store.Update | internal/state/store.go:56-71 | success is one read-modify-write; failure leaves the register, except when only the directory sync after the rename failed |
| StateStore.NoTraceLeft | internal/state/store.go:118-151 | success changes exactly one entry; failure with successful removal changes none; when Windows loses the target |
| StoreHistory.AdvanceIsAtomic | internal/state/store.go:118-151 | one system call changes the target only by a successful rename of a complete synced file |
| StoreHistory.FinishIsAfterWrite | internal/state/store.go:118-151 | the program points of the transition system and the class method specify the same directory and outcome for every environment |
| StoreHistory.StepKeepsInvariant | internal/state/store.go:44-151 | every step of every caller and every process crash keeps register and file in agreement |
| StoreHistory.Linearizable | internal/state/store.go:44-151 | finished calls form a legal history of an atomic register; the file shows it, or the effect of the one call in the lock |
| StoreHistory.HistoryGrows | internal/state/store.go:44-71 | the order of finished calls is fixed, so it respects real time |
| StoreHistory.NoUpdateIsLost | internal/state/store.go:56-71 | every effective update is applied to the register as all earlier calls left it |
| StoreHistory.FailedUpdateIsInvisible | internal/state/store.go:56-71 | a failed update is visible only when the rename succeeded and the directory sync failed |
| StoreHistory.TargetIsNeverPartial | internal/state/store.go:118-151 | at every moment, process crashes included, the file is the initial one or one complete synced encoding |
| StoreHistory.IdentityIsPermanent | internal/state/store.go:56-83 | over any run with failures and process crashes, an identity once shown is shown for ever |
| StoreHistory.SaveCanReplaceIdentity | internal/state/store.go:50-54 | a raw save is not identity-safe, so the condition of the previous row is needed |
| StoreDurability.EventKeepsInvariant | internal/state/store.go:118-185 | every step, process crash and loss of power keeps every directory that may come back accounted for |
| StoreDurability.SuccessSurvives | internal/state/store.go:106-151 | unless the store made the directory itself, the register stands after a loss of power where the history had left it at some point behind every acknowledged write, and the file is complete |
| StoreDurability.ReturnedIdentityIsPermanent | internal/state/store.go:56-83 | where the state directory was there from the start, an identity returned by an update is shown at every later moment, through failures, crashes and losses of power |
| StoreDurability.RecentAreShown | internal/state/store.go:146-150 | in any run the contents that may come back are exactly those shown since the last successful directory sync or start |
| StoreDurability.ShownStateSurvivesExactly | internal/state/store.go:44-48 | in any run the register shown survives every loss of power if and only if it has been that register ever since the last successful directory sync or start, and the directory was there at the last start (or there is nothing to lose) |
| StoreDurability.ShownIdentitySurvivesExactly | internal/state/store.go:149-150 | in any run of identity-keeping calls a shown identity survives every loss of power if and only if the directory was there at the last start and the last successful directory sync or start already showed it |
| StoreLoss.LoadedIdentityCanVanish | internal/state/store.go:146-150 | for every identity, a run of identity-keeping calls in which a load returns it and a loss of power then removes it |
| StoreLoss.WritesSurviveExactly | internal/state/store.go:107 | no run from a start loses an acknowledged write with the power if and only if the state directory was there at that start |
| StoreLoss.IdentitySurvivesExactly | internal/state/store.go:56-116 | no run of identity-keeping calls from a start loses an identity that an update returned if and only if the state directory was there at that start |
| Heartbeat.DurationsBounded | internal/hostdrun/runner.go:474-496 | for all 64-bit settings and ticks, wrapped products included: 0 < probe <= 5 s, 3 s <= ack <= 7.5 s, probe < ack |
| Heartbeat.GapValue | internal/hostdrun/runner.go:474-496 | the longest gap is two probes from a probe of 2 s on, and less than 5 s below |
| Heartbeat.GapFitsExactly | internal/hostdrun/runner.go:199-204 | for all 64-bit settings and ticks the gap fits exactly when the lifetime is at least 10 s or two probes |
| Heartbeat.GapFitsWithoutTick | internal/hostdrun/runner.go:199-204 | without a server tick the longest gap fits the advertised lifetime for every positive setting |
| Heartbeat.GapFitsEveryTick | internal/hostdrun/runner.go:321 | it fits for every server tick if and only if the setting is at least 4 s |
| Heartbeat.GapFitsTick | internal/hostdrun/runner.go:199-204 | the exact tick bound for smaller settings: 2.5 s at 1 s, 1.5 times the setting at 2 and 3 s |
| RunnerModel.CommitIsAtomic | internal/state/store.go:56-71 | the runner's store steps are outcomes the concurrent store allows its register |
| RunnerSafety.UpdateFacts | internal/hostdrun/runner.go:130-133 | what any update of the program does to identity, token and register |
| RunnerSafety.DoubledWait | internal/hostdrun/runner.go:120-125 | doubling with the cap continues min(2^k, 30) |
| RunnerSafety.AnswerKeepsSession | internal/hostdrun/runner.go:344-377 | one answer attempt, with the request's ID, on every branch |
| RunnerSafety.StepKeepsInvariant | internal/hostdrun/runner.go:76-276 | every step of every thread keeps the runner's invariant |
| RunnerSafety.InvariantHolds | internal/hostdrun/runner.go:76-276 | the invariant in every reachable state of every interleaving |
| RunnerSafety.StepOnRegister | internal/hostdrun/runner.go:518-552 | no step replaces an identity, only token commands touch the token |
| RunnerTheorems.NoLostReconnect | internal/hostdrun/runner.go:559-564 | an attempt older than the latest successful token command has a signal in the channel or about to be sent; it is newer than every consumed signal |
| RunnerTheorems.CommandStrandsExactly | internal/hostdrun/runner.go:518-552 | a token command leaves an up-to-date attempt stale with no signal coming if and only if it changes the token and its directory sync fails |
| RunnerTheorems.StrandedByOneCommand | internal/hostdrun/runner.go:518-564 | in any run, a stale attempt with no signal coming was stranded by one such command after it loaded |
| RunnerTheorems.StaleTokenIsSignalled | internal/hostdrun/runner.go:518-564 | while no token change's directory sync fails, an attempt whose token is not the stored one has a signal coming |
| RunnerTheorems.ConsumedSignalReloads | internal/hostdrun/runner.go:115-133 | in any run, an attempt after a consumed signal loaded its state later than that and carries the token stored when it did |
| RunnerTheorems.SignalLeadsToReload | internal/hostdrun/runner.go:226-228 | a session with a waiting signal can take it and reload at once |
| RunnerTheorems.SilentChangeStrands | internal/hostdrun/runner.go:518-552 | a set-token or clear-token command for another token whose directory sync fails leaves the session on the old one with no signal |
| RunnerTheorems.CancellationHonoured | internal/hostdrun/runner.go:92-127 | no nil result, `Run` ends only with `context.Canceled` or the error of its ended context, at most one dial after the end |
| RunnerTheorems.StatusTruthful | internal/hostdrun/runner.go:566-588 | online exactly when named connected; online only from going online to the status change that ends the attempt, unless the context ended; online for all of that time unless a shutdown was requested |
| RunnerTheorems.BackoffClosedForm | internal/hostdrun/runner.go:91-126 | the next wait is min(2^k, 30) s and the waits total 2^n - 1 or 31 + 30(n - 5) |
| RunnerTheorems.OnlySignalsResetBackoff | internal/hostdrun/runner.go:101-119 | only a consumed signal shortens the series; connecting does not |
| RunnerTheorems.FramesInOrder | internal/hostdrun/runner.go:205-273 | processed frames are a prefix of read frames, one behind at most; answers match requests one to one and in order; none is dropped before a read error |
| RunnerTheorems.HeartbeatsAccounted | internal/hostdrun/runner.go:217-265 | a heartbeat is outstanding exactly while the pong timer runs; heartbeats exceed processed frames by one at most |
| RunnerTheorems.AckTimeoutIsSound | internal/hostdrun/runner.go:243-253 | the timeout is reported only after a full timeout with no frame processed since the heartbeat |
| RunnerTheorems.IdentityKept | internal/hostdrun/runner.go:129-193 | over any run of the runner a stored identity stays |
| RunnerTheorems.TokenKept | internal/hostdrun/runner.go:129-276 | between token commands nothing changes the token |
| RunnerTiming.TtlNeverLapses | internal/hostdrun/runner.go:199-246 | on a live prompt session the last heartbeat is at most the longest gap old, hence within the advertised lifetime whenever that gap fits |
| RunnerTiming.HeartbeatGap | internal/hostdrun/runner.go:229-242 | the first heartbeat follows the opening by exactly one probe, any other the one before by a whole number of probes, at most the longest gap |
| RunnerTiming.DeadPeerNoticed | internal/hostdrun/runner.go:243-253 | once frames stop, no prompt session lasts longer than probe + ack <= 12.5 s |
| RunnerTiming.PromptSessionsAdvance | internal/hostdrun/runner.go:222-275 | the promptness assumption never blocks a session |
| RunnerLapse.LongestGapIsReached | internal/hostdrun/runner.go:217-265 | for every configuration, start and server tick a prompt run has two consecutive heartbeats exactly the longest gap apart |
| RunnerLapse.LapsesExactly | internal/hostdrun/runner.go:321 | two heartbeats can be further apart than the advertised lifetime if and only if the longest gap does not fit it |
| RunnerLapse.SafeSettings | internal/hostdrun/runner.go:199-204 | no server tick makes the lifetime lapse exactly for settings of 4 s and more |
| RunnerLoops.PongTimer.constructor | internal/hostdrun/runner.go:219 | a new timer is armed |
| RunnerLoops.PongTimer.Stop | internal/hostdrun/runner.go:502 | the timer's stop under both channel semantics |
| RunnerLoops.PongTimer.TryReceive | internal/hostdrun/runner.go:503-506 | the non-blocking receive empties the channel |
| RunnerLoops.PongTimer.Receive | internal/hostdrun/runner.go:243 | a value is delivered once, exactly when the deadline has passed |
| RunnerLoops.PongTimer.StopTimer | internal/hostdrun/runner.go:498-508 | afterwards no value can arrive, whatever the state and the semantics |
| RunnerLoops.PongTimer.ResetTimer | internal/hostdrun/runner.go:510-516 | afterwards the timer is armed with the new deadline and nothing stale is pending |
| RunnerLoops.SelectLoop.constructor | internal/hostdrun/runner.go:217-221 | the session starts with the pong timer stopped and nothing outstanding |
| RunnerLoops.SelectLoop.TakeArm | internal/hostdrun/runner.go:223-274 | one arm does to the session exactly what the session functions say |
| RunnerLoops.SelectLoop.Run | internal/hostdrun/runner.go:222-275 | the loop folds its arms until one returns |
| RunnerLoops.SessionAnswersEverything | internal/hostdrun/runner.go:261-273 | a session that goes on has processed exactly the frames handed to it and attempted one answer per request |
| RunnerLoops.RunLoop | internal/hostdrun/runner.go:91-126 | the loop with its backoff variable makes the waits of the closed form and ends with the specified error |
| RunnerRuns.SessionReachable | internal/hostdrun/runner.go:129-194 | every identified runtime can reach a session that carries the stored token |
| RunnerRuns.ReconnectCanBeLost | internal/hostdrun/runner.go:518-552 | from every start of an identified runtime and for every other token a run strands the session on the old token with no signal coming |
| RunnerRuns.ArmIsSteps | internal/hostdrun/runner.go:222-275 | every turn of the imperative select loop is a run of the transition system with the same session data |
| RunnerRuns.TurnIsSteps | internal/hostdrun/runner.go:94-126 | every turn of the imperative reconnect loop is a run of the transition system with the same result, wait and waits so far |
| RunnerReaders.ReadersAccounted | internal/hostdrun/runner.go:205-216 | in any run the blocked readers of finished sessions are exactly as many as the frames those readers got and their sessions did not process |
| RunnerReaders.LeaksExactly | internal/hostdrun/runner.go:205-216 | in any run a finished session's reader is blocked if and only if it held a frame when the session ended or got one later; a blocked or ended reader stays so |
| RunnerReaders.ReadErrorLeaksNone | internal/hostdrun/runner.go:254-260 | a session that ends with a read error leaks no reader and has processed every frame read |
| RunnerReaders.ReadersPileUp | internal/hostdrun/runner.go:205-228 | from every start of an identified runtime and for every number a run has that many blocked readers behind it |
| HostMethods.FirstOccurrencesMeaning | internal/config/config.go:547-562 | duplicate-free, same members, in the order of first occurrence |
| HostMethods.NormalMethodsFixpoint | internal/host/component.go:736-764 | the component's check is the identity on lists the configuration accepts |
| HostMethods.NormalizeMethods | internal/config/config.go:539-567 | the loop with its seen set gives the first occurrences, or reports the first unsupported entry, or that none is left |
| HostMethods.RemoveMethod | internal/host/component.go:799-807 | the in-place filter keeps exactly the other entries in order and leaves the tail of the backing array |
| HostMethods.NewComponentMethods | internal/host/component.go:110-117 | the advertised list, filtered in a fresh array that is not the package's, which keeps its entries |
| HostMethods.AdvertisedMeaning | internal/host/component.go:110-117 | the advertised list picks increasing positions of the methods asked for, each a first occurrence, leaving out only self-update when no update command survives |
| Advertisement.NormalizedIsOffered | internal/cli/cli.go:468-477 | the component accepts every normalised configuration; normalising first changes nothing of what it advertises, and with the host off it holds all but self-update |
| Advertisement.LoadedIsAdvertised | internal/config/config.go:172-193 | from file, environment and options to the advertised list: the first occurrences, in order, of what the first layer with a list asks for, without self-update when no command survives |
| Decimal.NumeralReads | internal/cli/update.go:417 | a printed number reads back, so numbers never print alike |
| Config.IntReads | internal/config/config.go:252-258 | a printed number is read back exactly when it fits 64 bits, otherwise refused |
| ConfigLoad.KeepEntries | internal/config/config.go:494-504 | the loop keeps the trimmed non-blank entries |
| ConfigLoad.NormalizeUpdate | internal/config/config.go:506-537 | the update section's normal form, empty without a surviving command |
| ConfigLoad.AddHint | internal/config/config.go:572-585 | one turn: a blank or repeated hint changes nothing, any other is appended and remembered |
| ConfigLoad.NormalizeHints | internal/config/config.go:569-588 | the loop with its seen set of joined keys |
| ConfigLoad.Settings.constructor | internal/config/config.go:272-290 | the defaults |
| ConfigLoad.Settings.ApplyFile | internal/config/config.go:292-337 | the file layer; an error leaves the record alone |
| ConfigLoad.Settings.ApplyFields | internal/config/config.go:304-335 | only the fields the file sets are overwritten |
| ConfigLoad.Settings.ApplyHost | internal/config/config.go:321-332 | the host section: switch always, lists when not empty, update only with a command |
| ConfigLoad.Settings.ApplyEnv | internal/config/config.go:339-403 | the environment layer; fails exactly when a set variable is malformed |
| ConfigLoad.Settings.ApplyEnvUpdate | internal/config/config.go:372-401 | the update variables, field by field |
| ConfigLoad.Settings.ApplyOptions | internal/config/config.go:405-427 | the options layer |
| ConfigLoad.Settings.NormalizeInPlace | internal/config/config.go:429-466 | the overwritten record is the normal form, or the first error is reported |
| ConfigLoad.LoadSettings | internal/config/config.go:172-193 | the whole loader equals the composition of its layers |
| ConfigLoad.LayerOrder | internal/config/config.go:172-193 | gateway settings come from the first layer that sets them; an option wins even when blank |
| ConfigLoad.OuterLayerOrder | internal/config/config.go:172-193 | the same for display name and log level |
| ConfigLoad.NumberLayerOrder | internal/config/config.go:172-193 | the same for the heartbeat interval and the host switch |
| ConfigLoad.ListLayerOrder | internal/config/config.go:321-371 | the same for methods and hints |
| ConfigLoad.UpdateLayerOrder | internal/config/config.go:329-401 | the file's update section counts as a whole, the environment overrides single fields |
| ConfigRoundTrip.UpdateReadsBack | internal/config/config.go:45-90 | encoded update settings decode with `download` true and trimmed strings, everything else intact |
| ConfigRoundTrip.HintsReadBack | internal/config/config.go:92-107 | encoded trimmed hints decode to themselves |
| ConfigRoundTrip.TreeReadsBack | internal/config/config.go:117-131 | an encoded configuration decodes to its own fields |
| ConfigRoundTrip.HintsAreNormal | internal/config/config.go:569-588 | normal hints are trimmed, not blank and have different keys |
| ConfigRoundTrip.HintsFixpoint | internal/config/config.go:569-588 | such a list is its own normal form |
| ConfigRoundTrip.KeyIsPair | internal/config/config.go:580 | without NUL in the names, joined keys agree exactly when the pairs do |
| ConfigRoundTrip.LoadAfterSave | internal/config/config.go:172-208 | what a load makes of every saved configuration, field by field |
| ConfigRoundTrip.RoundTrip | internal/config/config.go:172-208 | load after save is the normal form if and only if the update section that survives downloads and the fallbacks used settle |
| ConfigRoundTrip.DownloadComesBack | internal/config/config.go:45-90 | on a trimmed host the only loss is `download: false` beside an update command, and nothing else changes |
| ConfigRoundTrip.DownloadIsLost | internal/config/config.go:76 | a concrete family: the defaults with an update command and `download` off save and come back different |
| ConfigRoundTrip.NormalizeTwice | internal/config/config.go:429-466 | normalisation is idempotent exactly when the fallbacks used settle |
| Plist.EscapeReads | internal/launchd/launchd.go:325-334 | decoding the five entities undoes the escaping |
| Plist.RenderReads | internal/launchd/launchd.go:135-165 | scanning printed rows gives back their elements, markup skipped |
| Plist.PlistReadsBack | internal/launchd/launchd.go:96-166 | for all accepted options the text reads back as exactly the fixed keys, each followed by its values |
| Plist.PlistInjective | internal/launchd/launchd.go:96-166 | two texts are equal exactly when the resolved values are |
| Plist.PrintedValues | internal/launchd/launchd.go:97-119 | the values printed are the trimmed options, the working directory defaulting to that of the state file |
| Plist.PrintedLogs | internal/launchd/launchd.go:116-134 | the log paths: trimmed options or defaults, with the second look at standard error |
| Plist.RenderErrors | internal/launchd/launchd.go:97-134 | printing fails exactly on a blank required value, the first being reported, or a needed but unknown home |
| DownloadName.SafeNameIsEntry | internal/cli/update.go:399-406 | never empty, `.` or `..`, no separator or reserved character, no dot or space at the ends |
| DownloadName.SafeNameFixpoints | internal/cli/update.go:399-406 | exactly the names that need no change are returned unchanged |
| DownloadName.SafeNameIsMiddle | internal/cli/update.go:399-406 | nothing is lost but replaced characters and outer dots and spaces |
| DownloadName.JoinIsChild | internal/cli/update.go:410 | joining an entry name gives a direct child, whatever the directory looks like |
| DownloadName.CandidateIsEntry | internal/cli/update.go:416-417 | every candidate is an entry name |
| DownloadName.CandidatesDiffer | internal/cli/update.go:415-417 | candidates are pairwise distinct |
| DownloadName.Pigeonhole | internal/cli/update.go:415-422 | with fewer than a thousand entries some candidate is free |
| DownloadName.UniquePath | internal/cli/update.go:408-424 | the first free candidate, a direct child of the directory; with fewer than a thousand entries nothing exists there |
| DownloadName.FallbackRepeats | internal/cli/update.go:423 | the last resort repeats a taken candidate exactly without an extension and with its number as process ID |
| ServiceOrigin.SplitJoin | internal/cli/pair_invite.go:214-218 | splitting an authority undoes joining host and port, except for a bracketed name |
| ServiceOrigin.SameOriginIsPartialEquivalence | internal/cli/pair_invite.go:229-233 | symmetric, transitive, reflexive exactly where an origin exists |
| ServiceOrigin.SameOriginMeaning | internal/cli/pair_invite.go:200-233 | on plain URLs with ports, same origin exactly when security, host and port agree |
| ServiceOrigin.ExplicitDefaultPort | internal/cli/pair_invite.go:218-225 | writing out the default port keeps the origin |
| ServiceOrigin.InviteSharesOrigin | internal/cli/pair_invite.go:171-198 | the derived gateway has the invite's origin, exactly when the normalised host is not empty |
| ServiceOrigin.RedirectsStayHome | internal/cli/pair_invite.go:278-287 | every request passes the rule, at most ten are made, in order, and the last is reached exactly when all redirects pass and there are at most nine |
| ServiceOrigin.TokenStaysHome | internal/cli/pair_invite.go:125-129 | a claim that carries the token makes requests only to the origin of the gateway recorded last |
| ServiceOrigin.InviteTls | internal/cli/pair_invite.go:72-82 | the saved TLS mode is valid, off exactly for plain invites, and never pinned without a fingerprint |
| TokenTravel.SecureExactly | internal/hostdrun/runner.go:130-152 | what the daemon does of itself, a request under way, and a claim going straight to its request send tokens only home if and only if the daemon's, the configured and the recorded gateway and the services about to be asked have the issuer's origin |
| TokenTravel.DishonestSendsAway | internal/hostdrun/runner.go:130-152 | otherwise a few such events send a token to another origin |
| TokenTravel.UnpairedIsSecure | internal/cli/pair_invite.go:125-128 | without a token and with nothing under way the runtime starts secure |
| TokenTravel.StaysSecureExactly | internal/cli/pair_invite.go:72-155 | each stage of each claim is an event of its own: saving the configuration keeps the tokens secure exactly when the stored token may go there, storing exactly when neither daemon, configuration nor record names another service, recording exactly when the stored token may go there; no other event makes them insecure |
| TokenTravel.TokenReachesIssuer | internal/cli/pair_invite.go:72-155 | over any run of claims, overlapping or not, and daemons the tokens are secure at every moment if and only if every event was careful, and then every sending goes to the origin that issued the token |
| TokenClaims.HarmlessExactly | internal/cli/pair_invite.go:60-155 | a claim that begins alone keeps the tokens secure in every run, whatever the daemon does and wherever the claim stops, if and only if it is fit when it begins: the stored token, if any, and, when the service can issue one, daemon and record are the invite's |
| TokenClaims.FitClaimsReachIssuer | internal/cli/pair_invite.go:60-155 | in a run whose claims begin alone and fit the tokens are secure at every moment and only ever sent to their issuers |
| TokenClaims.FinishedClaimSendsAway | internal/cli/pair_invite.go:83-146 | for every stored token and every claim to another service there is a run in which the claim finishes after a daemon has sent the old token to the new service |
| TokenClaims.TokenFollowsInvite | internal/cli/pair_invite.go:125-155 | after a claim has recorded its gateway, and whatever daemons did since, the next request carries the token exactly when its invite has the origin of the last gateway that said hello, or else of that claim |

## Left out

- StateCodec.ObjectParses: covers objects whose members are strings, with the escapes the encoder writes and the simple and four-digit ones; other JSON values, surrogate pairs, case-insensitive keys and invalid UTF-8 are not modelled.
- StoreHistory.Linearizable: does not cover Windows, where the target can be missing between the removal and the second rename; StateStore states exactly when that happens for a single call.
- StoreHistory.IdentityIsPermanent: one `Store` in one process; two `Store` values on the same file share no lock; loss of power is the subject of StoreDurability.
- StoreDurability.SuccessSurvives: does not cover Windows, where `syncDir` does nothing and the replacement can lose the target; a disk that loses synced data is not modelled, and a state directory that was there at a start is taken to be durable.
- StoreDurability.ReturnedIdentityIsPermanent: does not cover Windows, for the same reasons.
- StoreLoss.WritesSurviveExactly: does not cover Windows; a directory the store made comes back as a whole or not at all.
- RunnerTheorems.IdentityKept: does not cover Windows, where a failed second rename leaves no state file; loss of power is the subject of StoreDurability.
- RunnerTiming.TtlNeverLapses: assumes that inside a session writes and request handlers take no time and timers fire on time; handlers run in the select loop, so a slow one delays heartbeats.
- RunnerTiming.DeadPeerNoticed: rests on the same assumption.
- DownloadName.UniquePath: the directory does not change during the search; paths are cleaned as on Unix.
- Plist.PlistReadsBack: the reader takes characters as they are; line-end normalisation and characters XML forbids are not modelled.
- ServiceOrigin.InviteSharesOrigin: URLs are records; printing a URL and parsing it again is taken to keep scheme and authority.
- ServiceOrigin.RedirectsStayHome: the HTTP client's loop is represented by the list of redirects it asks about; rewriting of methods and bodies is not modelled.
- TokenTravel.TokenReachesIssuer: a token set by hand, a gateway edited by hand, a daemon started with another gateway than the configured one, and two daemons at once are not modelled; while a claim writes the configuration file nothing can be read from it, and two claims do not write it at the same instant.
- TokenClaims.HarmlessExactly: fitness is a condition at the moment the claim begins; nothing in the program keeps a daemon from starting just before.
- RunnerReaders.LeaksExactly: the goroutines of a cancelled dial, read or write inside the connection are not modelled, and whether a closed connection still delivers a frame is the environment's choice.
- Config.Save: the configuration is written in place, without a temporary file or a sync (internal/config/config.go:207), so a crash can leave neither the old nor the new content; loading then fails. Only the finished write is modelled there; TokenTravel has the file unreadable while a claim writes it.
- ConfigRoundTrip.RoundTrip: the file is a tree of named fields; its JSON text and the case-insensitive matching of field names are not modelled.
- ConfigLoad.LoadSettings: path resolution is not modelled; the host name and the default update directory are parameters that do not change between save and load.
- Lower-casing covers ASCII and the two other characters whose lower case is ASCII.
- The runner's concurrency is an explicit transition system rather than threads; a lock-protected section is one step.
- Log lines, message wording of recorded errors, the connect request's content and the list of accepted components.
- The request handlers for files and commands, process execution, package download and installation.
- WebSocket, TLS, HTTP and control-socket transport, the launchd commands, the Windows service and the install scripts.
- Random identity bytes are a parameter; their quality is not modelled.
