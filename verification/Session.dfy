/** internal/hostdrun/runner.go: the data of one connected session of `runOnce` (ticker, pong timer,
    reader goroutine, hand-off channel, request answers) and what each `select` arm does to it. */
module Session {
  import opened Text
  import opened Heartbeat

  /** The errors `runOnce` and `Run` can end with. The first two are the context's errors;
      the next two are the runner's private sentinels. */
  datatype Error =
    | Canceled
    | DeadlineExceeded
    | PairingRequired
    | ReconnectRequested
    | AckTimeout
    | StoreFailure
    | ConnectRejected(message: string)
    | NetworkFailure(message: string)

  /** `time.Timer` as `select` sees it; `Fired` means a value is ready on its channel. */
  datatype Timer = Stopped | Armed(deadline: int) | Fired

  datatype Kind = Event | Request | Unknown

  datatype Frame = Frame(kind: Kind, id: string, methodName: string)

  /** The `res` frame `handleRequest` tries to write, whatever branch it takes. */
  datatype Response = Response(id: string, ok: bool, code: ErrorCode)

  datatype ErrorCode = NoError | HostComponentDisabled | DispatchError(code: string)

  /** What the host component makes of a request. */
  datatype Dispatch = Result | Refused(code: string)

  /** The reader goroutine: in `ReadJSON`, blocked on the unbuffered channel with a frame, or gone. */
  datatype Reader = Reading | Holding(frame: Frame) | Gone

  /** The server's tick, the variables of the session, then its history: frames read and processed, answers attempted,
      heartbeats sent and cleared, and the times of opening, last heartbeat, last clearing, last frame. */
  datatype Link = Link(
    tickMs: Int64, probe: int, ack: int,
    nextTick: int, tickReady: bool,
    pong: Timer, awaitingPong: bool,
    reader: Reader, readError: Option<Error>,
    read: seq<Frame>, processed: seq<Frame>, responses: seq<Response>,
    beats: nat, cleared: nat, processedAtBeat: nat,
    openedAt: int, lastBeat: int, clearedAt: int, lastFrame: int)

  function Open(now: int, tickMs: Int64, probe: int, ack: int): Link {
    Link(tickMs, probe, ack, now + probe, false, Stopped, false, Reading, None, [], [], [], 0, 0, 0, now, now, now, now)
  }

  /** The ticker delivers at most one pending tick and keeps its phase. */
  function TickFires(l: Link, now: int): Link
    requires l.probe > 0
  {
    l.(tickReady := true, nextTick := now + l.probe - (now - l.nextTick) % l.probe)
  }

  function PongFires(l: Link): Link {
    l.(pong := Fired)
  }

  function TakeTick(l: Link): Link {
    l.(tickReady := false)
  }

  /** After a successful heartbeat write: `awaitingPong = true; resetTimer(pongTimer, ackTimeout)`. */
  function BeatSent(l: Link, now: int): Link {
    l.(awaitingPong := true, pong := Armed(now + l.ack), beats := l.beats + 1, lastBeat := now,
       processedAtBeat := |l.processed|)
  }

  function TakePong(l: Link): Link {
    l.(pong := Stopped)
  }

  /** A frame received on the hand-off channel; it clears an outstanding heartbeat. */
  function TakeFrame(l: Link, now: int): Link
    requires l.reader.Holding?
  {
    var m := l.(reader := Reading, processed := l.processed + [l.reader.frame], lastFrame := now);
    if l.awaitingPong
    then m.(awaitingPong := false, pong := Stopped, cleared := l.cleared + 1, clearedAt := now)
    else m
  }

  /** `handleRequest`: one write, carrying the request's ID, on every branch. */
  function Respond(f: Frame, hasComponent: bool, d: Dispatch): Response {
    if !hasComponent then Response(f.id, false, HostComponentDisabled)
    else
      match d
      case Refused(code) => Response(f.id, false, DispatchError(code))
      case Result => Response(f.id, true, NoError)
  }

  function Answered(l: Link, r: Response): Link {
    l.(responses := l.responses + [r])
  }

  function FrameRead(l: Link, f: Frame): Link {
    l.(reader := Holding(f), read := l.read + [f])
  }

  function ReadFailed(l: Link, e: Error): Link {
    l.(reader := Gone, readError := Some(e))
  }

  function RequestIds(frames: seq<Frame>): seq<string> {
    if frames == [] then []
    else
      var last := frames[|frames| - 1];
      RequestIds(frames[..|frames| - 1]) + if last.kind.Request? then [last.id] else []
  }

  function ResponseIds(responses: seq<Response>): seq<string> {
    seq(|responses|, i requires 0 <= i < |responses| => responses[i].id)
  }

  lemma {:induction false} RequestIdsExtend(frames: seq<Frame>, f: Frame)
    ensures RequestIds(frames + [f]) == RequestIds(frames) + if f.kind.Request? then [f.id] else []
  {
    assert (frames + [f])[..|frames|] == frames;
  }

  // ---------------------------------------------------------------- invariants of a session

  /** Frames processed are a prefix of frames read, short by exactly the one the reader holds. */
  predicate InOrder(l: Link) {
    && l.read == l.processed + (if l.reader.Holding? then [l.reader.frame] else [])
    && (l.readError.Some? ==> l.reader.Gone?)
  }

  /** A heartbeat is outstanding exactly while the pong timer is armed or fired and undelivered. */
  predicate Bookkeeping(l: Link, now: int) {
    && (l.awaitingPong <==> !l.pong.Stopped?)
    && l.beats == l.cleared + (if l.awaitingPong then 1 else 0)
    && l.cleared <= |l.processed|
    && (l.awaitingPong ==> l.processedAtBeat == |l.processed|)
    && (l.pong.Armed? ==> l.pong.deadline == l.lastBeat + l.ack)
    && (l.pong.Fired? ==> l.lastBeat + l.ack <= now)
  }

  /** Answers attempted so far, when `pending` of the processed frames still await theirs. */
  predicate AnsweredUpTo(l: Link, pending: nat) {
    && pending <= |l.processed|
    && ResponseIds(l.responses) == RequestIds(l.processed[..|l.processed| - pending])
  }
}
