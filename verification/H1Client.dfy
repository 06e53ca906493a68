/**
 * The HTTP/1.1 client session: one connection, requests written one after the other, responses read in the
 * order of their requests (section 9.3.2 of RFC 9112). Every step the session, its requests and its
 * responses can take, with reads and writes that start in one step and end in another.
 */
module H1Client {
  import opened Bytes

  /** A request writer. `attached` is its way back to the session; `ends` is about the write in progress. */
  datatype Request = Request(attached: bool, ended: bool, cancelled: bool, writing: bool, ends: bool,
                             requested: bool, released: bool)

  /** A response reader. `message` is which message of the connection it took its first byte from. */
  datatype Reader = Reader(request: nat, attached: bool, finished: bool, done: bool, reading: bool,
                           message: Option<nat>, released: bool)

  /** Shutting down: waiting for the stream to be idle, then closed. */
  datatype Phase = Open | Waiting | Closed

  datatype Session = Session(requests: seq<Request>, readers: seq<Reader>, sending: Option<nat>,
                             responsesRead: nat, sendFailed: bool, receiveFailed: bool, phase: Phase,
                             pending: nat, writes: nat, idle: bool, intact: bool)

  /**
   * What a bystander sees on the connection: whose bytes were written, in order, how many messages have been
   * read off it completely, who is in the middle of one, and which reader has not finished.
   */
  datatype Wire = Wire(sent: seq<nat>, taken: nat, mid: Option<nat>, writer: Option<nat>, current: Option<nat>)

  datatype World = World(s: Session, wire: Wire)

  datatype Code = Fine | Begun | WouldBlock | Aborted | Canceled | BrokenPipe | AlreadyStarted | Eof | Partial

  datatype ReadEnd = Success | Cancelled | Failure

  datatype Event =
    | Submit(hasBody: bool)
    | Write(k: nat, empty: bool, eof: bool)
    | Sends(k: nat) // some bytes of the write in progress reach the connection
    | WriteEnds(k: nat, ok: bool)
    | GetResponse(k: nat)
    | Takes(r: nat) // the read in progress takes bytes off the connection
    | ReadEnds(r: nat, how: ReadEnd, done: bool)
    | ReadSome(r: nat, empty: bool)
    | ReleaseRequest(k: nat)
    | ReleaseReader(r: nat)
    | Shutdown
    | Resume

  const START := World(Session([], [], None, 0, false, false, Open, 0, 0, false, true), Wire([], 0, None, None, None))

  // --- Operations on the stream, counted ---

  function BeginOp(s: Session, write: bool): Session
  {
    s.(pending := s.pending + 1, writes := s.writes + if write then 1 else 0)
  }

  function EndOp(s: Session, write: bool): Session
  {
    var pending := if s.pending == 0 then 0 else s.pending - 1;
    s.(writes := if write && s.writes > 0 then s.writes - 1 else s.writes,
       pending := pending, idle := s.idle || pending == 0)
  }

  // --- What a request tells its session ---

  function RequestFailed(s: Session): Session { s.(sendFailed := true, sending := None) }

  function RequestComplete(s: Session): Session { s.(sending := None) }

  function ReaderFinished(s: Session, complete: bool): Session
  {
    if complete then s.(responsesRead := s.responsesRead + 1) else s.(receiveFailed := true)
  }

  // --- The entry ladders ---

  function SubmitAnswer(s: Session): Code
  {
    if s.sendFailed then Aborted else if s.sending.Some? then WouldBlock else Begun
  }

  function WriteAnswer(q: Request, empty: bool, eof: bool): Code
  {
    if empty && !eof then Fine
    else if q.ended then if empty then Fine else BrokenPipe
    else if !q.attached then Aborted
    else if q.cancelled then Canceled
    else Begun
  }

  function GetResponseAnswer(s: Session, k: nat): Code
    requires k < |s.requests|
  {
    if s.requests[k].requested then AlreadyStarted
    else if !s.requests[k].attached then Aborted
    else if s.receiveFailed then Aborted
    else if k != s.responsesRead then WouldBlock
    else Begun
  }

  function ReadSomeAnswer(r: Reader, empty: bool): Code
  {
    if empty then Fine else if r.done then Eof else if !r.attached then Partial else Begun
  }

  // --- Steps ---

  function StepSubmit(w: World, hasBody: bool): World
  {
    if SubmitAnswer(w.s) != Begun then w
    else
      var k := |w.s.requests|;
      var q := Request(true, false, false, true, !hasBody, false, false);
      w.(s := BeginOp(w.s.(requests := w.s.requests + [q], sending := Some(k)), true),
         wire := w.wire.(writer := Some(k)))
  }

  function StepWrite(w: World, k: nat, empty: bool, eof: bool): World
    requires k < |w.s.requests|
  {
    var q := w.s.requests[k];
    if WriteAnswer(q, empty, eof) != Begun then w
    else
      w.(s := BeginOp(w.s.(requests := w.s.requests[k := q.(writing := true, ends := eof)]), true),
         wire := w.wire.(writer := Some(k)))
  }

  function WriteOver(q: Request, ok: bool): Request
  {
    q.(writing := false, cancelled := q.cancelled || !ok, ended := q.ended || (ok && q.ends))
  }

  /** A request that is still attached tells its session if it is complete, or has failed. */
  function Concluded(s: Session, k: nat): Session
    requires k < |s.requests|
  {
    var q := s.requests[k];
    if !q.attached then s else if q.ended then RequestComplete(s) else if q.cancelled then RequestFailed(s) else s
  }

  /** A write ends: with the body, if it was to end it, or with the request, if it failed. */
  function StepWriteEnds(w: World, k: nat, ok: bool): World
    requires k < |w.s.requests|
  {
    var requests := w.s.requests[k := WriteOver(w.s.requests[k], ok)];
    World(Concluded(EndOp(w.s.(requests := requests), true), k), w.wire.(writer := None))
  }

  function StepSends(w: World, k: nat): World { w.(wire := w.wire.(sent := w.wire.sent + [k])) }

  function StepGetResponse(w: World, k: nat): World
    requires k < |w.s.requests|
  {
    if GetResponseAnswer(w.s, k) != Begun then w
    else
      var r := |w.s.readers|;
      var reader := Reader(k, true, false, false, true, None, false);
      var requests := w.s.requests[k := w.s.requests[k].(requested := true)];
      w.(s := BeginOp(w.s.(requests := requests, readers := w.s.readers + [reader]), false),
         wire := w.wire.(current := Some(r)))
  }

  function StepTakes(w: World, r: nat): World
    requires r < |w.s.readers|
  {
    var reader := w.s.readers[r];
    if reader.message.Some? then w
    else
      World(w.s.(readers := w.s.readers[r := reader.(message := Some(w.wire.taken))]), w.wire.(mid := Some(r)))
  }

  function Finish(w: World, r: nat): World
    requires r < |w.s.readers|
  {
    var reader := w.s.readers[r];
    if !reader.attached || reader.finished then w
    else
      World(ReaderFinished(w.s.(readers := w.s.readers[r := reader.(finished := true)]), reader.done),
            w.wire.(current := None))
  }

  /** A read that was cancelled before it took anything leaves the response to be asked for again. */
  predicate Retries(reader: Reader, how: ReadEnd) { how == Cancelled && reader.message.None? }

  function StepReadEnds(w: World, r: nat, how: ReadEnd, done: bool): World
    requires r < |w.s.readers| && w.s.readers[r].request < |w.s.requests|
  {
    var reader := w.s.readers[r];
    var s := EndOp(w.s.(readers := w.s.readers[r := reader.(reading := false, done := done)]), false);
    if Retries(reader, how) then
      var k := reader.request;
      World(s.(requests := s.requests[k := s.requests[k].(requested := false)],
               readers := s.readers[r := s.readers[r].(finished := true, released := true, attached := false)]),
            w.wire.(current := None))
    else if done then
      Finish(World(s, w.wire.(taken := w.wire.taken + 1, mid := None)), r)
    else World(s, w.wire)
  }

  function StepReadSome(w: World, r: nat, empty: bool): World
    requires r < |w.s.readers|
  {
    var reader := w.s.readers[r];
    if ReadSomeAnswer(reader, empty) != Begun then w
    else w.(s := BeginOp(w.s.(readers := w.s.readers[r := reader.(reading := true)]), false))
  }

  /** A request that goes away half sent ends all sending; one that never asked for its response, all receiving. */
  function StepReleaseRequest(w: World, k: nat): World
    requires k < |w.s.requests|
  {
    var q := w.s.requests[k];
    var s := w.s.(requests := w.s.requests[k := q.(attached := false, released := true)]);
    if !q.attached then w.(s := s)
    else
      var s1 := if s.sending == Some(k) then RequestFailed(s) else s;
      w.(s := if q.requested then s1 else s1.(receiveFailed := true))
  }

  function StepReleaseReader(w: World, r: nat): World
    requires r < |w.s.readers|
  {
    var w1 := Finish(w, r);
    var reader := w1.s.readers[r];
    World(w1.s.(readers := w1.s.readers[r := reader.(attached := false, released := true)]),
          if w1.wire.current == Some(r) then w1.wire.(current := None) else w1.wire)
  }

  function Detached(s: Session): Session
  {
    s.(requests := seq(|s.requests|, i requires 0 <= i < |s.requests| => s.requests[i].(attached := false)),
       readers := seq(|s.readers|, i requires 0 <= i < |s.readers| => s.readers[i].(attached := false)))
  }

  function StepShutdown(w: World): World
  {
    if w.s.phase != Open then w
    else
      var s := Detached(w.s.(intact := !w.s.sendFailed && w.s.writes == 0,
                             sendFailed := true, receiveFailed := true, sending := None));
      w.(s := if s.pending == 0 then s.(phase := Closed) else s.(idle := false, phase := Waiting))
  }

  /** What a step needs of its caller, or of the stream. */
  predicate Enabled(w: World, e: Event)
  {
    match e
    case Submit(_) => true
    case Write(k, _, _) => k < |w.s.requests| && !w.s.requests[k].writing && !w.s.requests[k].released
    case Sends(k) => w.wire.writer == Some(k)
    case WriteEnds(k, _) => k < |w.s.requests| && w.s.requests[k].writing
    case GetResponse(k) => k < |w.s.requests| && !w.s.requests[k].released
    case Takes(r) => r < |w.s.readers| && w.s.readers[r].reading
    case ReadEnds(r, how, done) =>
      && r < |w.s.readers| && w.s.readers[r].reading && w.s.readers[r].request < |w.s.requests|
      && (done || how == Success ==> w.s.readers[r].message.Some?)
    case ReadSome(r, _) =>
      && r < |w.s.readers| && !w.s.readers[r].reading && !w.s.readers[r].released
      && w.s.readers[r].message.Some? // a response handed out with an error is not read from
    case ReleaseRequest(k) =>
      && k < |w.s.requests| && !w.s.requests[k].writing && !w.s.requests[k].released
    case ReleaseReader(r) => r < |w.s.readers| && !w.s.readers[r].reading && !w.s.readers[r].released
    case Shutdown => true
    case Resume => w.s.phase == Waiting && w.s.idle
  }

  function Step(w: World, e: Event): World
    requires Enabled(w, e)
  {
    match e
    case Submit(hasBody) => StepSubmit(w, hasBody)
    case Write(k, empty, eof) => StepWrite(w, k, empty, eof)
    case Sends(k) => StepSends(w, k)
    case WriteEnds(k, ok) => StepWriteEnds(w, k, ok)
    case GetResponse(k) => StepGetResponse(w, k)
    case Takes(r) => StepTakes(w, r)
    case ReadEnds(r, how, done) => StepReadEnds(w, r, how, done)
    case ReadSome(r, empty) => StepReadSome(w, r, empty)
    case ReleaseRequest(k) => StepReleaseRequest(w, k)
    case ReleaseReader(r) => StepReleaseReader(w, r)
    case Shutdown => StepShutdown(w)
    case Resume => w.(s := w.s.(phase := Closed))
  }
}
