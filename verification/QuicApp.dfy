/**
 * Plain QUIC streams sharing a connection (src/quic/streams.cpp): the round-robin write queue and
 * what write_pkt() (src/quic/session.cpp) does to it, as a value and its steps.
 */
module QuicApp {
  import opened Bytes
  import opened QuicTx
  import opened QuicTxInvariant
  import opened QuicRuns

  /** A stream of the connection; `body` records what was written to it, and `calls` numbers its start_write() calls. */
  datatype PlainStream = PlainStream(tx: Tx, body: seq<byte>, calls: nat, scheduled: bool, blocked: bool)

  datatype App = App(
    streams: map<nat, PlainStream>,
    queue: seq<nat>,      // write_queue_
    closed: bool,         // closed_ec_ is set
    ever: set<nat>,       // the ids of all streams there have been
    removed: nat          // how many entries have left the queue, all of them from its front
  )

  /** The vec of write_pkt() */
  const ROOM: nat := 16

  function SetStream(a: App, id: nat, p: PlainStream): App { a.(streams := a.streams[id := p]) }

  // ------------------------------------------------------------------------------------------
  // The write queue
  // ------------------------------------------------------------------------------------------

  function Schedule(a: App, id: nat): App
    requires id in a.streams
  {
    var p := a.streams[id];
    if p.scheduled || p.blocked || a.closed then a
    else SetStream(a, id, p.(scheduled := true)).(queue := a.queue + [id])
  }

  function PopFront(a: App): App
    requires a.queue != []
  {
    a.(queue := a.queue[1..], removed := a.removed + 1)
  }

  function UnscheduleFront(a: App, id: nat): App
    requires id in a.streams
  {
    var b := if a.queue != [] && a.queue[0] == id then PopFront(a) else a;
    SetStream(b, id, a.streams[id].(scheduled := false))
  }

  function Look(p: PlainStream): Offer { PendingData(p.tx, p.tx.sent, ROOM) }

  /** A stream that has been asked for what it has to send; staged streams copy their next chunk. */
  function Asked(p: PlainStream): PlainStream
  {
    p.(tx := Look(p).tx, body := BodyAfterPending(p.tx, p.body, ROOM))
  }

  predicate NothingToSend(p: PlainStream) { var o := Look(p); o.slices == [] && (!o.fin || p.tx.finOffered) }

  /** next_stream_data(): the stream at the front that has something to send, after dropping those that have not. */
  function Next(a: App): (r: (App, Option<(nat, Offer)>))
    ensures r.1.Some? ==> var id := r.1.value.0; id in r.0.streams && r.0.queue != [] && r.0.queue[0] == id
    ensures |r.0.queue| <= |a.queue|
    ensures r.1.None? ==> r.0.queue == []
    decreases |a.queue|
  {
    if a.queue == [] then (a, None)
    else
      var id := a.queue[0];
      if id !in a.streams then Next(PopFront(a))
      else if a.streams[id].blocked then Next(UnscheduleFront(a, id))
      else
        var p := a.streams[id];
        var b := SetStream(a, id, Asked(p));
        if NothingToSend(p) then Next(UnscheduleFront(b, id))
        else (b, Some((id, Look(p))))
  }

  function SetTx(a: App, id: nat, tx: Tx): App
    requires id in a.streams
  {
    SetStream(a, id, a.streams[id].(tx := tx))
  }

  /** on_stream_data_written() */
  function Written(a: App, id: nat, n: nat, fin: bool): App
    requires id in a.streams
  {
    var b := UnscheduleFront(a, id);
    var eff := PlainWritten(b.streams[id].tx, n, fin);
    var c := SetTx(b, id, eff.tx);
    Schedule(if eff.writable then Schedule(c, id) else c, id)
  }

  function Blocked(a: App, id: nat): App
    requires id in a.streams
  {
    UnscheduleFront(SetStream(a, id, a.streams[id].(blocked := true)), id)
  }

  function ShutWr(a: App, id: nat): App
    requires id in a.streams
  {
    var b := UnscheduleFront(a, id);
    SetTx(b, id, AbortWriting(b.streams[id].tx, ConnectionReset).tx)
  }

  // ------------------------------------------------------------------------------------------
  // The packing loop
  // ------------------------------------------------------------------------------------------

  /** What ngtcp2_conn_writev_stream() answers. `n` is how much stream data it took, if it says so. */
  datatype Outcome =
    | DataBlocked
    | StreamShut
    | NotFound
    | WriteMore(n: Option<nat>, used: nat)
    | Fatal
    | Done(n: Option<nat>)

  /** The stream data that was taken, out of what was offered, reported back. */
  function Report(a: App, found: Option<(nat, Offer)>, n: Option<nat>): App
    requires found.Some? ==> found.value.0 in a.streams
  {
    if found.None? || n.None? then a
    else
      var (id, o) := found.value;
      var all := |Gathered(o.tx, o.slices)|;
      Written(a, id, Min(n.value, all), o.fin && n.value >= all)
  }

  /** What becomes of the stream that was found. */
  function Acted(b: App, found: Option<(nat, Offer)>, o: Outcome): App
    requires found.Some? ==> found.value.0 in b.streams
  {
    match o
    case DataBlocked => if found.Some? then Blocked(b, found.value.0) else b
    case StreamShut => if found.Some? then ShutWr(b, found.value.0) else b
    case NotFound =>
      if found.Some? then Blocked(ShutWr(b, found.value.0), found.value.0) else b
    case WriteMore(n, _) => Report(b, found, n)
    case Fatal => b
    case Done(n) => Report(b, found, n)
  }

  function Found(a: App, credit: bool): (r: (App, Option<(nat, Offer)>))
    ensures r.1.Some? ==> r.1.value.0 in r.0.streams
  {
    if credit then Next(a) else (a, None)
  }

  /** One pass of the loop. */
  function Pass(a: App, credit: bool, o: Outcome): App
  {
    var (b, found) := Found(a, credit);
    Acted(b, found, o)
  }

  // ------------------------------------------------------------------------------------------
  // Everything that can happen to the connection's streams
  // ------------------------------------------------------------------------------------------

  datatype AppEvent =
    | Create(id: nat, mode: Mode)
    | StartWriteOn(id: nat, data: seq<byte>, eof: bool)
    | CancelOn(id: nat, token: nat)
    | AckedOn(id: nat, n: nat)
    | AbortOn(id: nat, code: Code)
    | FailOn(id: nat, code: Code)
    | DropWriterOn(id: nat)
    | Erase(id: nat)
    | Extend(id: nat)
    | Packing(credit: bool, outcome: Outcome)
    | Close

  predicate AppEnabled(a: App, e: AppEvent)
  {
    match e
    case Create(id, _) => id !in a.ever
    case StartWriteOn(id, data, eof) => id in a.streams && Discipline(a.streams[id].tx, data, eof)
    case CancelOn(id, _) => id in a.streams
    case AckedOn(id, _) => id in a.streams
    case AbortOn(id, code) => id in a.streams && code != Success
    case FailOn(id, _) => id in a.streams
    case DropWriterOn(id) => id in a.streams
    case Erase(id) => true
    case Extend(id) => id in a.streams
    case Packing(_, _) => true
    case Close => true
  }

  /** The stream a write leaves behind. */
  function WrittenTo(p: PlainStream, data: seq<byte>, eof: bool): PlainStream
    requires AssertsHold(p.tx, data, eof)
  {
    p.(tx := QuicTx.StartWrite(p.tx, p.calls, data, eof).tx, body := BodyAfterStart(p.tx, p.body, data, eof),
       calls := p.calls + 1)
  }

  /** A write to stream `id`; the stream is scheduled when it calls on_writable(). */
  function WriteOn(a: App, id: nat, data: seq<byte>, eof: bool): App
    requires id in a.streams
  {
    var p := a.streams[id];
    if !AssertsHold(p.tx, data, eof) then a
    else
      var b := SetStream(a, id, WrittenTo(p, data, eof));
      if QuicTx.StartWrite(p.tx, p.calls, data, eof).writable then Schedule(b, id) else b
  }

  function AppStep(a: App, e: AppEvent): App
    requires AppEnabled(a, e)
  {
    match e
    case Create(id, mode) =>
      SetStream(a, id, PlainStream(Fresh(mode, Plain), [], 0, false, false)).(ever := a.ever + {id})
    case StartWriteOn(id, data, eof) => WriteOn(a, id, data, eof)
    case CancelOn(id, token) =>
      var p := a.streams[id];
      SetStream(a, id, p.(tx := Cancel(p.tx, token).tx, body := BodyAfterCancel(p.tx, p.body, token)))
    case AckedOn(id, n) => SetTx(a, id, Http3Acked(a.streams[id].tx, n).tx)
    case AbortOn(id, code) => SetTx(a, id, AbortWriting(a.streams[id].tx, code).tx)
    case FailOn(id, code) => SetTx(a, id, Fail(a.streams[id].tx, code).tx)
    case DropWriterOn(id) => SetTx(a, id, DeleteWriter(a.streams[id].tx, true).tx)
    case Erase(id) => a.(streams := a.streams - {id})
    case Extend(id) => Schedule(SetStream(a, id, a.streams[id].(blocked := false)), id)
    case Packing(credit, o) => Pass(a, credit, o)
    case Close => a.(queue := [], closed := true)
  }

  predicate AppLegal(a: App, events: seq<AppEvent>)
    decreases events
  {
    events == [] || (AppEnabled(a, events[0]) && AppLegal(AppStep(a, events[0]), events[1..]))
  }

  function AppRun(a: App, events: seq<AppEvent>): App
    requires AppLegal(a, events)
    decreases events
  {
    if events == [] then a else AppRun(AppStep(a, events[0]), events[1..])
  }

  const NO_STREAMS := App(map[], [], false, {}, 0)

  // ------------------------------------------------------------------------------------------
  // What always holds
  // ------------------------------------------------------------------------------------------

  /** There is something for the stream to send: data that is queued, a chunk to copy, or a FIN that is owed. */
  predicate Wants(s: Tx)
  {
    Live(s) && (s.sent < s.queued || Carves(s) || (s.active && s.isEof && AllQueued(s) && !s.finOffered))
  }

  predicate StreamOk(p: PlainStream)
  {
    p.tx.driver == Plain && TxInv(p.tx, p.body) && PlainSync(p.tx)
  }

  predicate Distinct(q: seq<nat>)
  {
    forall i, j :: 0 <= i < j < |q| ==> q[i] != q[j]
  }

  /** `scheduled` says whether the stream is queued, and a stream that wants to send and may, is. */
  predicate QueuedRight(p: PlainStream, queued: bool)
  {
    && (p.scheduled <==> queued)
    && (p.blocked ==> !p.scheduled)
    && (Wants(p.tx) && !p.blocked ==> p.scheduled)
  }

  predicate StreamsOk(a: App)
  {
    && a.streams.Keys <= a.ever
    && (forall id <- a.streams :: StreamOk(a.streams[id]))
  }

  predicate QueueOk(a: App)
  {
    && Distinct(a.queue)
    && (forall id <- a.queue :: id in a.ever)
    && (forall id <- a.streams :: QueuedRight(a.streams[id], id in a.queue))
  }

  predicate AppInv(a: App)
  {
    StreamsOk(a) && if a.closed then a.queue == [] else QueueOk(a)
  }

  /** Entries leave the queue at its front only, and join it at its end only. */
  predicate Rotated(a: App, b: App)
  {
    && a.removed <= b.removed
    && a.ever <= b.ever
    && (a.closed ==> b.closed)
    && (!b.closed && b.removed - a.removed <= |a.queue| ==> a.queue[b.removed - a.removed..] <= b.queue)
  }
}
