/**
 * Runs of the outgoing half: every interleaving of writes, cancellations, offers, acknowledgements
 * and failures, for plain streams and for HTTP/3. A run records what the caller asked for and was
 * told, and what the stack was handed.
 */
module QuicRuns {
  import opened Bytes
  import opened QuicTx
  import opened QuicTxInvariant
  import opened QuicTxOffer

  /** One call of start_write(): what was passed, the token its cancellation is bound to (0 if it was
      never parked), whether it started a write of its own, and what its handler was completed with. */
  datatype Call = Call(data: seq<byte>, eof: bool, token: nat, started: bool, outcomes: seq<Code>)

  /** One accepted write: whose it is, where it begins in the body, and how much of it became body. */
  datatype Accepted = Accepted(call: nat, data: seq<byte>, eof: bool, begin: nat, taken: nat) {
    function End(): nat { begin + taken }
  }

  datatype World = World(
    tx: Tx,
    body: seq<byte>,
    calls: seq<Call>,
    writes: seq<Accepted>,
    wire: seq<byte>,     // every byte the stack was handed and holds on to, in the order of handing over
    fin: Option<nat>     // the write at whose end the stack was handed the FIN
  )

  datatype Event =
    | Write(data: seq<byte>, eof: bool)
    | CancelCall(id: nat)
    | Offered(room: nat, taken: Option<nat>)  // plain streams: how much ngtcp2 wrote, if anything
    | Sent(n: nat)                            // HTTP/3 only
    | Acked(n: nat)                           // the next n bytes
    | Abort(code: Code)
    | Failed(code: Code)
    | DropWriter(headers: bool)

  function Start(mode: Mode, driver: Driver): World
  {
    World(Fresh(mode, driver), [], [], [], [], None)
  }

  /** One outstanding write: no call that would park its handler while another one is parked. */
  predicate Discipline(s: Tx, data: seq<byte>, eof: bool)
  {
    s.handler.None? || (!Adopts(s, data, eof) && !Starts(s, data, eof))
  }

  predicate Enabled(w: World, e: Event)
  {
    match e
    case Write(data, eof) => Discipline(w.tx, data, eof)
    case CancelCall(id) => id < |w.calls|
    case Sent(_) => w.tx.driver == Http3
    case Abort(code) => code != Success
    case _ => true
  }

  function Complete(calls: seq<Call>, done: seq<Completion>): seq<Call>
    decreases done
  {
    if done == [] then calls
    else if done[0].id >= |calls| then Complete(calls, done[1..])
    else
      var c := calls[done[0].id];
      Complete(calls[done[0].id := c.(outcomes := c.outcomes + [done[0].code])], done[1..])
  }

  /** The last accepted write is what the body ends with. */
  function Retake(writes: seq<Accepted>, size: nat): seq<Accepted>
  {
    if writes == [] || writes[|writes| - 1].begin > size then writes
    else
      var last := writes[|writes| - 1];
      writes[|writes| - 1 := last.(taken := size - last.begin)]
  }

  /** A step that is not a call of start_write(). */
  function After(w: World, eff: Effect, body: seq<byte>, handed: seq<byte>, fin: bool): World
  {
    World(eff.tx, body, Complete(w.calls, eff.done), Retake(w.writes, |body|), w.wire + handed,
          if fin && w.writes != [] then Some(|w.writes| - 1) else w.fin)
  }

  /** A call of start_write(). Should one of its assertions fire, nothing happens any more. */
  function StepWrite(w: World, data: seq<byte>, eof: bool): World
  {
    if !AssertsHold(w.tx, data, eof) then w else
    var id := |w.calls|;
    var eff := StartWrite(w.tx, id, data, eof);
    var call := Call(data, eof, BoundToken(w.tx, data, eof), Starts(w.tx, data, eof), []);
    var body := BodyAfterStart(w.tx, w.body, data, eof);
    World(eff.tx, body, Complete(w.calls + [call], eff.done),
          if call.started
          then w.writes + [Accepted(id, data, eof, |w.body|, if w.tx.mode == ZeroCopy then |data| else 0)]
          else w.writes,
          w.wire, w.fin)
  }

  /** What the driver hands the stack, and whether the FIN goes with it. */
  function Handed(w: World, room: nat, taken: Option<nat>): (r: (seq<byte>, bool))
  {
    var o := PendingData(w.tx, From(w.tx), room);
    var all := Gathered(o.tx, o.slices);
    if o.slices == [] && !o.fin then ([], false)
    else if w.tx.driver == Http3 then (all, o.fin)
    else match taken
      case None => ([], false)
      case Some(n) => (all[..Min(n, |all|)], o.fin && n >= |all|)
  }

  /** What becomes of an offer, the state that made it included. */
  function OfferEffect(w: World, room: nat, taken: Option<nat>): Effect
  {
    var o := PendingData(w.tx, From(w.tx), room);
    var (handed, fin) := Handed(w, room, taken);
    if w.tx.driver == Http3 then Http3Taken(o)
    else if taken.None? || (o.slices == [] && !o.fin) then Effect(o.tx, [], false)
    else PlainWritten(o.tx, |handed|, fin)
  }

  function StepOffered(w: World, room: nat, taken: Option<nat>): World
  {
    var (handed, fin) := Handed(w, room, taken);
    After(w, OfferEffect(w, room, taken), BodyAfterPending(w.tx, w.body, room), handed, fin)
  }

  function StepCancel(w: World, id: nat): World
    requires id < |w.calls|
  {
    var token := w.calls[id].token;
    After(w, Cancel(w.tx, token), BodyAfterCancel(w.tx, w.body, token), [], false)
  }

  function Step(w: World, e: Event): World
    requires Enabled(w, e)
  {
    match e
    case Write(data, eof) => StepWrite(w, data, eof)
    case CancelCall(id) => StepCancel(w, id)
    case Offered(room, taken) => StepOffered(w, room, taken)
    case Sent(n) => After(w, Http3Sent(w.tx, n), w.body, [], false)
    case Acked(n) => After(w, Http3Acked(w.tx, n), w.body, [], false)
    case Abort(code) => After(w, AbortWriting(w.tx, code), w.body, [], false)
    case Failed(code) => After(w, Fail(w.tx, code), w.body, [], false)
    case DropWriter(headers) => After(w, DeleteWriter(w.tx, headers), w.body, [], false)
  }

  /** Every event of a run is one that can happen where it does. */
  predicate Legal(w: World, events: seq<Event>)
    decreases events
  {
    events == [] || (Enabled(w, events[0]) && Legal(Step(w, events[0]), events[1..]))
  }

  function Run(w: World, events: seq<Event>): World
    requires Legal(w, events)
    decreases events
  {
    if events == [] then w else Run(Step(w, events[0]), events[1..])
  }

  // ------------------------------------------------------------------------------------------
  // The invariant of all runs
  // ------------------------------------------------------------------------------------------

  /** The body is what the accepted writes contributed, one after the other. */
  predicate Accounts(writes: seq<Accepted>, body: seq<byte>)
  {
    if writes == [] then body == []
    else
      var last := writes[|writes| - 1];
      && last.taken <= |last.data| && last.End() == |body|
      && body[last.begin..] == last.data[..last.taken]
      && Accounts(writes[..|writes| - 1], body[..last.begin])
  }

  /** The stack holds exactly the part of the body that counts as offered. */
  predicate WireInv(w: World)
  {
    w.tx.offered <= |w.body| && w.wire == w.body[..w.tx.offered]
  }

  /** The k-th accepted write belongs to the one call that started it, whose token is k + 1. */
  predicate Owned(a: Accepted, k: nat, calls: seq<Call>)
  {
    && a.call < |calls|
    && var c := calls[a.call];
       c.started && c.token == k + 1 && c.data == a.data && c.eof == a.eof
  }

  predicate WritesInv(w: World)
  {
    && Accounts(w.writes, w.body)
    && w.tx.nextToken == |w.writes| + 1
    && (w.tx.active ==>
          && w.writes != []
          && w.tx.token == |w.writes|
          && var last := w.writes[|w.writes| - 1];
             last.data == w.tx.source && last.eof == w.tx.isEof && last.begin == w.tx.base)
    && (forall k :: 0 <= k < |w.writes| ==> Owned(w.writes[k], k, w.calls))
  }

  /** One handler, one completion: call `i` has been answered once, unless its handler is the parked one. */
  predicate AnsweredOnce(c: Call, i: nat, handler: Option<nat>)
  {
    |c.outcomes| == if handler == Some(i) then 0 else 1
  }

  /** A call that started a write owns it; one that was parked without starting any is a bare re-end. */
  predicate Sane(c: Call, i: nat, writes: seq<Accepted>)
  {
    && c.token <= |writes|
    && (c.started ==> c.token > 0 && writes[c.token - 1].call == i)
    && (!c.started && c.token > 0 ==> c.data == [] && c.eof)
  }

  /** The parked handler is bound to the active write, and shares it only if it adopted a pending FIN. */
  predicate Parked(s: Tx, calls: seq<Call>)
  {
    s.handler.Some? ==>
      && s.handler.value < |calls|
      && var h := calls[s.handler.value];
         && h.token == s.token
         && (h.started ==> h.data == s.source && h.eof == s.isEof)
         && (!h.started ==> s.isEof && s.source == [])
         && (h.started ==> forall i :: 0 <= i < |calls| && calls[i].token == s.token ==> i == s.handler.value)
  }

  predicate CallsInv(w: World)
  {
    && Parked(w.tx, w.calls)
    && (forall i :: 0 <= i < |w.calls| ==> AnsweredOnce(w.calls[i], i, w.tx.handler))
    && (forall i :: 0 <= i < |w.calls| ==> Sane(w.calls[i], i, w.writes))
  }

  /** A call was told Success, and went through start_write() to the end of a write. */
  predicate Succeeded(c: Call) { c.outcomes == [Success] }

  /** How far the stack has to be done with a write for it to succeed. */
  function Settled(s: Tx): nat { if s.mode == ZeroCopy then s.acked else s.sent }

  predicate Earned(c: Call, s: Tx, writes: seq<Accepted>)
  {
    && (c.eof ==> s.finOffered)
    && (c.started && 0 < c.token <= |writes| ==>
          var a := writes[c.token - 1];
          a.taken == |a.data| && (a.data != [] ==> a.End() <= Settled(s)))
  }

  predicate SuccessInv(w: World)
  {
    forall i :: 0 <= i < |w.calls| && Succeeded(w.calls[i]) ==> Earned(w.calls[i], w.tx, w.writes)
  }

  predicate FinInv(w: World)
  {
    && (w.tx.finOffered <==> w.fin.Some?)
    && (w.fin.Some? ==> w.fin.value < |w.writes| && w.writes[w.fin.value].eof)
    && (w.fin.Some? && Live(w.tx) ==> w.fin.value == |w.writes| - 1)
  }

  predicate Inv(w: World)
  {
    && TxInv(w.tx, w.body)
    && PlainSync(w.tx)
    && WireInv(w)
    && WritesInv(w)
    && CallsInv(w)
    && SuccessInv(w)
    && FinInv(w)
  }

  // ------------------------------------------------------------------------------------------
  // How a run may go on
  // ------------------------------------------------------------------------------------------

  /** A call keeps what it was and was told. */
  predicate Kept(c: Call, d: Call)
  {
    d.data == c.data && d.eof == c.eof && d.token == c.token && d.started == c.started && c.outcomes <= d.outcomes
  }

  /** Nothing reached is taken back: what is acknowledged, sent or handed over stays so, and past a
      FIN the body of a live stream is frozen. */
  predicate Forward(w: World, w': World)
  {
    && w.tx.acked <= w'.tx.acked && w.tx.offered <= w'.tx.offered && w.tx.sent <= w'.tx.sent
    && (w.tx.finOffered ==> w'.tx.finOffered)
    && (Live(w'.tx) ==> Live(w.tx))
    && w.wire <= w'.wire
    && |w.calls| <= |w'.calls|
    && (forall i :: 0 <= i < |w.calls| ==> Kept(w.calls[i], w'.calls[i]))
    && (w.tx.finOffered && Live(w'.tx) ==> w'.body == w.body && w'.writes == w.writes)
  }
}
