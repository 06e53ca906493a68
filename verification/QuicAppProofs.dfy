/** The write queue holds every stream that can send, each once, and turns fairly. */
module QuicAppProofs {
  import opened Bytes
  import opened QuicTx
  import opened QuicTxInvariant
  import opened QuicTxOffer
  import opened QuicRunsProofs
  import opened QuicApp

  // ------------------------------------------------------------------------------------------
  // One stream
  // ------------------------------------------------------------------------------------------

  /** What next_stream_data() returned stands for all the stream has queued and not sent. */
  predicate GoodOffer(p: PlainStream, o: Offer)
  {
    && o.tx == p.tx && Live(p.tx)
    && p.tx.sent + |Gathered(o.tx, o.slices)| == p.tx.queued
    && (o.fin <==> p.tx.active && p.tx.isEof && AllQueued(p.tx))
  }

  lemma AskedOk(p: PlainStream)
    requires StreamOk(p)
    ensures StreamOk(Asked(p))
    ensures NothingToSend(p) <==> !Wants(p.tx)
    ensures NothingToSend(p) ==> Asked(p) == p
    ensures !NothingToSend(p) ==> GoodOffer(Asked(p), Look(p)) && Wants(Asked(p).tx)
  {
    PendingDataInv(p.tx, p.body, p.tx.sent, ROOM);
    if Live(p.tx) {
      OfferIsRestOfBody(p.tx, p.body, ROOM);
    }
  }

  lemma WrittenOk(p: PlainStream, o: Offer, n: nat, fin: bool)
    requires StreamOk(p) && GoodOffer(p, o)
    requires n <= |Gathered(o.tx, o.slices)| && fin == (o.fin && n == |Gathered(o.tx, o.slices)|)
    ensures StreamOk(p.(tx := PlainWritten(p.tx, n, fin).tx))
  {
    PlainWrittenInv(p.tx, p.body, n, fin);
    PlainWrittenMoves(p.tx, p.body, n, fin);
  }

  /** Cancelling or acknowledging gives a stream nothing new to send. */
  lemma NothingNew(p: PlainStream, token: nat, n: nat)
    requires StreamOk(p)
    ensures Wants(Cancel(p.tx, token).tx) ==> Wants(p.tx)
    ensures Wants(Http3Acked(p.tx, n).tx) ==> Wants(p.tx)
  {
  }

  lemma AbandonWants(s: Tx, code: Code)
    ensures !Wants(AbortWriting(s, code).tx) && !Wants(Fail(s, code).tx)
    ensures Wants(DeleteWriter(s, true).tx) ==> Wants(s)
  {
  }

  /** A write that does not call on_writable() gives the stream nothing new to send, either. */
  lemma QuietWrite(p: PlainStream, data: seq<byte>, eof: bool)
    requires StreamOk(p) && AssertsHold(p.tx, data, eof)
    ensures var eff := QuicTx.StartWrite(p.tx, p.calls, data, eof);
      !eff.writable && Wants(eff.tx) ==> Wants(p.tx)
  {
  }

  // ------------------------------------------------------------------------------------------
  // The queue
  // ------------------------------------------------------------------------------------------

  /** QueueOk, except that stream `id` may want to send without being queued. */
  predicate QueueOkBut(a: App, id: nat)
  {
    && Distinct(a.queue)
    && (forall x <- a.queue :: x in a.ever)
    && (forall x <- a.streams :: x != id ==> QueuedRight(a.streams[x], x in a.queue))
    && id in a.streams
    && (a.streams[id].scheduled <==> id in a.queue)
    && (a.streams[id].blocked ==> !a.streams[id].scheduled)
  }

  lemma ScheduleOk(a: App, id: nat)
    requires QueueOkBut(a, id) && id in a.ever && !a.closed
    ensures QueueOk(Schedule(a, id)) && Rotated(a, Schedule(a, id))
  {
    var b := Schedule(a, id);
    forall x <- b.streams ensures QueuedRight(b.streams[x], x in b.queue) {
      if x != id { assert QueuedRight(a.streams[x], x in a.queue); }
    }
    assert a.queue[0..] == a.queue;
  }

  lemma PopOk(q: seq<nat>)
    requires Distinct(q) && q != []
    ensures Distinct(q[1..]) && q[0] !in q[1..]
    ensures forall x :: x in q[1..] <==> x in q && x != q[0]
  {
    forall x | x in q && x != q[0] ensures x in q[1..] {
      var i :| 0 <= i < |q| && q[i] == x;
      assert q[1..][i - 1] == x;
    }
  }

  /** Taking stream `id` off the front, or finding it not queued at all. */
  lemma UnscheduleOk(a: App, id: nat)
    requires QueueOkBut(a, id) && !a.closed && (id in a.queue ==> a.queue[0] == id)
    ensures var b := UnscheduleFront(a, id);
      QueueOkBut(b, id) && Rotated(a, b) && id !in b.queue && |b.queue| <= |a.queue|
      && (id in a.queue ==> |b.queue| < |a.queue|)
  {
    var b := UnscheduleFront(a, id);
    if id in a.queue {
      PopOk(a.queue);
    }
    assert a.queue[0..] == a.queue;
    forall x <- b.streams | x != id ensures QueuedRight(b.streams[x], x in b.queue) {
      assert QueuedRight(a.streams[x], x in a.queue);
    }
  }

  lemma SetOk(a: App, id: nat, p: PlainStream)
    requires QueueOkBut(a, id) && p.scheduled == a.streams[id].scheduled && p.blocked == a.streams[id].blocked
    ensures QueueOkBut(SetStream(a, id, p), id) && Rotated(a, SetStream(a, id, p))
    ensures QueueOk(a) && (Wants(p.tx) ==> Wants(a.streams[id].tx)) ==> QueueOk(SetStream(a, id, p))
  {
    var b := SetStream(a, id, p);
    assert a.queue[0..] == a.queue;
    forall x <- b.streams | x != id ensures QueuedRight(b.streams[x], x in b.queue) {
      assert QueuedRight(a.streams[x], x in a.queue);
    }
  }

  lemma ButOk(a: App, id: nat)
    requires QueueOk(a) && id in a.streams
    ensures QueueOkBut(a, id)
  {
  }

  lemma RotatedTransitive(a: App, b: App, c: App)
    requires Rotated(a, b) && Rotated(b, c)
    ensures Rotated(a, c)
  {
    var r := b.removed - a.removed;
    var s := c.removed - b.removed;
    if !c.closed && r + s <= |a.queue| {
      var tail := a.queue[r..];
      assert tail[s..] == a.queue[r + s..];
      assert b.queue[..|tail|] == tail;
      assert tail[s..] <= b.queue[s..];
    }
  }

  // ------------------------------------------------------------------------------------------
  // next_stream_data() and the packing loop
  // ------------------------------------------------------------------------------------------

  lemma StreamsSet(a: App, id: nat, p: PlainStream)
    requires StreamsOk(a) && StreamOk(p) && id in a.ever
    ensures StreamsOk(SetStream(a, id, p))
  {
  }

  lemma RotatedSelf(a: App)
    ensures Rotated(a, a)
  {
    assert a.queue[0..] == a.queue;
  }

  /** Dropping what is not there any more from the front. */
  lemma PopGone(a: App)
    requires AppInv(a) && !a.closed && a.queue != [] && a.queue[0] !in a.streams
    ensures AppInv(PopFront(a)) && Rotated(a, PopFront(a))
  {
    PopOk(a.queue);
    var b := PopFront(a);
    forall x <- b.streams ensures QueuedRight(b.streams[x], x in b.queue) {
      assert QueuedRight(a.streams[x], x in a.queue);
    }
  }

  /** Dropping a stream that has nothing to send from the front. */
  lemma DropIdle(a: App, id: nat)
    requires AppInv(a) && !a.closed && a.queue != [] && a.queue[0] == id && id in a.streams
    requires !Wants(a.streams[id].tx) || a.streams[id].blocked
    ensures AppInv(UnscheduleFront(a, id)) && Rotated(a, UnscheduleFront(a, id))
  {
    ButOk(a, id);
    UnscheduleOk(a, id);
    StreamsSet(a, id, a.streams[id].(scheduled := false));
  }

  lemma {:induction false} NextOk(a: App)
    requires AppInv(a)
    ensures var (b, found) := Next(a);
      && AppInv(b) && Rotated(a, b) && b.closed == a.closed
      && (found.Some? ==> GoodOffer(b.streams[found.value.0], found.value.1))
    decreases |a.queue|
  {
    if a.queue == [] {
      RotatedSelf(a);
    } else {
      var id := a.queue[0];
      if id !in a.streams {
        PopGone(a);
        NextOk(PopFront(a));
        RotatedTransitive(a, PopFront(a), Next(PopFront(a)).0);
      } else {
        var p := a.streams[id];
        AskedOk(p);
        if p.blocked || NothingToSend(p) {
          var b := UnscheduleFront(if p.blocked then a else SetStream(a, id, Asked(p)), id);
          if !p.blocked { assert a.streams[id := Asked(p)] == a.streams; }
          DropIdle(a, id);
          NextOk(b);
          RotatedTransitive(a, b, Next(b).0);
        } else {
          ButOk(a, id);
          SetOk(a, id, Asked(p));
          StreamsSet(a, id, Asked(p));
        }
      }
    }
  }

  /** Only stream `id` is different. */
  predicate OnlyAt(a: App, b: App, id: nat)
  {
    id in b.streams && b.streams == a.streams[id := b.streams[id]] && b.ever == a.ever && b.closed == a.closed
  }

  lemma UpdateTwice<T, U>(m: map<T, U>, k: T, u: U, v: U)
    ensures m[k := u][k := v] == m[k := v]
  {
  }

  lemma WrittenAt(a: App, id: nat, n: nat, fin: bool)
    requires id in a.streams
    ensures var d := Written(a, id, n, fin);
      && OnlyAt(a, d, id)
      && d.streams[id].body == a.streams[id].body && d.streams[id].calls == a.streams[id].calls
      && d.streams[id].tx == PlainWritten(a.streams[id].tx, n, fin).tx
  {
    var b := UnscheduleFront(a, id);
    var eff := PlainWritten(b.streams[id].tx, n, fin);
    var c := SetTx(b, id, eff.tx);
    UpdateTwice(a.streams, id, b.streams[id], c.streams[id]);
    ScheduleAt(c, id);
    var d := if eff.writable then Schedule(c, id) else c;
    ScheduleAt(d, id);
    UpdateTwice(a.streams, id, c.streams[id], d.streams[id]);
    UpdateTwice(a.streams, id, d.streams[id], Schedule(d, id).streams[id]);
  }

  lemma ScheduleAt(a: App, id: nat)
    requires id in a.streams
    ensures var b := Schedule(a, id);
      && OnlyAt(a, b, id)
      && b.streams[id] == a.streams[id].(scheduled := b.streams[id].scheduled)
  {
    assert a.streams[id := a.streams[id]] == a.streams;
  }

  lemma WrittenQueue(a: App, id: nat, n: nat, fin: bool)
    requires QueueOk(a) && !a.closed && id in a.streams && id in a.ever && a.queue != [] && a.queue[0] == id
    ensures QueueOk(Written(a, id, n, fin)) && Rotated(a, Written(a, id, n, fin))
  {
    ButOk(a, id);
    UnscheduleOk(a, id);
    var b := UnscheduleFront(a, id);
    var p := b.streams[id];
    var eff := PlainWritten(p.tx, n, fin);
    var q := p.(tx := eff.tx);
    SetOk(b, id, q);
    RescheduledQueue(a, b, id, q, eff.writable);
  }

  lemma RescheduledQueue(a: App, b: App, id: nat, q: PlainStream, writable: bool)
    requires Rotated(a, b) && !b.closed && id in b.ever
    requires var c := SetStream(b, id, q); QueueOkBut(c, id) && Rotated(b, c)
    ensures var c := SetStream(b, id, q);
      var d := Schedule(if writable then Schedule(c, id) else c, id);
      QueueOk(d) && Rotated(a, d)
  {
    var c := SetStream(b, id, q);
    ScheduleTwice(c, id, writable);
    RotatedTransitive(a, b, c);
    RotatedTransitive(a, c, Schedule(c, id));
  }

  lemma StreamsAt(a: App, b: App, id: nat)
    requires StreamsOk(a) && OnlyAt(a, b, id) && id in a.ever && StreamOk(b.streams[id])
    ensures StreamsOk(b)
  {
    forall x <- b.streams ensures StreamOk(b.streams[x]) {
      if x != id { assert b.streams[x] == a.streams[x]; }
    }
  }

  lemma WrittenAppOk(a: App, id: nat, o: Offer, n: nat, fin: bool)
    requires AppInv(a) && !a.closed && id in a.streams && a.queue != [] && a.queue[0] == id
    requires GoodOffer(a.streams[id], o)
    requires n <= |Gathered(o.tx, o.slices)| && fin == (o.fin && n == |Gathered(o.tx, o.slices)|)
    ensures AppInv(Written(a, id, n, fin)) && Rotated(a, Written(a, id, n, fin))
  {
    var d := Written(a, id, n, fin);
    WrittenQueue(a, id, n, fin);
    WrittenAt(a, id, n, fin);
    WrittenOk(a.streams[id], o, n, fin);
    assert StreamOk(d.streams[id]);
    StreamsAt(a, d, id);
  }

  lemma ScheduleTwice(c: App, id: nat, writable: bool)
    requires QueueOkBut(c, id) && id in c.ever && !c.closed
    ensures Schedule(if writable then Schedule(c, id) else c, id) == Schedule(c, id)
    ensures QueueOk(Schedule(c, id)) && Rotated(c, Schedule(c, id))
  {
    ScheduleOk(c, id);
  }

  lemma ReportOk(a: App, found: Option<(nat, Offer)>, n: Option<nat>)
    requires AppInv(a)
    requires found.Some? ==>
      var id := found.value.0;
      id in a.streams && a.queue != [] && a.queue[0] == id && GoodOffer(a.streams[id], found.value.1)
    ensures AppInv(Report(a, found, n)) && Rotated(a, Report(a, found, n))
  {
    RotatedSelf(a);
    if found.Some? && n.Some? {
      var (id, o) := found.value;
      var all := |Gathered(o.tx, o.slices)|;
      WrittenAppOk(a, id, o, Min(n.value, all), o.fin && n.value >= all);
    }
  }

  /** Being blocked does not matter to a stream that is not queued. */
  lemma BlockUnqueued(c: App, b: App, id: nat)
    requires QueueOkBut(c, id) && id !in c.queue
    requires b == SetStream(c, id, c.streams[id].(blocked := true))
    ensures QueueOk(b) && Rotated(c, b)
  {
    RotatedSelf(c);
    forall x <- b.streams ensures QueuedRight(b.streams[x], x in b.queue) {
      if x != id { assert QueuedRight(c.streams[x], x in c.queue); }
    }
  }

  lemma BlockedQueue(a: App, id: nat)
    requires QueueOk(a) && !a.closed && id in a.streams && (id in a.queue ==> a.queue[0] == id)
    ensures QueueOk(Blocked(a, id)) && Rotated(a, Blocked(a, id)) && id !in Blocked(a, id).queue
  {
    var b := Blocked(a, id);
    ButOk(a, id);
    UnscheduleOk(a, id);
    var c := UnscheduleFront(a, id);
    UpdateTwice(a.streams, id, a.streams[id].(blocked := true), b.streams[id]);
    UpdateTwice(a.streams, id, c.streams[id], b.streams[id]);
    BlockUnqueued(c, b, id);
    RotatedTransitive(a, c, b);
  }

  lemma BlockedOk(a: App, id: nat)
    requires AppInv(a) && id in a.streams && (id in a.queue ==> a.queue[0] == id)
    ensures AppInv(Blocked(a, id)) && Rotated(a, Blocked(a, id))
    ensures id !in Blocked(a, id).queue
  {
    StreamsAt(a, Blocked(a, id), id);
    if a.closed { RotatedSelf(a); } else { BlockedQueue(a, id); }
  }

  lemma ShutWrQueue(a: App, id: nat)
    requires QueueOk(a) && !a.closed && id in a.streams && (id in a.queue ==> a.queue[0] == id)
    ensures QueueOk(ShutWr(a, id)) && Rotated(a, ShutWr(a, id)) && id !in ShutWr(a, id).queue
  {
    var b := ShutWr(a, id);
    var tx := a.streams[id].tx;
    AbandonWants(tx, ConnectionReset);
    ButOk(a, id);
    UnscheduleOk(a, id);
    var c := UnscheduleFront(a, id);
    SetOk(c, id, c.streams[id].(tx := AbortWriting(tx, ConnectionReset).tx));
    RotatedTransitive(a, c, b);
    forall x <- b.streams ensures QueuedRight(b.streams[x], x in b.queue) {
      if x != id { assert QueuedRight(c.streams[x], x in c.queue); }
    }
  }

  lemma ShutWrStreams(a: App, id: nat)
    requires StreamsOk(a) && id in a.streams
    requires var p := a.streams[id]; TxInv(AbortWriting(p.tx, ConnectionReset).tx, p.body)
    ensures StreamsOk(ShutWr(a, id)) && ShutWr(a, id).closed == a.closed && id in ShutWr(a, id).streams
  {
    StreamsAt(a, ShutWr(a, id), id);
  }

  lemma ShutWrOk(a: App, id: nat)
    requires AppInv(a) && id in a.streams && (id in a.queue ==> a.queue[0] == id)
    ensures AppInv(ShutWr(a, id)) && Rotated(a, ShutWr(a, id))
    ensures id in ShutWr(a, id).streams && id !in ShutWr(a, id).queue
  {
    var p := a.streams[id];
    AbandonInv(p.tx, p.body, ConnectionReset);
    ShutWrStreams(a, id);
    if a.closed { RotatedSelf(a); } else { ShutWrQueue(a, id); }
  }

  lemma NotFoundOk(a: App, id: nat)
    requires AppInv(a) && id in a.streams && (id in a.queue ==> a.queue[0] == id)
    ensures var b := Blocked(ShutWr(a, id), id); AppInv(b) && Rotated(a, b)
  {
    ShutWrOk(a, id);
    BlockedOk(ShutWr(a, id), id);
    RotatedTransitive(a, ShutWr(a, id), Blocked(ShutWr(a, id), id));
  }

  lemma ActedOk(b: App, found: Option<(nat, Offer)>, o: Outcome)
    requires AppInv(b)
    requires found.Some? ==>
      var id := found.value.0;
      id in b.streams && b.queue != [] && b.queue[0] == id && GoodOffer(b.streams[id], found.value.1)
    ensures AppInv(Acted(b, found, o)) && Rotated(b, Acted(b, found, o))
  {
    RotatedSelf(b);
    match o
    case DataBlocked => if found.Some? { BlockedOk(b, found.value.0); }
    case StreamShut => if found.Some? { ShutWrOk(b, found.value.0); }
    case NotFound => if found.Some? { NotFoundOk(b, found.value.0); }
    case WriteMore(n, _) => ReportOk(b, found, n);
    case Fatal =>
    case Done(n) => ReportOk(b, found, n);
  }

  lemma PassOk(a: App, credit: bool, o: Outcome)
    requires AppInv(a)
    ensures AppInv(Pass(a, credit, o)) && Rotated(a, Pass(a, credit, o))
  {
    var (b, found) := Found(a, credit);
    NextOk(a);
    RotatedSelf(a);
    ActedOk(b, found, o);
    RotatedTransitive(a, b, Pass(a, credit, o));
  }

  // ------------------------------------------------------------------------------------------
  // All events, all runs
  // ------------------------------------------------------------------------------------------

  /** A step on stream `id` that leaves the queue alone and the stream with nothing new to send. */
  lemma ReplaceOk(a: App, id: nat, p: PlainStream)
    requires AppInv(a) && id in a.streams && StreamOk(p)
    requires p.scheduled == a.streams[id].scheduled && p.blocked == a.streams[id].blocked
    requires Wants(p.tx) ==> Wants(a.streams[id].tx)
    ensures AppInv(SetStream(a, id, p)) && Rotated(a, SetStream(a, id, p))
  {
    StreamsSet(a, id, p);
    RotatedSelf(a);
    if !a.closed {
      ButOk(a, id);
      SetOk(a, id, p);
    }
  }

  /** A step on stream `id` after which it is scheduled. */
  lemma RescheduleOk(a: App, id: nat, p: PlainStream)
    requires AppInv(a) && id in a.streams && StreamOk(p)
    requires p.scheduled == a.streams[id].scheduled && (p.blocked ==> a.streams[id].blocked)
    ensures AppInv(Schedule(SetStream(a, id, p), id)) && Rotated(a, Schedule(SetStream(a, id, p), id))
  {
    var b := SetStream(a, id, p);
    var c := Schedule(b, id);
    StreamsSet(a, id, p);
    StreamsSet(a, id, c.streams[id]);
    assert c.streams == a.streams[id := c.streams[id]];
    RotatedSelf(a);
    if !a.closed {
      ButOk(a, id);
      forall x <- b.streams | x != id ensures QueuedRight(b.streams[x], x in b.queue) {
        assert QueuedRight(a.streams[x], x in a.queue);
      }
      ScheduleOk(b, id);
    }
  }

  lemma WrittenToOk(p: PlainStream, data: seq<byte>, eof: bool)
    requires StreamOk(p) && AssertsHold(p.tx, data, eof)
    ensures StreamOk(WrittenTo(p, data, eof))
  {
    StartWriteInv(p.tx, p.body, p.calls, data, eof);
  }

  lemma WroteOk(a: App, id: nat, q: PlainStream, writable: bool)
    requires AppInv(a) && id in a.streams && StreamOk(q)
    requires q.scheduled == a.streams[id].scheduled && q.blocked == a.streams[id].blocked
    requires !writable && Wants(q.tx) ==> Wants(a.streams[id].tx)
    ensures var b := SetStream(a, id, q);
      var c := if writable then Schedule(b, id) else b;
      AppInv(c) && Rotated(a, c)
  {
    if writable { RescheduleOk(a, id, q); } else { ReplaceOk(a, id, q); }
  }

  lemma WriteOnOk(a: App, id: nat, data: seq<byte>, eof: bool)
    requires AppInv(a) && id in a.streams
    ensures AppInv(WriteOn(a, id, data, eof)) && Rotated(a, WriteOn(a, id, data, eof))
  {
    var p := a.streams[id];
    if AssertsHold(p.tx, data, eof) {
      WrittenToOk(p, data, eof);
      QuietWrite(p, data, eof);
      WroteOk(a, id, WrittenTo(p, data, eof), QuicTx.StartWrite(p.tx, p.calls, data, eof).writable);
    } else {
      RotatedSelf(a);
    }
  }

  lemma CreateOk(a: App, id: nat, mode: Mode)
    requires AppInv(a) && id !in a.ever
    ensures var b := AppStep(a, Create(id, mode)); AppInv(b) && Rotated(a, b)
  {
    FreshInv(mode, Plain);
    RotatedSelf(a);
    var b := AppStep(a, Create(id, mode));
    assert id !in a.streams;
    if !a.closed {
      forall x <- b.streams ensures QueuedRight(b.streams[x], x in b.queue) {
        if x != id { assert QueuedRight(a.streams[x], x in a.queue); }
      }
    }
  }

  lemma EraseOk(a: App, id: nat)
    requires AppInv(a)
    ensures var b := AppStep(a, Erase(id)); AppInv(b) && Rotated(a, b)
  {
    RotatedSelf(a);
  }

  lemma CancelOnOk(a: App, id: nat, token: nat)
    requires AppInv(a) && id in a.streams
    ensures var b := AppStep(a, CancelOn(id, token)); AppInv(b) && Rotated(a, b)
  {
    var p := a.streams[id];
    CancelInv(p.tx, p.body, token);
    NothingNew(p, token, 0);
    ReplaceOk(a, id, p.(tx := Cancel(p.tx, token).tx, body := BodyAfterCancel(p.tx, p.body, token)));
  }

  lemma AckedStream(p: PlainStream, n: nat)
    requires StreamOk(p)
    ensures StreamOk(p.(tx := Http3Acked(p.tx, n).tx)) && (Wants(Http3Acked(p.tx, n).tx) ==> Wants(p.tx))
  {
    OnAckedInv(p.tx, p.body, p.tx.acked + n);
    NothingNew(p, 0, n);
  }

  /** A stream whose writing side is over, or that is none the wiser, wants nothing new. */
  lemma EndedOk(a: App, id: nat, tx: Tx)
    requires AppInv(a) && id in a.streams
    requires TxInv(tx, a.streams[id].body) && PlainSync(tx) && tx.driver == Plain
    requires Wants(tx) ==> Wants(a.streams[id].tx)
    ensures AppInv(SetTx(a, id, tx)) && Rotated(a, SetTx(a, id, tx))
  {
    ReplaceOk(a, id, a.streams[id].(tx := tx));
  }

  lemma AppStepOk(a: App, e: AppEvent)
    requires AppInv(a) && AppEnabled(a, e)
    ensures AppInv(AppStep(a, e)) && Rotated(a, AppStep(a, e))
  {
    match e
    case Create(id, mode) => CreateOk(a, id, mode);
    case StartWriteOn(id, data, eof) => WriteOnOk(a, id, data, eof);
    case CancelOn(id, token) => CancelOnOk(a, id, token);
    case AckedOn(id, n) =>
      AckedStream(a.streams[id], n);
      EndedOk(a, id, Http3Acked(a.streams[id].tx, n).tx);
    case AbortOn(id, code) =>
      AbandonInv(a.streams[id].tx, a.streams[id].body, code);
      AbandonWants(a.streams[id].tx, code);
      EndedOk(a, id, AbortWriting(a.streams[id].tx, code).tx);
    case FailOn(id, code) =>
      AbandonInv(a.streams[id].tx, a.streams[id].body, code);
      AbandonWants(a.streams[id].tx, code);
      EndedOk(a, id, Fail(a.streams[id].tx, code).tx);
    case DropWriterOn(id) =>
      DeleteWriterInv(a.streams[id].tx, a.streams[id].body, true);
      AbandonWants(a.streams[id].tx, ConnectionReset);
      EndedOk(a, id, DeleteWriter(a.streams[id].tx, true).tx);
    case Erase(id) => EraseOk(a, id);
    case Extend(id) => RescheduleOk(a, id, a.streams[id].(blocked := false));
    case Packing(credit, o) => PassOk(a, credit, o);
    case Close =>
  }

  lemma {:induction false} AppRunOk(a: App, events: seq<AppEvent>)
    requires AppInv(a) && AppLegal(a, events)
    ensures AppInv(AppRun(a, events)) && Rotated(a, AppRun(a, events))
    decreases events
  {
    RotatedSelf(a);
    if events != [] {
      var b := AppStep(a, events[0]);
      AppStepOk(a, events[0]);
      AppRunOk(b, events[1..]);
      RotatedTransitive(a, b, AppRun(b, events[1..]));
    }
  }

  /**
   * While the connection is open, a live stream that is not blocked and has data or a FIN to send is
   * in the write queue, exactly once; a blocked one is not.
   */
  lemma NoStreamForgotten(events: seq<AppEvent>, id: nat)
    requires AppLegal(NO_STREAMS, events)
    requires var a := AppRun(NO_STREAMS, events); !a.closed && id in a.streams
    ensures var a := AppRun(NO_STREAMS, events);
      var p := a.streams[id];
      && (Wants(p.tx) && !p.blocked ==> id in a.queue)
      && (p.blocked ==> id !in a.queue)
      && (p.scheduled <==> id in a.queue)
      && multiset(a.queue)[id] <= 1
      && (Wants(p.tx) <==> !NothingToSend(p))
  {
    AppRunOk(NO_STREAMS, events);
    var a := AppRun(NO_STREAMS, events);
    assert QueuedRight(a.streams[id], id in a.queue) && StreamOk(a.streams[id]);
    AskedOk(a.streams[id]);
    DistinctCount(a.queue, id);
  }

  lemma {:induction false} DistinctCount(q: seq<nat>, x: nat)
    requires Distinct(q)
    ensures multiset(q)[x] <= 1
  {
    if q != [] {
      PopOk(q);
      DistinctCount(q[1..], x);
      assert q == [q[0]] + q[1..];
    }
  }

  /** What stands at position `k` is at the front once `k` entries have been removed. */
  predicate KeepsPlace(a: App, b: App, k: nat)
  {
    k < |a.queue| && !b.closed ==>
      && a.removed <= b.removed
      && (b.removed - a.removed <= k ==>
            k - (b.removed - a.removed) < |b.queue| && b.queue[k - (b.removed - a.removed)] == a.queue[k])
  }

  lemma RotatedAt(a: App, b: App, k: nat)
    requires Rotated(a, b)
    ensures KeepsPlace(a, b, k)
  {
    if k < |a.queue| && !b.closed && b.removed - a.removed <= k {
      assert a.queue[b.removed - a.removed..][k - (b.removed - a.removed)] == a.queue[k];
    }
  }

  /** A stream's turn comes after those of the streams before it, whatever else happens. */
  lemma TurnComes(before: seq<AppEvent>, after: seq<AppEvent>, k: nat)
    requires AppLegal(NO_STREAMS, before) && AppLegal(AppRun(NO_STREAMS, before), after)
    ensures KeepsPlace(AppRun(NO_STREAMS, before), AppRun(AppRun(NO_STREAMS, before), after), k)
  {
    AppRunOk(NO_STREAMS, before);
    AppRunOk(AppRun(NO_STREAMS, before), after);
    RotatedAt(AppRun(NO_STREAMS, before), AppRun(AppRun(NO_STREAMS, before), after), k);
  }
}
