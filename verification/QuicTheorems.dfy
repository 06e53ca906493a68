/** What holds of every run of the outgoing half of a QUIC stream. */
module QuicTheorems {
  import opened Bytes
  import opened QuicTx
  import opened QuicTxInvariant
  import opened QuicTxOffer
  import opened QuicRuns
  import opened QuicRunsProofs

  // ------------------------------------------------------------------------------------------
  // Calls of start_write()
  // ------------------------------------------------------------------------------------------

  lemma CallsGrow(calls: seq<Call>, call: Call, writes: seq<Accepted>, writes': seq<Accepted>)
    requires writes <= writes'
    requires forall k :: 0 <= k < |writes| ==> Owned(writes[k], k, calls)
    requires forall i :: 0 <= i < |calls| ==> Sane(calls[i], i, writes)
    ensures forall k :: 0 <= k < |writes| ==> Owned(writes'[k], k, calls + [call])
    ensures forall i :: 0 <= i < |calls| ==> Sane((calls + [call])[i], i, writes')
  {
    forall k | 0 <= k < |writes| ensures Owned(writes'[k], k, calls + [call]) {
      assert Owned(writes[k], k, calls);
    }
    forall i | 0 <= i < |calls| ensures Sane((calls + [call])[i], i, writes') {
      assert Sane(calls[i], i, writes);
    }
  }

  lemma AccountsSnoc(writes: seq<Accepted>, body: seq<byte>, a: Accepted, body': seq<byte>)
    requires Accounts(writes, body) && a.begin == |body| && a.taken <= |a.data|
    requires body' == body + a.data[..a.taken]
    ensures Accounts(writes + [a], body')
  {
    assert (writes + [a])[..|writes|] == writes;
    assert body'[..a.begin] == body && body'[a.begin..] == a.data[..a.taken];
  }

  lemma CompleteOne(calls: seq<Call>, c: Completion)
    requires c.id < |calls|
    ensures Complete(calls, [c]) == calls[c.id := calls[c.id].(outcomes := calls[c.id].outcomes + [c.code])]
  {
    var done := [c];
    assert done[1..] == [] && done[0] == c;
  }

  lemma UpdateLast<T>(s: seq<T>, x: T, y: T)
    ensures (s + [x])[|s| := y] == s + [y]
  {
  }

  lemma AnswerLast(calls: seq<Call>, call: Call, code: Code)
    requires call.outcomes == []
    ensures Complete(calls + [call], [Completion(|calls|, code)]) == calls + [call.(outcomes := [code])]
  {
    CompleteOne(calls + [call], Completion(|calls|, code));
    UpdateLast(calls, call, call.(outcomes := [code]));
    assert call.outcomes + [code] == [code];
  }

  /** What the entry ladder answers; Success to a write_eof means the FIN has been handed over. */
  lemma LadderAnswer(s: Tx, body: seq<byte>, id: nat, data: seq<byte>, eof: bool) returns (code: Code)
    requires TxInv(s, body) && !Adopts(s, data, eof) && !Starts(s, data, eof)
    ensures StartWrite(s, id, data, eof) == Effect(s, [Completion(id, code)], false)
    ensures code == Success && eof ==> s.finOffered
  {
    code := StartWrite(s, id, data, eof).done[0].code;
  }

  /** A call that is answered on the spot leaves the stream alone. */
  lemma AnsweredInv(w: World, data: seq<byte>, eof: bool)
    requires Inv(w) && !Adopts(w.tx, data, eof) && !Starts(w.tx, data, eof)
    ensures Inv(StepWrite(w, data, eof))
  {
    var w' := StepWrite(w, data, eof);
    var code := LadderAnswer(w.tx, w.body, |w.calls|, data, eof);
    var call := Call(data, eof, 0, false, []);
    AnswerLast(w.calls, call, code);
    AnsweredBooks(w, w', call.(outcomes := [code]));
  }

  lemma AnsweredBooks(w: World, w': World, call: Call)
    requires WritesInv(w) && CallsInv(w) && SuccessInv(w) && HandlerMatches(w.tx)
    requires w' == w.(calls := w.calls + [call])
    requires call.token == 0 && !call.started && |call.outcomes| == 1
    requires Succeeded(call) && call.eof ==> w.tx.finOffered
    ensures WritesInv(w') && CallsInv(w') && SuccessInv(w')
  {
    var id := |w.calls|;
    CallsGrow(w.calls, call, w.writes, w.writes);
    forall i | 0 <= i < |w'.calls| ensures AnsweredOnce(w'.calls[i], i, w'.tx.handler) {
      if i < id { assert AnsweredOnce(w.calls[i], i, w.tx.handler); }
    }
    forall i | 0 <= i < |w'.calls| && Succeeded(w'.calls[i]) ensures Earned(w'.calls[i], w'.tx, w'.writes) {
      if i < id { assert Earned(w.calls[i], w.tx, w.writes); }
    }
  }

  lemma AdoptedInv(w: World, data: seq<byte>, eof: bool)
    requires Inv(w) && Discipline(w.tx, data, eof) && Adopts(w.tx, data, eof)
    ensures Inv(StepWrite(w, data, eof))
  {
    var w' := StepWrite(w, data, eof);
    var call := Call(data, eof, w.tx.token, false, []);
    assert w'.calls == w.calls + [call];
    assert w'.tx == w.tx.(handler := Some(|w.calls|));
    AdoptedBooks(w, w', call);
  }

  lemma AdoptedBooks(w: World, w': World, call: Call)
    requires WritesInv(w) && CallsInv(w) && SuccessInv(w) && HandlerMatches(w.tx)
    requires w' == w.(calls := w.calls + [call], tx := w.tx.(handler := Some(|w.calls|)))
    requires w.tx.handler.None? && w.tx.active
    requires call.token == w.tx.token && !call.started && call.outcomes == []
    requires call.eof && call.data == []
    requires w.tx.isEof
    ensures WritesInv(w') && CallsInv(w') && SuccessInv(w')
  {
    CallsGrow(w.calls, call, w.writes, w.writes);
    forall i | 0 <= i < |w'.calls| ensures AnsweredOnce(w'.calls[i], i, w'.tx.handler) {
      if i < |w.calls| { assert AnsweredOnce(w.calls[i], i, w.tx.handler); }
    }
    forall i | 0 <= i < |w'.calls| && Succeeded(w'.calls[i]) ensures Earned(w'.calls[i], w'.tx, w'.writes) {
      if i < |w.calls| { assert Earned(w.calls[i], w.tx, w.writes); }
    }
  }

  lemma StartedBooks(w: World, data: seq<byte>, eof: bool)
    requires Inv(w) && Discipline(w.tx, data, eof) && Starts(w.tx, data, eof)
    ensures var w' := StepWrite(w, data, eof);
      && WritesInv(w') && CallsInv(w') && SuccessInv(w')
  {
    AssertsNeverFire(w.tx, w.body, data, eof);
    var w' := StepWrite(w, data, eof);
    var id := |w.calls|;
    var call := Call(data, eof, w.tx.nextToken, true, []);
    var a := Accepted(id, data, eof, |w.body|, if w.tx.mode == ZeroCopy then |data| else 0);
    assert w'.calls == w.calls + [call] && w'.writes == w.writes + [a];
    AccountsSnoc(w.writes, w.body, a, w'.body);
    CallsGrow(w.calls, call, w.writes, w'.writes);
    forall i | 0 <= i < |w'.calls| ensures AnsweredOnce(w'.calls[i], i, w'.tx.handler) {
      if i < id { assert AnsweredOnce(w.calls[i], i, w.tx.handler); }
    }
    forall i | 0 <= i < |w'.calls| && Succeeded(w'.calls[i]) ensures Earned(w'.calls[i], w'.tx, w'.writes) {
      if i < id { assert Earned(w.calls[i], w.tx, w.writes); }
    }
  }

  lemma StartedInv(w: World, data: seq<byte>, eof: bool)
    requires Inv(w) && Discipline(w.tx, data, eof) && Starts(w.tx, data, eof)
    ensures Inv(StepWrite(w, data, eof))
  {
    AssertsNeverFire(w.tx, w.body, data, eof);
    StartWriteInv(w.tx, w.body, |w.calls|, data, eof);
    StartedBooks(w, data, eof);
    assert (w.body + data)[..w.tx.offered] == w.body[..w.tx.offered];
  }

  // ------------------------------------------------------------------------------------------
  // All steps, all runs
  // ------------------------------------------------------------------------------------------

  lemma WriteForward(w: World, data: seq<byte>, eof: bool)
    requires TxInv(w.tx, w.body) && Discipline(w.tx, data, eof)
    ensures Forward(w, StepWrite(w, data, eof))
  {
    var w' := StepWrite(w, data, eof);
    if AssertsHold(w.tx, data, eof) {
      var call := Call(data, eof, BoundToken(w.tx, data, eof), Starts(w.tx, data, eof), []);
      var eff := StartWrite(w.tx, |w.calls|, data, eof);
      if eff.done != [] {
        assert eff.done == [Completion(|w.calls|, eff.done[0].code)];
        AnswerLast(w.calls, call, eff.done[0].code);
      }
      assert forall i :: 0 <= i < |w.calls| ==> w'.calls[i] == w.calls[i];
    }
  }

  lemma StepKeepsInv(w: World, e: Event)
    requires Inv(w) && Enabled(w, e)
    ensures Inv(Step(w, e)) && Forward(w, Step(w, e))
  {
    match e
    case Write(data, eof) =>
      WriteForward(w, data, eof);
      if Adopts(w.tx, data, eof) { AdoptedInv(w, data, eof); }
      else if Starts(w.tx, data, eof) { StartedInv(w, data, eof); }
      else { AnsweredInv(w, data, eof); }
    case CancelCall(id) =>
      var token := w.calls[id].token;
      CancelSound(w, token);
      AfterInv(w, Cancel(w.tx, token), BodyAfterCancel(w.tx, w.body, token), [], false);
    case Offered(room, taken) => OfferedInv(w, room, taken);
    case Sent(n) =>
      SentSound(w, n);
      AfterInv(w, Http3Sent(w.tx, n), w.body, [], false);
    case Acked(n) =>
      AckedSound(w, n);
      AfterInv(w, Http3Acked(w.tx, n), w.body, [], false);
    case Abort(code) =>
      AbortSound(w, code);
      AfterInv(w, AbortWriting(w.tx, code), w.body, [], false);
    case Failed(code) =>
      FailSound(w, code);
      AfterInv(w, Fail(w.tx, code), w.body, [], false);
    case DropWriter(headers) =>
      DropWriterSound(w, headers);
      AfterInv(w, DeleteWriter(w.tx, headers), w.body, [], false);
  }

  lemma {:induction false} RunKeepsInv(w: World, events: seq<Event>)
    requires Inv(w) && Legal(w, events)
    ensures Inv(Run(w, events)) && Forward(w, Run(w, events))
    decreases events
  {
    if events != [] {
      var v := Step(w, events[0]);
      StepKeepsInv(w, events[0]);
      RunKeepsInv(v, events[1..]);
      ForwardTransitive(w, v, Run(v, events[1..]));
    }
  }

  lemma ForwardTransitive(u: World, v: World, w: World)
    requires Forward(u, v) && Forward(v, w)
    ensures Forward(u, w)
  {
    forall i | 0 <= i < |u.calls| ensures Kept(u.calls[i], w.calls[i]) {
      assert Kept(u.calls[i], v.calls[i]) && Kept(v.calls[i], w.calls[i]);
    }
  }

  /** A world some run from a fresh stream leads to. */
  ghost predicate Reachable(w: World)
  {
    exists mode, driver, events :: Legal(Start(mode, driver), events) && w == Run(Start(mode, driver), events)
  }

  lemma ReachableInv(w: World)
    requires Reachable(w)
    ensures Inv(w)
  {
    var mode, driver, events :| Legal(Start(mode, driver), events) && w == Run(Start(mode, driver), events);
    FreshInv(mode, driver);
    assert Inv(Start(mode, driver));
    RunKeepsInv(Start(mode, driver), events);
  }

  // ------------------------------------------------------------------------------------------
  // What is transmitted
  // ------------------------------------------------------------------------------------------

  /** What each accepted write contributed: a beginning of the caller's buffer. */
  function Contributions(writes: seq<Accepted>): seq<seq<byte>>
  {
    seq(|writes|, i requires 0 <= i < |writes| => writes[i].data[..Min(writes[i].taken, |writes[i].data|)])
  }

  lemma {:induction false} AccountsIsConcat(writes: seq<Accepted>, body: seq<byte>)
    requires Accounts(writes, body)
    ensures body == Concat(Contributions(writes))
    ensures forall i :: 0 <= i < |writes| ==> writes[i].taken <= |writes[i].data| && writes[i].End() <= |body|
  {
    if writes != [] {
      var n := |writes| - 1;
      var last := writes[n];
      AccountsIsConcat(writes[..n], body[..last.begin]);
      assert Contributions(writes) == Contributions(writes[..n]) + [last.data[..last.taken]];
      ConcatSnoc(Contributions(writes[..n]), last.data[..last.taken]);
      assert body == body[..last.begin] + body[last.begin..];
    }
  }

  /**
   * What the stack was handed is the beginning of what the accepted writes contributed, in order and
   * without gap or repetition. A write that succeeded contributed all of its buffer.
   */
  lemma TransmitsTheBody(w: World)
    requires Reachable(w)
    ensures |w.wire| == w.tx.offered
    ensures w.wire <= Concat(Contributions(w.writes))
    ensures forall i :: 0 <= i < |w.calls| && w.calls[i].started && Succeeded(w.calls[i]) ==>
      0 < w.calls[i].token <= |w.writes| && Contributions(w.writes)[w.calls[i].token - 1] == w.calls[i].data
  {
    ReachableInv(w);
    AccountsIsConcat(w.writes, w.body);
    forall i | 0 <= i < |w.calls| && w.calls[i].started && Succeeded(w.calls[i])
      ensures 0 < w.calls[i].token <= |w.writes| && Contributions(w.writes)[w.calls[i].token - 1] == w.calls[i].data
    {
      SucceededContributes(w, i);
    }
  }

  lemma SucceededContributes(w: World, i: nat)
    requires WritesInv(w) && CallsInv(w) && SuccessInv(w)
    requires i < |w.calls| && w.calls[i].started && Succeeded(w.calls[i])
    ensures 0 < w.calls[i].token <= |w.writes| && Contributions(w.writes)[w.calls[i].token - 1] == w.calls[i].data
  {
    var k := w.calls[i].token - 1;
    assert Sane(w.calls[i], i, w.writes) && Earned(w.calls[i], w.tx, w.writes);
    assert Owned(w.writes[k], k, w.calls);
  }

  /** Whenever a driver asks, all of the body it has not handed over yet is on offer, and only that. */
  lemma OffersTheRest(w: World, room: nat)
    requires Reachable(w) && Live(w.tx) && room > 0
    ensures var o := PendingData(w.tx, From(w.tx), room);
      && |o.slices| <= 1 && AllInBounds(o.tx, o.slices)
      && w.wire + Gathered(o.tx, o.slices) == BodyAfterPending(w.tx, w.body, room)
      && (o.fin <==> o.tx.active && o.tx.isEof && AllQueued(o.tx))
  {
    ReachableInv(w);
    OfferIsRestOfBody(w.tx, w.body, room);
    CarveMoves(w.tx, w.body, From(w.tx), room);
    var body' := BodyAfterPending(w.tx, w.body, room);
    SliceJoin(body', 0, w.tx.offered, |body'|);
    assert body'[..|body'|] == body';
  }

  /** Whatever happens later, bytes that were handed over are never handed over differently. */
  lemma {:induction false} HandedOverForGood(w: World, events: seq<Event>)
    requires Reachable(w) && Legal(w, events)
    ensures w.wire <= Run(w, events).wire
    ensures w.tx.acked <= Run(w, events).tx.acked && w.tx.sent <= Run(w, events).tx.sent
  {
    ReachableInv(w);
    RunKeepsInv(w, events);
  }

  /** Every byte of the body that is not acknowledged is in a held chunk, at its place. */
  lemma StagedHoldsUnacknowledged(w: World, p: nat)
    requires Reachable(w) && w.tx.mode == Staged && w.tx.acked <= p < w.tx.queued
    ensures p < |w.body|
    ensures exists c <- w.tx.chunks :: c.offset <= p < c.End() && c.data[p - c.offset] == w.body[p]
  {
    ReachableInv(w);
    TileAt(w.tx.chunks, w.tx.chunks[0].offset, w.body, p);
  }

  lemma {:induction false} TileAt(chunks: seq<Chunk>, at: nat, body: seq<byte>, p: nat)
    requires Tiles(chunks, at, body) && at <= p < |body|
    ensures exists c <- chunks :: c.offset <= p < c.End() && c.data[p - c.offset] == body[p]
  {
    var c := chunks[0];
    if p < c.End() {
      assert body[at..c.End()][p - at] == body[p];
      assert c in chunks;
    } else {
      TileAt(chunks[1..], c.End(), body, p);
    }
  }

  // ------------------------------------------------------------------------------------------
  // When the caller's buffer is free
  // ------------------------------------------------------------------------------------------

  lemma {:induction false} EarlierEndsBefore(writes: seq<Accepted>, body: seq<byte>, k: nat)
    requires Accounts(writes, body) && k + 1 < |writes|
    ensures writes[k].End() <= writes[|writes| - 1].begin
  {
    var n := |writes| - 1;
    AccountsIsConcat(writes[..n], body[..writes[n].begin]);
    assert writes[..n][k] == writes[k];
  }

  /**
   * Zero copy: once a write's handler has run, the stack holds on to none of its bytes, unless the
   * stream is dead -- then it has dropped all it held.
   */
  lemma BufferReleased(w: World, k: nat)
    requires Reachable(w) && w.tx.mode == ZeroCopy && Live(w.tx)
    requires k < |w.writes| && w.writes[k].call < |w.calls| && w.calls[w.writes[k].call].outcomes != []
    ensures w.writes[k].End() <= w.tx.acked
  {
    ReachableInv(w);
    AccountsIsConcat(w.writes, w.body);
    assert Owned(w.writes[k], k, w.calls);
    if w.tx.active {
      if k + 1 < |w.writes| {
        EarlierEndsBefore(w.writes, w.body, k);
      } else if w.tx.handler.Some? {
        assert AnsweredOnce(w.calls[w.writes[k].call], w.writes[k].call, w.tx.handler);
      }
    }
  }

  /** Zero copy: with no write active, everything queued has been offered and acknowledged. */
  lemma NothingOutstanding(w: World)
    requires Reachable(w) && w.tx.mode == ZeroCopy && Live(w.tx) && !w.tx.active
    ensures w.tx.acked == w.tx.offered == w.tx.queued == |w.body|
  {
    ReachableInv(w);
  }

  // ------------------------------------------------------------------------------------------
  // FIN
  // ------------------------------------------------------------------------------------------

  /**
   * The FIN of a live stream marks the end of the last accepted write, which is one that was to end
   * the body, and all of the body has been handed over with it.
   */
  lemma FinMarksTheEnd(w: World)
    requires Reachable(w) && w.tx.finOffered
    ensures w.fin.Some? && w.fin.value < |w.writes| && w.writes[w.fin.value].eof
    ensures w.writes[w.fin.value].call < |w.calls| && w.calls[w.writes[w.fin.value].call].eof
    ensures Live(w.tx) ==>
      && w.tx.eofSubmitted && w.fin.value == |w.writes| - 1
      && w.wire == Concat(Contributions(w.writes))
  {
    ReachableInv(w);
    AccountsIsConcat(w.writes, w.body);
    assert Owned(w.writes[w.fin.value], w.fin.value, w.calls);
    assert w.body[..|w.body|] == w.body;
  }

  /** Past the FIN, a stream that lives on never gets another byte of body. */
  lemma {:induction false} FinFreezesTheBody(w: World, events: seq<Event>)
    requires Reachable(w) && w.tx.finOffered && Legal(w, events) && Live(Run(w, events).tx)
    ensures Run(w, events).body == w.body && Run(w, events).tx.queued == w.tx.queued
    ensures Run(w, events).writes == w.writes && Run(w, events).wire == w.wire
  {
    ReachableInv(w);
    RunKeepsInv(w, events);
  }

  /** A write_eof that reports success means that the FIN has been handed over. */
  lemma EndReportedIsEndSent(w: World, i: nat)
    requires Reachable(w) && i < |w.calls| && w.calls[i].eof && Succeeded(w.calls[i])
    ensures w.tx.finOffered
  {
    ReachableInv(w);
    assert Earned(w.calls[i], w.tx, w.writes);
  }

  // ------------------------------------------------------------------------------------------
  // Completions and cancellations
  // ------------------------------------------------------------------------------------------

  /**
   * Every call is answered at most once, and exactly once unless its handler is the one that is
   * parked; what it was told never changes; a parked handler has an active write to wait for; and no
   * call that keeps the one-write discipline makes an assertion of start_write() fire.
   */
  lemma {:induction false} AnsweredExactlyOnce(w: World, i: nat, events: seq<Event>)
    requires Reachable(w) && i < |w.calls| && Legal(w, events)
    ensures |w.calls[i].outcomes| == if w.tx.handler == Some(i) then 0 else 1
    ensures w.tx.handler == Some(i) ==> w.tx.active
    ensures var w' := Run(w, events);
      i < |w'.calls| && (w.calls[i].outcomes != [] ==> w'.calls[i].outcomes == w.calls[i].outcomes)
    ensures forall data, eof :: Discipline(w.tx, data, eof) ==> AssertsHold(w.tx, data, eof)
  {
    ReachableInv(w);
    RunKeepsInv(w, events);
    var w' := Run(w, events);
    assert AnsweredOnce(w.calls[i], i, w.tx.handler);
    assert Kept(w.calls[i], w'.calls[i]);
    assert AnsweredOnce(w'.calls[i], i, w'.tx.handler);
    forall data, eof | Discipline(w.tx, data, eof) ensures AssertsHold(w.tx, data, eof) {
      if w.tx.handler.None? { AssertsNeverFire(w.tx, w.body, data, eof); }
    }
  }

  /** The destructor answers the one call that is still parked, and no other. */
  lemma DestructorAnswersTheRest(w: World, i: nat)
    requires Reachable(w) && i < |w.calls|
    ensures var calls := Complete(w.calls, Detach(w.tx).done);
      && |calls| == |w.calls| && |calls[i].outcomes| == 1
      && (w.calls[i].outcomes != [] ==> calls[i] == w.calls[i])
      && (w.calls[i].outcomes == [] ==> calls[i].outcomes == [ConnectionReset])
  {
    ReachableInv(w);
    assert AnsweredOnce(w.calls[i], i, w.tx.handler);
    if w.tx.handler.Some? {
      CompleteOne(w.calls, Completion(w.tx.handler.value, ConnectionReset));
    }
  }

  /**
   * A cancellation that comes late, when its own call has been answered, does something if and only
   * if another call is parked under the same token. That other call then is a re-issued end of body
   * which adopted the pending FIN: it alone is answered, the write itself goes on untouched, and a
   * write that was accepted later is never affected.
   */
  lemma LateCancellation(w: World, i: nat)
    requires Reachable(w) && i < |w.calls| && w.calls[i].outcomes != []
    ensures var w' := Step(w, CancelCall(i));
      (w'.tx != w.tx <==> w.tx.handler.Some? && w.tx.handler != Some(i) && w.calls[i].token == w.tx.token)
    ensures var w' := Step(w, CancelCall(i));
      w'.tx != w.tx ==>
        && (var h := w.tx.handler.value;
            h < |w.calls| && !w.calls[h].started && w.calls[h].eof && w.calls[h].data == [])
        && w.calls[i].token == |w.writes|
        && w'.tx == w.tx.(handler := None) && w'.body == w.body && w'.writes == w.writes
  {
    ReachableInv(w);
    assert AnsweredOnce(w.calls[i], i, w.tx.handler);
    if CancelHits(w.tx, w.calls[i].token) {
      var h := w.tx.handler.value;
      assert h < |w.calls| && h != i;
      assert Sane(w.calls[h], h, w.writes);
      RetakeAccounts(w.writes, w.body, w.body);
    }
  }

  /** A bare end of body is parked, and its FIN not handed over yet. */
  predicate EndParked(w: World, id: nat)
  {
    && w.tx.active && w.tx.isEof && w.tx.eofSubmitted && w.tx.source == [] && Live(w.tx)
    && w.tx.handler == Some(id) && id < |w.calls| && w.calls[id].token == w.tx.token && w.calls[id].outcomes == []
    && |w.writes| == 1 && w.writes[0].begin == |w.body| && w.writes[0].taken == 0
  }

  lemma EndFirst(mode: Mode, driver: Driver) returns (w: World)
    ensures w == StepWrite(Start(mode, driver), [], true)
    ensures EndParked(w, 0) && |w.calls| == 1
  {
    w := StepWrite(Start(mode, driver), [], true);
    assert w.calls == [Call([], true, 1, true, [])];
    assert w.writes == [Accepted(0, [], true, 0, 0)];
  }

  /** Call `i` is cancelled while call `id` is parked under the same token. */
  lemma CancelEnd(w: World, id: nat, i: nat) returns (v: World)
    requires EndParked(w, id) && i < |w.calls| && w.calls[i].token == w.tx.token
    ensures v == StepCancel(w, i)
    ensures v.tx == w.tx.(handler := None) && v.writes == w.writes && v.body == w.body
    ensures v.calls == w.calls[id := w.calls[id].(outcomes := [Canceled])]
  {
    v := StepCancel(w, i);
    CompleteOne(w.calls, Completion(id, Canceled));
    assert [] + [Canceled] == [Canceled];
  }

  lemma EndAgain(w: World) returns (v: World)
    requires w.tx.active && w.tx.isEof && w.tx.eofSubmitted && w.tx.source == [] && Live(w.tx) && w.tx.handler.None?
    requires |w.writes| == 1 && w.writes[0].begin == |w.body| && w.writes[0].taken == 0
    ensures v == StepWrite(w, [], true)
    ensures EndParked(v, |w.calls|) && v.calls == w.calls + [Call([], true, w.tx.token, false, [])]
  {
    v := StepWrite(w, [], true);
  }

  /** It does happen, on a fresh stream: ending the body twice, and cancelling the first attempt twice. */
  lemma LateCancellationHappens(mode: Mode, driver: Driver) returns (w1: World, w2: World, w3: World, w4: World)
    ensures w1 == StepWrite(Start(mode, driver), [], true)
    ensures |w1.calls| == 1 && w2 == StepCancel(w1, 0)
    ensures w2.tx.handler.None? && w3 == StepWrite(w2, [], true)
    ensures |w3.calls| == 2 && w3.calls[0].outcomes == [Canceled] && w4 == StepCancel(w3, 0)
    ensures |w4.calls| == 2 && w4.calls[1].outcomes == [Canceled]
  {
    w1 := EndFirst(mode, driver);
    w2 := CancelEnd(w1, 0, 0);
    w3 := EndAgain(w2);
    w4 := CancelEnd(w3, 1, 0);
  }
}
