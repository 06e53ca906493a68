/**
 * What the other events of a run come to: when the stream dies, what is handed over and how fast, what a
 * cancellation leaves, and that no wake-up is lost.
 */
module QuicEffects {
  import opened Bytes
  import opened QuicTx
  import opened QuicTxInvariant
  import opened QuicTxOffer
  import opened QuicRuns
  import opened QuicRunsProofs
  import opened QuicTheorems
  import opened QuicAnswers

  // --- When a stream dies ---

  /** The call is the parked one's, or the one whose FIN that one adopted. */
  predicate Takes(w: World, id: nat)
    requires id < |w.calls|
  {
    w.tx.handler.Some? && w.calls[id].token == w.tx.token
  }

  /** What ends a live stream: no part of a buffer the stack still holds is given back otherwise. */
  predicate Kills(w: World, e: Event)
    requires Enabled(w, e)
  {
    match e
    case CancelCall(id) =>
      Takes(w, id) && w.writes != [] && Last(w).data != [] && w.tx.mode == ZeroCopy && |w.wire| > w.tx.acked
    case Abort(_) => true
    case Failed(_) => true
    case DropWriter(headers) => !Ending(w) || (w.tx.driver == Http3 && !headers)
    case _ => false
  }

  lemma OfferLives(w: World, room: nat, taken: Option<nat>)
    ensures Live(OfferEffect(w, room, taken).tx) <==> Live(w.tx)
  {
    var o := PendingData(w.tx, From(w.tx), room);
    CarveKeeps(w.tx, room);
    WrittenLives(o.tx, |Handed(w, room, taken).0|, Handed(w, room, taken).1);
  }

  lemma WrittenLives(s: Tx, n: nat, fin: bool)
    ensures Live(PlainWritten(s, n, fin).tx) <==> Live(s)
  {
  }

  lemma CancelDies(w: World, id: nat)
    requires Inv(w) && id < |w.calls| && Live(w.tx)
    ensures Live(Step(w, CancelCall(id)).tx) <==> !Kills(w, CancelCall(id))
  {
    if w.tx.handler.Some? {
      ParkedIsLast(w);
    }
  }

  lemma DropDies(w: World, headers: bool)
    requires Inv(w) && Live(w.tx)
    ensures Live(Step(w, DropWriter(headers)).tx) <==> !Kills(w, DropWriter(headers))
  {
    EndingIsSubmitted(w);
  }

  lemma DiesExactly(w: World, e: Event)
    requires Reachable(w) && Enabled(w, e) && Live(w.tx)
    ensures Live(Step(w, e).tx) <==> !Kills(w, e)
    ensures e.Failed? ==> Step(w, e).tx.closed
    ensures e.Abort? ==> Step(w, e).tx.aborted
  {
    ReachableInv(w);
    match e
    case CancelCall(id) => CancelDies(w, id);
    case Offered(room, taken) => OfferLives(w, room, taken);
    case DropWriter(headers) => DropDies(w, headers);
    case _ =>
  }

  // --- What is handed over ---

  /** How much of the last write is copied when the driver asks: a chunk at a time, once all before it has been sent. */
  function Copies(w: World, room: nat): nat
    requires w.writes != [] && Last(w).taken <= |Last(w).data|
  {
    if w.tx.mode == Staged && w.tx.active && w.tx.sent == |w.body| && Live(w.tx) && room > 0
    then Min(|Last(w).data| - Last(w).taken, 16384) else 0
  }

  /** How far the stack then is: HTTP/3 takes all there is, a plain stream what ngtcp2 wrote. */
  function Reach(w: World, size: nat, room: nat, taken: Option<nat>): nat
  {
    if room == 0 || !Live(w.tx) then |w.wire|
    else if w.tx.driver == Http3 then size
    else if taken.None? then |w.wire| else Min(|w.wire| + taken.value, size)
  }

  /** The world after an offer: what was copied, what went out, and the FIN with the last byte of an ended body. */
  predicate HandsOver(w: World, room: nat, taken: Option<nat>, v: World)
  {
    && (w.writes == [] ==> v.body == w.body)
    && (w.writes != [] ==> Last(w).taken <= |Last(w).data| && |v.body| == |w.body| + Copies(w, room))
    && w.body <= v.body && |v.wire| == Reach(w, |v.body|, room, taken) && v.wire <= v.body
    && v.tx.acked == w.tx.acked
    && (w.tx.driver == Plain ==> v.tx.sent == |v.wire|) && (w.tx.driver == Http3 ==> v.tx.sent == w.tx.sent)
    && v.fin == (if Asks(w, room, taken) && Ending(w) && EndsWith(v) then Some(|w.writes| - 1) else w.fin)
  }

  predicate Asks(w: World, room: nat, taken: Option<nat>)
  {
    room > 0 && Live(w.tx) && (w.tx.driver == Http3 || taken.Some?)
  }

  /** All of the last write has been copied and handed over. */
  predicate EndsWith(w: World)
  {
    w.writes != [] && Last(w).taken == |Last(w).data| && w.wire == w.body
  }

  lemma CopiesExactly(w: World, room: nat)
    requires Inv(w)
    ensures w.writes != [] ==> Last(w).taken <= |Last(w).data|
    ensures var body' := BodyAfterPending(w.tx, w.body, room);
      w.body <= body' && |body'| == |w.body| + if w.writes == [] then 0 else Copies(w, room)
    ensures w.tx.active && w.tx.mode == Staged ==> Last(w).taken == w.tx.copied
  {
    AccountsIsConcat(w.writes, w.body);
  }

  lemma HandedLength(w: World, room: nat, taken: Option<nat>)
    requires Inv(w) && Live(w.tx) && room > 0
    ensures var size := |BodyAfterPending(w.tx, w.body, room)|;
      |w.wire| + |Handed(w, room, taken).0| == Reach(w, size, room, taken)
  {
    OfferIsRestOfBody(w.tx, w.body, room);
    HandedIsBody(w, room, taken);
  }

  lemma OfferReports(w: World, room: nat, taken: Option<nat>)
    requires Inv(w)
    ensures var t := OfferEffect(w, room, taken).tx;
      t.acked == w.tx.acked && t.driver == w.tx.driver && (w.tx.driver == Http3 ==> t.sent == w.tx.sent)
  {
    CarveKeeps(w.tx, room);
    var o := PendingData(w.tx, From(w.tx), room);
    WrittenReports(o.tx, |Handed(w, room, taken).0|, Handed(w, room, taken).1);
  }

  lemma WrittenReports(s: Tx, n: nat, fin: bool)
    ensures PlainWritten(s, n, fin).tx.acked == s.acked && PlainWritten(s, n, fin).tx.driver == s.driver
  {
  }

  /** The FIN is on offer when the rest of an ended body is. */
  lemma FinOnOffer(w: World, room: nat)
    requires Inv(w) && Live(w.tx) && room > 0
    ensures var size := |BodyAfterPending(w.tx, w.body, room)|;
      PendingData(w.tx, From(w.tx), room).fin <==>
        w.tx.active && w.writes != [] && Last(w).eof && size == Last(w).begin + |Last(w).data|
  {
    var o := PendingData(w.tx, From(w.tx), room);
    OfferIsRestOfBody(w.tx, w.body, room);
    CarveKeeps(w.tx, room);
    PendingDataInv(w.tx, w.body, From(w.tx), room);
    TxCounts(o.tx, BodyAfterPending(w.tx, w.body, room));
  }

  lemma EndsAt(w: World, v: World, body': seq<byte>, handed: seq<byte>, asked: bool, end: bool)
    requires Inv(w) && Live(w.tx) && v.wire == w.wire + handed
    requires v.body == body' && v.writes == Retake(w.writes, |body'|)
    requires |w.body| <= |body'| && |v.wire| <= |body'| && v.wire == body'[..|v.wire|]
    requires end <==> w.tx.active && w.writes != [] && Last(w).eof && |body'| == Last(w).begin + |Last(w).data|
    requires v.fin == if end && |v.wire| == |body'| && asked then Some(|w.writes| - 1) else w.fin
    ensures v.fin == if asked && Ending(w) && EndsWith(v) then Some(|w.writes| - 1) else w.fin
  {
    EndsWhenReached(w, v);
    assert body'[..|body'|] == body';
  }

  /** It goes with the last byte. */
  lemma FinExactly(w: World, room: nat, taken: Option<nat>)
    requires Inv(w) && Live(w.tx) && room > 0
    ensures var v := Step(w, Offered(room, taken));
      v.fin == if Asks(w, room, taken) && Ending(w) && EndsWith(v) then Some(|w.writes| - 1) else w.fin
  {
    var v := Step(w, Offered(room, taken));
    var o := PendingData(w.tx, From(w.tx), room);
    var (handed, fin) := Handed(w, room, taken);
    var body' := BodyAfterPending(w.tx, w.body, room);
    HandedIsBody(w, room, taken);
    FinOnOffer(w, room);
    CopiesExactly(w, room);
    assert body'[..w.tx.offered] == w.wire;
    SliceJoin(body', 0, w.tx.offered, w.tx.offered + |handed|);
    EndsAt(w, v, body', handed, Asks(w, room, taken), o.fin);
  }

  lemma EndsWhenReached(w: World, v: World)
    requires Inv(w) && |w.body| <= |v.body| && v.writes == Retake(w.writes, |v.body|)
    ensures w.writes != [] ==> |v.writes| == |w.writes|
    ensures w.writes != [] ==> Last(v).data == Last(w).data && Last(v).begin == Last(w).begin
    ensures w.writes != [] ==> Last(v).taken == |v.body| - Last(w).begin
  {
    AccountsIsConcat(w.writes, w.body);
  }

  lemma IdleHandsOver(w: World, room: nat, taken: Option<nat>)
    requires Inv(w) && !(Live(w.tx) && room > 0)
    ensures HandsOver(w, room, taken, Step(w, Offered(room, taken)))
  {
    CopiesExactly(w, room);
    RetakeSame(w);
    assert OfferEffect(w, room, taken) == Effect(w.tx, [], false) && Handed(w, room, taken) == ([], false);
    assert w.wire + [] == w.wire;
  }

  lemma OfferWire(w: World, room: nat, taken: Option<nat>)
    requires Inv(w)
    ensures var v := Step(w, Offered(room, taken));
      && v.wire <= v.body && v.body == BodyAfterPending(w.tx, w.body, room)
      && v.wire == w.wire + Handed(w, room, taken).0
      && (v.tx.driver == Plain ==> v.tx.sent == |v.wire|)
  {
    OfferedInv(w, room, taken);
  }

  /** Every offer, exactly. */
  lemma WhatIsHandedOver(w: World, room: nat, taken: Option<nat>)
    requires Reachable(w)
    ensures HandsOver(w, room, taken, Step(w, Offered(room, taken)))
  {
    ReachableInv(w);
    if Live(w.tx) && room > 0 {
      CopiesExactly(w, room);
      OfferReports(w, room, taken);
      OfferWire(w, room, taken);
      HandedLength(w, room, taken);
      FinExactly(w, room, taken);
    } else {
      IdleHandsOver(w, room, taken);
    }
  }

  /** A report moves its own counter, as far as there is anything to report, and nothing else. */
  predicate Counted(w: World, e: Event, v: World)
    requires e.Sent? || e.Acked?
  {
    && v.tx.sent == (if e.Sent? then Min(w.tx.sent + e.n, |w.wire|) else w.tx.sent)
    && v.tx.acked == (if e.Acked? then Min(w.tx.acked + e.n, |w.wire|) else w.tx.acked)
    && v.body == w.body && v.wire == w.wire && v.writes == w.writes && v.fin == w.fin
  }

  lemma SentCounted(s: Tx, n: nat)
    requires Offsets(s)
    ensures var t := Http3Sent(s, n).tx; t.sent == Min(s.sent + n, s.offered) && t.acked == s.acked
  {
  }

  lemma AckedCounted(s: Tx, n: nat)
    requires Offsets(s)
    ensures var t := Http3Acked(s, n).tx; t.acked == Min(s.acked + n, s.offered) && t.sent == s.sent
  {
  }

  lemma AfterReport(w: World, eff: Effect)
    requires Inv(w)
    ensures var v := After(w, eff, w.body, [], false);
      v.body == w.body && v.wire == w.wire && v.writes == w.writes && v.fin == w.fin
  {
    RetakeSame(w);
    assert w.wire + [] == w.wire;
  }

  lemma WhatIsCounted(w: World, e: Event)
    requires Reachable(w) && Enabled(w, e) && (e.Sent? || e.Acked?)
    ensures Counted(w, e, Step(w, e))
  {
    ReachableInv(w);
    SentCounted(w.tx, e.n);
    AckedCounted(w.tx, e.n);
    AfterReport(w, Http3Sent(w.tx, e.n));
    AfterReport(w, Http3Acked(w.tx, e.n));
  }

  // --- Cancelling ---

  /**
   * The world after the cancellation of the parked call: a bare end only loses its handler, and is still sent. Of a
   * buffer, zero copy keeps in the body what the stack was handed; staging what was copied.
   */
  predicate Cancelled(w: World, v: World)
    requires w.writes != []
  {
    && v.tx.handler.None? && v.wire == w.wire && v.fin == w.fin
    && v.tx.acked == w.tx.acked && v.tx.sent == w.tx.sent
    && (v.tx.active <==> Last(w).data == [])
    && v.body == if Last(w).data != [] && w.tx.mode == ZeroCopy then w.wire else w.body
  }

  lemma WhatIsCancelled(w: World, id: nat)
    requires Reachable(w) && id < |w.calls|
    ensures Takes(w, id) ==> w.writes != [] && Cancelled(w, Step(w, CancelCall(id)))
    ensures !Takes(w, id) ==> Step(w, CancelCall(id)) == w
  {
    ReachableInv(w);
    RetakeSame(w);
    assert w.wire + [] == w.wire;
    if w.tx.handler.Some? {
      ParkedIsLast(w);
    }
  }

  // --- Waking the driver ---

  /** A live stream has something to hand over: bytes, a chunk to copy, or the FIN. */
  predicate HasSomething(w: World)
  {
    && Live(w.tx) && w.writes != [] && Last(w).taken <= |Last(w).data|
    && var rest := |Last(w).data| - Last(w).taken;
       || |w.wire| < |w.body|
       || (w.tx.active && w.tx.mode == Staged && w.tx.sent == |w.body| && rest > 0)
       || (w.tx.active && Last(w).eof && rest == 0 && !FinGiven(w))
  }

  /** The step called on_writable(). */
  predicate Wakes(w: World, e: Event)
    requires Enabled(w, e)
  {
    match e
    case Write(data, eof) => AssertsHold(w.tx, data, eof) && StartWrite(w.tx, |w.calls|, data, eof).writable
    case Sent(n) => Http3Sent(w.tx, n).writable
    case _ => false
  }

  lemma SomethingIs(w: World)
    requires Inv(w)
    ensures HasSomething(w) <==> Pending(w.tx)
  {
    AccountsIsConcat(w.writes, w.body);
  }

  /** The same, of the stream. */
  predicate Pending(s: Tx)
  {
    && Live(s)
    && (s.offered < s.queued
        || (s.active && s.mode == Staged && s.sent == s.queued && s.copied < |s.source|)
        || (s.active && s.isEof && AllQueued(s) && !s.finOffered))
  }

  lemma OfferAwake(w: World, room: nat, taken: Option<nat>)
    requires Inv(w) && Pending(OfferEffect(w, room, taken).tx)
    ensures Pending(w.tx)
  {
    CarveKeeps(w.tx, room);
    if Live(w.tx) && room > 0 {
      OfferIsRestOfBody(w.tx, w.body, room);
    }
  }

  lemma SentAwake(s: Tx, n: nat, length: nat)
    requires Counts(s, length) && !Pending(s) && Pending(Http3Sent(s, n).tx)
    ensures Http3Sent(s, n).writable
  {
  }

  lemma AckedAwake(s: Tx, n: nat, length: nat)
    requires Counts(s, length) && Pending(Http3Acked(s, n).tx)
    ensures Pending(s)
  {
  }

  lemma CancelAwake(s: Tx, token: nat, length: nat)
    requires Counts(s, length) && Pending(Cancel(s, token).tx)
    ensures Pending(s)
  {
  }

  lemma WriteAwake(w: World, data: seq<byte>, eof: bool)
    requires Inv(w) && !Pending(w.tx) && Pending(StepWrite(w, data, eof).tx)
    ensures Wakes(w, Write(data, eof))
  {
  }

  lemma EndAwake(s: Tx, code: Code, headers: bool)
    ensures !Pending(AbortWriting(s, code).tx) && !Pending(Fail(s, code).tx)
    ensures Pending(DeleteWriter(s, headers).tx) ==> Pending(s)
  {
  }

  /** Only a write, or a report of what was sent, gives a stream something new to hand over. */
  lemma NothingNew(w: World, e: Event)
    requires Inv(w) && Enabled(w, e) && !e.Write? && !e.Sent? && Pending(Step(w, e).tx)
    ensures Pending(w.tx)
  {
    TxCounts(w.tx, w.body);
    match e
    case Offered(room, taken) => OfferAwake(w, room, taken);
    case Acked(n) => AckedAwake(w.tx, n, |w.body|);
    case CancelCall(id) => CancelAwake(w.tx, w.calls[id].token, |w.body|);
    case Abort(code) => EndAwake(w.tx, code, false);
    case Failed(code) => EndAwake(w.tx, code, false);
    case DropWriter(headers) => EndAwake(w.tx, ConnectionReset, headers);
    case _ =>
  }

  /** No wake-up is lost: a step after which a live stream newly has something to hand over wakes its driver. */
  lemma NoLostWakeUp(w: World, e: Event)
    requires Reachable(w) && Enabled(w, e) && !HasSomething(w) && HasSomething(Step(w, e))
    ensures Wakes(w, e)
  {
    ReachableInv(w);
    StepKeepsInv(w, e);
    SomethingIs(w);
    SomethingIs(Step(w, e));
    TxCounts(w.tx, w.body);
    match e
    case Write(data, eof) => WriteAwake(w, data, eof);
    case Sent(n) => SentAwake(w.tx, n, |w.body|);
    case _ => NothingNew(w, e);
  }
}
