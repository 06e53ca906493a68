/**
 * What calls are told, in terms of the run: what the parked call hears of each event and when, and what a new
 * call is told on the spot.
 */
module QuicAnswers {
  import opened Bytes
  import opened QuicTx
  import opened QuicTxInvariant
  import opened QuicTxOffer
  import opened QuicRuns
  import opened QuicRunsProofs
  import opened QuicTheorems

  function Last(w: World): Accepted
    requires w.writes != []
  {
    w.writes[|w.writes| - 1]
  }

  /** The stack is done with the last accepted write: all acknowledged, all sent, or for a bare end, its FIN given. */
  predicate StackIsDone(w: World)
  {
    w.writes != [] &&
    var a := Last(w);
    if a.data == [] then w.fin == Some(|w.writes| - 1)
    else a.taken == |a.data| && a.begin + |a.data| <= if w.tx.mode == ZeroCopy then w.tx.acked else w.tx.sent
  }

  /** The body is ended: the last write is an end, and its FIN is given, or still on its way. */
  predicate Ending(w: World)
  {
    w.writes != [] && Last(w).eof && (w.tx.active || w.fin == Some(|w.writes| - 1))
  }

  lemma EndingIsSubmitted(w: World)
    requires Inv(w) && Live(w.tx)
    ensures Ending(w) <==> w.tx.eofSubmitted
  {
  }

  lemma ParkedIsLast(w: World)
    requires Inv(w) && w.tx.handler.Some?
    ensures w.tx.active && w.writes != [] && w.tx.handler.value < |w.calls|
    ensures w.calls[w.tx.handler.value].outcomes == []
    ensures Last(w).data == w.tx.source && Last(w).eof == w.tx.isEof == w.tx.eofSubmitted && Last(w).begin == w.tx.base
    ensures !StackIsDone(w)
  {
    assert AnsweredOnce(w.calls[w.tx.handler.value], w.tx.handler.value, w.tx.handler);
    AccountsIsConcat(w.writes, w.body);
  }

  // --- What the parked call is told ---

  /** One completion, if there is one, answers call `h`. */
  predicate Answers(done: seq<Completion>, h: nat, told: seq<Code>)
  {
    if told == [] then done == [] else |told| == 1 && done == [Completion(h, told[0])]
  }

  lemma AnswersComplete(calls: seq<Call>, done: seq<Completion>, h: nat, told: seq<Code>)
    requires Answers(done, h, told) && h < |calls| && calls[h].outcomes == []
    ensures |Complete(calls, done)| == |calls| && Complete(calls, done)[h].outcomes == told
  {
    if told != [] {
      CompleteOne(calls, Completion(h, told[0]));
      assert [] + told == told;
    }
  }

  /** What the parked call hears of an event, given whether the stack is done with its write after it. */
  function Verdict(w: World, e: Event, isDone: bool): seq<Code>
    requires Enabled(w, e) && w.writes != []
  {
    match e
    case Write(_, _) => []
    case CancelCall(id) => if w.calls[id].token == w.tx.token then [Canceled] else []
    case Abort(code) => [code]
    case Failed(code) => [if code == Success then ConnectionReset else code]
    case DropWriter(headers) =>
      if Last(w).eof then []
      else if w.tx.driver == Plain then if Live(w.tx) then [ConnectionReset] else []
      else if !w.tx.closed && headers then [PartialMessage] else []
    case _ => if isDone then [Success] else []
  }

  /** The same, from the stream before and after a step. */
  predicate TxDone(s: Tx, t: Tx)
  {
    if s.source == [] then t.finOffered
    else
      && (s.mode == ZeroCopy || t.copied == |s.source|)
      && s.base + |s.source| <= if s.mode == ZeroCopy then t.acked else t.sent
  }

  predicate ToldWhenDone(s: Tx, eff: Effect)
  {
    s.handler.Some? && Answers(eff.done, s.handler.value, if TxDone(s, eff.tx) then [Success] else [])
  }

  lemma SentTold(s: Tx, end: nat, length: nat)
    requires Counts(s, length) && s.handler.Some?
    ensures ToldWhenDone(s, OnSent(s, end))
  {
  }

  lemma AckedTold(s: Tx, end: nat, length: nat)
    requires Counts(s, length) && s.handler.Some?
    ensures ToldWhenDone(s, OnAcked(s, end))
  {
  }

  lemma OfferedTold(s: Tx, end: nat, fin: bool, length: nat)
    requires Counts(s, length) && s.handler.Some? && HonestReport(s, end, fin)
    ensures ToldWhenDone(s, OnOffered(s, end, fin))
  {
  }

  lemma WrittenTold(s: Tx, n: nat, fin: bool, length: nat)
    requires Counts(s, length) && s.handler.Some? && HonestReport(s, s.sent + n, fin)
    ensures ToldWhenDone(s, PlainWritten(s, n, fin))
  {
    var a := OnOffered(s, s.sent + n, fin);
    OfferedTold(s, s.sent + n, fin, length);
    OnOfferedCounts(s, length, s.sent + n, fin);
    if a.tx.handler.Some? {
      SentTold(a.tx, s.sent + n, length);
    }
  }

  /** For a world, that is whether the stack is done with the last write. */
  lemma TxDoneIsDone(w: World, t: Tx, body: seq<byte>, v: World)
    requires Inv(w) && w.tx.handler.Some?
    requires v.tx == t && v.writes == Retake(w.writes, |body|) && w.tx.base <= |body|
    requires |body| - w.tx.base == if w.tx.mode == ZeroCopy then |w.tx.source| else t.copied
    requires v.fin == (if t.finOffered && !w.tx.finOffered then Some(|w.writes| - 1) else w.fin)
    requires w.tx.finOffered ==> t.finOffered
    requires t.mode == w.tx.mode
    ensures StackIsDone(v) <==> TxDone(w.tx, t)
  {
    ParkedIsLast(w);
  }

  /** As long as the body stays, so does what the writes contributed. */
  lemma RetakeSame(w: World)
    requires Inv(w)
    ensures Retake(w.writes, |w.body|) == w.writes
  {
    if w.writes != [] {
      var n := |w.writes| - 1;
      assert w.writes[n := w.writes[n]] == w.writes;
    }
  }

  // Each event of its own

  lemma StepAnswers(w: World, eff: Effect, body: seq<byte>, handed: seq<byte>, fin: bool, told: seq<Code>)
    requires Inv(w) && w.tx.handler.Some? && Answers(eff.done, w.tx.handler.value, told)
    ensures var v := After(w, eff, body, handed, fin);
      |v.calls| == |w.calls| && v.calls[w.tx.handler.value].outcomes == told
  {
    ParkedIsLast(w);
    AnswersComplete(w.calls, eff.done, w.tx.handler.value, told);
  }

  /** The parked call `h` hears what the verdict says. */
  predicate Hears(w: World, e: Event)
    requires Enabled(w, e)
  {
    var v := Step(w, e);
    && w.tx.handler.Some? && w.writes != []
    && var h := w.tx.handler.value;
       h < |v.calls| && v.calls[h].outcomes == Verdict(w, e, StackIsDone(v))
  }

  /** What a report of the stack leaves alone. */
  predicate Keeps(s: Tx, t: Tx)
  {
    t.mode == s.mode && t.copied == s.copied && t.finOffered == s.finOffered
  }

  lemma HearsDone(w: World, e: Event, eff: Effect, body: seq<byte>, handed: seq<byte>, fin: bool)
    requires Inv(w) && Enabled(w, e) && (e.Offered? || e.Sent? || e.Acked?)
    requires ToldWhenDone(w.tx, eff) && Step(w, e) == After(w, eff, body, handed, fin) && w.tx.base <= |body|
    requires eff.tx.mode == w.tx.mode && (eff.tx.finOffered <==> w.tx.finOffered || fin)
    requires |body| - w.tx.base == if w.tx.mode == ZeroCopy then |w.tx.source| else eff.tx.copied
    requires w.tx.finOffered ==> w.fin == Some(|w.writes| - 1) || !fin
    ensures Hears(w, e)
  {
    ParkedIsLast(w);
    TxDoneIsDone(w, eff.tx, body, Step(w, e));
    StepAnswers(w, eff, body, handed, fin, if TxDone(w.tx, eff.tx) then [Success] else []);
  }

  lemma AckedEffect(s: Tx, n: nat, length: nat)
    requires Counts(s, length) && s.handler.Some?
    ensures ToldWhenDone(s, Http3Acked(s, n)) && Keeps(s, Http3Acked(s, n).tx)
  {
    AckedTold(s, s.acked + n, length);
  }

  lemma SentEffect(s: Tx, n: nat, length: nat)
    requires Counts(s, length) && s.handler.Some?
    ensures ToldWhenDone(s, Http3Sent(s, n)) && Keeps(s, Http3Sent(s, n).tx)
  {
    SentTold(s, s.sent + Min(n, s.offered - s.sent), length);
  }

  lemma AckedHears(w: World, n: nat)
    requires Inv(w) && w.tx.handler.Some?
    ensures Hears(w, Acked(n))
  {
    TxCounts(w.tx, w.body);
    ParkedIsLast(w);
    AckedEffect(w.tx, n, |w.body|);
    HearsDone(w, Acked(n), Http3Acked(w.tx, n), w.body, [], false);
  }

  lemma SentHears(w: World, n: nat)
    requires Inv(w) && w.tx.handler.Some? && w.tx.driver == Http3
    ensures Hears(w, Sent(n))
  {
    TxCounts(w.tx, w.body);
    ParkedIsLast(w);
    SentEffect(w.tx, n, |w.body|);
    HearsDone(w, Sent(n), Http3Sent(w.tx, n), w.body, [], false);
  }

  lemma LiveOfferTold(w: World, room: nat, taken: Option<nat>)
    requires Inv(w) && w.tx.handler.Some? && Live(w.tx) && room > 0
    ensures ToldWhenDone(PendingData(w.tx, From(w.tx), room).tx, OfferEffect(w, room, taken))
  {
    var s := w.tx;
    var o := PendingData(s, From(s), room);
    var (handed, fin) := Handed(w, room, taken);
    HandedIsBody(w, room, taken);
    PendingDataInv(s, w.body, From(s), room);
    TxCounts(o.tx, BodyAfterPending(s, w.body, room));
    CarveKeeps(s, room);
    if (o.slices == [] && !o.fin) || (s.driver == Plain && taken.None?) {
    } else if s.driver == Http3 {
      OfferedTold(o.tx, o.end, o.fin, o.tx.queued);
    } else {
      WrittenTold(o.tx, |handed|, fin, o.tx.queued);
    }
  }

  lemma CarveKeeps(s: Tx, room: nat)
    ensures var t := PendingData(s, From(s), room).tx;
      t == s.(chunks := t.chunks, copied := t.copied, queued := t.queued)
  {
  }

  lemma OfferTold(w: World, room: nat, taken: Option<nat>)
    requires Inv(w) && w.tx.handler.Some?
    ensures ToldWhenDone(w.tx, OfferEffect(w, room, taken))
  {
    CarveKeeps(w.tx, room);
    if Live(w.tx) && room > 0 {
      LiveOfferTold(w, room, taken);
    } else {
      TxCounts(w.tx, w.body);
    }
  }

  lemma OfferedHears(w: World, room: nat, taken: Option<nat>)
    requires Inv(w) && w.tx.handler.Some?
    ensures Hears(w, Offered(room, taken))
  {
    var (handed, fin) := Handed(w, room, taken);
    ParkedIsLast(w);
    OfferTold(w, room, taken);
    OfferCopies(w, room, taken);
    HearsDone(w, Offered(room, taken), OfferEffect(w, room, taken), BodyAfterPending(w.tx, w.body, room), handed, fin);
  }

  /** An offer copies at most one chunk, and hands over the FIN if it says so. */
  lemma OfferCopies(w: World, room: nat, taken: Option<nat>)
    requires Inv(w) && w.tx.active
    ensures var eff := OfferEffect(w, room, taken);
      var body := BodyAfterPending(w.tx, w.body, room);
      && w.tx.base <= |body| && eff.tx.mode == w.tx.mode
      && |body| - w.tx.base == (if w.tx.mode == ZeroCopy then |w.tx.source| else eff.tx.copied)
      && (eff.tx.finOffered <==> w.tx.finOffered || Handed(w, room, taken).1)
      && (w.tx.finOffered ==> w.fin == Some(|w.writes| - 1) || !Handed(w, room, taken).1)
  {
    OfferKeepsCopied(w, room, taken);
    if Live(w.tx) && room > 0 {
      OfferEffectMoves(w, room, taken);
      PendingDataInv(w.tx, w.body, From(w.tx), room);
    }
  }

  lemma WrittenKeeps(s: Tx, n: nat, fin: bool)
    ensures PlainWritten(s, n, fin).tx.copied == s.copied && PlainWritten(s, n, fin).tx.mode == s.mode
  {
  }

  lemma OfferKeepsCopied(w: World, room: nat, taken: Option<nat>)
    ensures OfferEffect(w, room, taken).tx.copied == PendingData(w.tx, From(w.tx), room).tx.copied
    ensures OfferEffect(w, room, taken).tx.mode == w.tx.mode
  {
    var o := PendingData(w.tx, From(w.tx), room);
    var (handed, fin) := Handed(w, room, taken);
    CarveKeeps(w.tx, room);
    WrittenKeeps(o.tx, |handed|, fin);
  }

  lemma EndHears(w: World, e: Event)
    requires Inv(w) && w.tx.handler.Some? && Enabled(w, e)
    requires e.Abort? || e.Failed? || e.DropWriter?
    ensures Hears(w, e)
  {
    ParkedIsLast(w);
    var told := Verdict(w, e, false);
    match e
    case Abort(code) => StepAnswers(w, AbortWriting(w.tx, code), w.body, [], false, told);
    case Failed(code) => StepAnswers(w, Fail(w.tx, code), w.body, [], false, told);
    case DropWriter(headers) => StepAnswers(w, DeleteWriter(w.tx, headers), w.body, [], false, told);
  }

  lemma CancelHears(w: World, id: nat)
    requires Inv(w) && w.tx.handler.Some? && id < |w.calls|
    ensures Hears(w, CancelCall(id))
  {
    ParkedIsLast(w);
    var token := w.calls[id].token;
    var told := Verdict(w, CancelCall(id), false);
    StepAnswers(w, Cancel(w.tx, token), BodyAfterCancel(w.tx, w.body, token), [], false, told);
  }

  lemma WriteHears(w: World, data: seq<byte>, eof: bool)
    requires Inv(w) && w.tx.handler.Some? && Discipline(w.tx, data, eof)
    ensures Hears(w, Write(data, eof))
  {
    ParkedIsLast(w);
    var code := LadderAnswer(w.tx, w.body, |w.calls|, data, eof);
    AnswerLast(w.calls, Call(data, eof, 0, false, []), code);
  }

  /**
   * What the parked call is told by each event, exactly: success when, and only when, the stack is done with its
   * write by then -- all of it acknowledged, all of it sent, or its FIN given -- and else what befell it.
   */
  lemma WhatTheParkedCallIsTold(w: World, e: Event)
    requires Reachable(w) && Enabled(w, e) && w.tx.handler.Some?
    ensures !StackIsDone(w) && Hears(w, e)
  {
    ReachableInv(w);
    ParkedIsLast(w);
    match e
    case Write(data, eof) => WriteHears(w, data, eof);
    case CancelCall(id) => CancelHears(w, id);
    case Offered(room, taken) => OfferedHears(w, room, taken);
    case Sent(n) => SentHears(w, n);
    case Acked(n) => AckedHears(w, n);
    case Abort(_) => EndHears(w, e);
    case Failed(_) => EndHears(w, e);
    case DropWriter(_) => EndHears(w, e);
  }

  // --- What a new call is told ---

  /** A call that becomes the stream's next write. */
  predicate Accepts(w: World, data: seq<byte>, eof: bool)
  {
    (data != [] || eof) && Live(w.tx) && !Ending(w)
  }

  /** The stack was handed the FIN of the body as it stands. */
  predicate FinGiven(w: World) { w.writes != [] && w.fin == Some(|w.writes| - 1) }

  /** What the call is told on the spot; nothing if it is parked. A dead stream still knows whether it was ended. */
  function Entry(w: World, data: seq<byte>, eof: bool): seq<Code>
  {
    if data == [] && !eof then [Success]
    else if Accepts(w, data, eof) then []
    else if data != [] then [if Live(w.tx) || w.tx.eofSubmitted then BrokenPipe else ConnectionReset]
    else if Live(w.tx) then if FinGiven(w) then [Success] else []
    else [if w.tx.eofSubmitted && w.fin.Some? then Success else ConnectionReset]
  }

  /** The world after the call, in full. */
  predicate Enters(w: World, data: seq<byte>, eof: bool, v: World)
  {
    var id := |w.calls|;
    var told := Entry(w, data, eof);
    var taken := if Accepts(w, data, eof) && w.tx.mode == ZeroCopy then data else [];
    && |v.calls| == id + 1 && v.calls[..id] == w.calls
    && v.calls[id].data == data && v.calls[id].eof == eof && v.calls[id].outcomes == told
    && v.tx.handler == (if told == [] then Some(id) else w.tx.handler)
    && v.writes == w.writes + (if Accepts(w, data, eof) then [Accepted(id, data, eof, |w.body|, |taken|)] else [])
    && v.body == w.body + taken && v.wire == w.wire && v.fin == w.fin
  }

  lemma AcceptsStarts(w: World, data: seq<byte>, eof: bool)
    requires Inv(w) && Discipline(w.tx, data, eof)
    ensures Accepts(w, data, eof) <==> Starts(w.tx, data, eof)
    ensures Live(w.tx) ==> (FinGiven(w) <==> w.tx.finOffered)
    ensures Adopts(w.tx, data, eof) <==> data == [] && eof && Live(w.tx) && Ending(w) && !FinGiven(w)
    ensures Live(w.tx) ==> (Ending(w) <==> w.tx.eofSubmitted)
  {
    if Live(w.tx) {
      EndingIsSubmitted(w);
    }
  }

  lemma EntryAnswered(w: World, data: seq<byte>, eof: bool)
    requires Inv(w) && !Adopts(w.tx, data, eof) && !Starts(w.tx, data, eof)
    ensures StartWrite(w.tx, |w.calls|, data, eof).tx == w.tx && Entry(w, data, eof) != []
    ensures StartWrite(w.tx, |w.calls|, data, eof).done == [Completion(|w.calls|, Entry(w, data, eof)[0])]
    ensures Entry(w, data, eof) == [Entry(w, data, eof)[0]]
  {
    AcceptsStarts(w, data, eof);
  }

  lemma AnsweredEnters(w: World, data: seq<byte>, eof: bool)
    requires Inv(w) && !Adopts(w.tx, data, eof) && !Starts(w.tx, data, eof)
    ensures Enters(w, data, eof, StepWrite(w, data, eof))
  {
    AcceptsStarts(w, data, eof);
    EntryAnswered(w, data, eof);
    AnswerLast(w.calls, Call(data, eof, 0, false, []), Entry(w, data, eof)[0]);
  }

  /** What a call is told on the spot, whether it is parked, and what becomes of its data: no more, and no less. */
  lemma WhatACallIsTold(w: World, data: seq<byte>, eof: bool)
    requires Reachable(w) && Discipline(w.tx, data, eof)
    ensures Enters(w, data, eof, Step(w, Write(data, eof)))
  {
    ReachableInv(w);
    AcceptsStarts(w, data, eof);
    if Adopts(w.tx, data, eof) || Starts(w.tx, data, eof) {
      AssertsNeverFire(w.tx, w.body, data, eof);
    } else {
      AnsweredEnters(w, data, eof);
    }
  }
}
