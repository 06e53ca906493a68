/** Every step of every run keeps the invariant of runs, and moves the world forward only. */
module QuicRunsProofs {
  import opened Bytes
  import opened QuicTx
  import opened QuicTxInvariant
  import opened QuicTxOffer
  import opened QuicRuns

  // ------------------------------------------------------------------------------------------
  // What a step that is not a call of start_write() may do
  // ------------------------------------------------------------------------------------------

  /** A completion takes the parked handler away, and nothing else does. */
  predicate Consumes(s: Tx, eff: Effect)
  {
    if eff.done == [] then eff.tx.handler == s.handler
    else s.handler.Some? && eff.tx.handler.None? && eff.done == [Completion(s.handler.value, eff.done[0].code)]
  }

  /** No write starts, and nothing that has been reached is taken back. */
  predicate Continues(s: Tx, t: Tx)
  {
    && t.mode == s.mode && t.driver == s.driver && t.token == s.token && t.nextToken == s.nextToken
    && (t.active ==> s.active && t.source == s.source && t.isEof == s.isEof && t.base == s.base)
    && s.acked <= t.acked && s.offered <= t.offered && s.sent <= t.sent
    && (s.finOffered ==> t.finOffered)
    && (Live(t) ==> Live(s))
  }

  /** Only what the active write contributes to the body changes, and never what is already offered. */
  predicate BodyStep(s: Tx, body: seq<byte>, body': seq<byte>)
  {
    if !s.active || s.base > |body| then body' == body
    else
      && s.base <= |body'| && s.offered <= |body'|
      && body'[..s.base] == body[..s.base]
      && (s.offered <= |body| ==> body'[..s.offered] == body[..s.offered])
      && |body'| - s.base <= |s.source|
      && body'[s.base..] == s.source[..|body'| - s.base]
  }

  /** Success means that the write got all the way: its bytes, and the FIN if it was to end the body. */
  predicate SuccessIsEarned(s: Tx, eff: Effect, body': seq<byte>)
  {
    eff.done != [] && eff.done[0].code == Success ==>
      && (s.isEof ==> eff.tx.finOffered)
      && |body'| == s.base + |s.source|
      && (s.source != [] ==> |body'| <= Settled(eff.tx))
  }

  predicate Moves(s: Tx, eff: Effect, body': seq<byte>)
  {
    Continues(s, eff.tx) && Consumes(s, eff) && SuccessIsEarned(s, eff, body')
  }

  predicate Sound(w: World, eff: Effect, body': seq<byte>, handed: seq<byte>, fin: bool)
  {
    && Moves(w.tx, eff, body')
    && BodyStep(w.tx, w.body, body')
    && TxInv(eff.tx, body') && PlainSync(eff.tx)
    && body'[..eff.tx.offered] == w.wire + handed
    && (fin ==> w.tx.active && w.tx.isEof)
    && (eff.tx.finOffered <==> w.tx.finOffered || fin)
  }

  // ------------------------------------------------------------------------------------------
  // Such a step keeps the books
  // ------------------------------------------------------------------------------------------

  lemma RetakeAccounts(writes: seq<Accepted>, body: seq<byte>, body': seq<byte>)
    requires Accounts(writes, body)
    requires body' != body ==>
      && writes != []
      && var last := writes[|writes| - 1];
         && last.begin <= |body'| && |body'| - last.begin <= |last.data|
         && body'[..last.begin] == body[..last.begin]
         && body'[last.begin..] == last.data[..|body'| - last.begin]
    ensures Accounts(Retake(writes, |body'|), body')
    ensures body' == body ==> Retake(writes, |body'|) == writes
  {
    if writes != [] {
      var r := Retake(writes, |body'|);
      assert r[..|r| - 1] == writes[..|writes| - 1];
    }
  }

  /** Retaking changes nothing but how much of the last write counts, and that only while it is active. */
  predicate SameWrites(writes: seq<Accepted>, writes': seq<Accepted>)
  {
    && |writes'| == |writes|
    && (forall k :: 0 <= k < |writes| ==>
          writes'[k].call == writes[k].call && writes'[k].data == writes[k].data
          && writes'[k].eof == writes[k].eof && writes'[k].begin == writes[k].begin)
  }

  lemma AfterWrites(w: World, eff: Effect, body': seq<byte>)
    requires WritesInv(w) && Continues(w.tx, eff.tx) && BodyStep(w.tx, w.body, body')
    ensures var writes' := Retake(w.writes, |body'|);
      && Accounts(writes', body')
      && SameWrites(w.writes, writes')
      && (forall k :: 0 <= k < |w.writes| && !(w.tx.active && k == |w.writes| - 1) ==> writes'[k] == w.writes[k])
      && (w.tx.active ==> writes'[|writes'| - 1].End() == |body'|)
      && (w.tx.source == [] || !w.tx.active ==> body' == w.body && writes' == w.writes)
  {
    if w.tx.active && w.tx.source == [] {
      assert body'[w.tx.base..] == [] == w.body[w.tx.base..];
      assert body' == body'[..w.tx.base] && w.body == w.body[..w.tx.base];
    }
    RetakeAccounts(w.writes, w.body, body');
  }

  /** The calls once the completions of a step have been delivered. */
  lemma Completed(calls: seq<Call>, s: Tx, eff: Effect)
    requires Consumes(s, eff) && (s.handler.Some? ==> s.handler.value < |calls|)
    ensures var calls' := Complete(calls, eff.done);
      && |calls'| == |calls|
      && (eff.done == [] ==> calls' == calls)
      && (eff.done != [] ==>
            var h := s.handler.value;
            calls' == calls[h := calls[h].(outcomes := calls[h].outcomes + [eff.done[0].code])])
  {
    if eff.done != [] {
      assert eff.done[1..] == [];
    }
  }

  /** Being answered changes nothing else about a call. */
  predicate SameCalls(calls: seq<Call>, calls': seq<Call>)
  {
    |calls'| == |calls| && forall i :: 0 <= i < |calls| ==> calls'[i] == calls[i].(outcomes := calls'[i].outcomes)
  }

  lemma OwnedStays(writes: seq<Accepted>, writes': seq<Accepted>, calls: seq<Call>, calls': seq<Call>)
    requires SameWrites(writes, writes') && SameCalls(calls, calls')
    requires forall k :: 0 <= k < |writes| ==> Owned(writes[k], k, calls)
    requires forall i :: 0 <= i < |calls| ==> Sane(calls[i], i, writes)
    ensures forall k :: 0 <= k < |writes'| ==> Owned(writes'[k], k, calls')
    ensures forall i :: 0 <= i < |calls'| ==> Sane(calls'[i], i, writes')
  {
    forall k | 0 <= k < |writes'| ensures Owned(writes'[k], k, calls') {
      assert Owned(writes[k], k, calls);
    }
    forall i | 0 <= i < |calls'| ensures Sane(calls'[i], i, writes') {
      assert Sane(calls[i], i, writes);
    }
  }

  lemma AnswersStay(s: Tx, eff: Effect, calls: seq<Call>, calls': seq<Call>)
    requires Consumes(s, eff) && Continues(s, eff.tx) && HandlerMatches(eff.tx)
    requires Parked(s, calls) && calls' == Complete(calls, eff.done)
    requires forall i :: 0 <= i < |calls| ==> AnsweredOnce(calls[i], i, s.handler)
    ensures SameCalls(calls, calls')
    ensures forall i :: 0 <= i < |calls'| ==> AnsweredOnce(calls'[i], i, eff.tx.handler)
    ensures Parked(eff.tx, calls')
  {
    Completed(calls, s, eff);
    forall i | 0 <= i < |calls'| ensures AnsweredOnce(calls'[i], i, eff.tx.handler) {
      assert AnsweredOnce(calls[i], i, s.handler);
    }
  }

  lemma EarnedStays(w: World, w': World, eff: Effect, i: nat)
    requires SuccessInv(w) && WritesInv(w) && CallsInv(w) && Continues(w.tx, eff.tx) && Consumes(w.tx, eff)
    requires HandlerMatches(w.tx) && SuccessIsEarned(w.tx, eff, w'.body)
    requires w'.tx == eff.tx && w'.calls == Complete(w.calls, eff.done)
    requires SameWrites(w.writes, w'.writes)
    requires forall k :: 0 <= k < |w.writes| && !(w.tx.active && k == |w.writes| - 1) ==> w'.writes[k] == w.writes[k]
    requires w.tx.active ==> w'.writes[|w'.writes| - 1].End() == |w'.body|
    requires w.tx.active && w.tx.source == [] ==> w'.body == w.body && w'.writes == w.writes
    requires i < |w'.calls| && Succeeded(w'.calls[i])
    ensures Earned(w'.calls[i], w'.tx, w'.writes)
  {
    Completed(w.calls, w.tx, eff);
    var c := w.calls[i];
    assert AnsweredOnce(c, i, w.tx.handler) && Sane(c, i, w.writes);
    if w.tx.handler != Some(i) {
      assert w'.calls[i] == c && Earned(c, w.tx, w.writes);
      if c.started && w.tx.active && c.token == |w.writes| && w.tx.source != [] {
        // a data write stays parked until it is over, so its call has not been answered
        assert false;
      }
    } else {
      assert |c.outcomes| == 0 && eff.done != [];
      assert w'.calls[i] == c.(outcomes := [eff.done[0].code]);
      if c.started {
        assert Owned(w.writes[|w.writes| - 1], |w.writes| - 1, w.calls);
      }
    }
  }

  lemma FrozenBody(s: Tx, body: seq<byte>, body': seq<byte>)
    requires FinTruthful(s) && BodyMatches(s, body) && BodyStep(s, body, body') && Live(s) && s.finOffered
    ensures body' == body
  {
    if s.active {
      assert body == body'[..s.offered];
    }
  }

  lemma AfterForward(w: World, eff: Effect, body': seq<byte>, handed: seq<byte>, fin: bool)
    requires TxInv(w.tx, w.body) && WritesInv(w) && Parked(w.tx, w.calls) && Sound(w, eff, body', handed, fin)
    ensures Forward(w, After(w, eff, body', handed, fin))
  {
    var w' := After(w, eff, body', handed, fin);
    Completed(w.calls, w.tx, eff);
    forall i | 0 <= i < |w.calls| ensures Kept(w.calls[i], w'.calls[i]) {
    }
    if w.tx.finOffered && Live(w'.tx) {
      FrozenBody(w.tx, w.body, body');
      RetakeAccounts(w.writes, w.body, body');
    }
  }

  lemma AfterInv(w: World, eff: Effect, body': seq<byte>, handed: seq<byte>, fin: bool)
    requires Inv(w) && Sound(w, eff, body', handed, fin)
    ensures Inv(After(w, eff, body', handed, fin))
    ensures Forward(w, After(w, eff, body', handed, fin))
  {
    var w' := After(w, eff, body', handed, fin);
    AfterForward(w, eff, body', handed, fin);
    AfterWrites(w, eff, body');
    AnswersStay(w.tx, eff, w.calls, w'.calls);
    OwnedStays(w.writes, w'.writes, w.calls, w'.calls);
    forall i | 0 <= i < |w'.calls| && Succeeded(w'.calls[i])
      ensures Earned(w'.calls[i], w'.tx, w'.writes)
    {
      EarnedStays(w, w', eff, i);
    }
  }

  // ------------------------------------------------------------------------------------------
  // Each kind of step, in turn
  // ------------------------------------------------------------------------------------------

  lemma PrefixOfPrefix<T>(s: seq<T>, a: nat, b: nat)
    requires a <= b <= |s|
    ensures s[..b][..a] == s[..a]
  {
  }

  lemma CancelBody(s: Tx, body: seq<byte>, token: nat)
    requires Offsets(s) && BodyMatches(s, body) && Outstanding(s) && HandlerMatches(s)
    ensures BodyStep(s, body, BodyAfterCancel(s, body, token))
    ensures BodyAfterCancel(s, body, token)[..s.offered] == body[..s.offered]
  {
    var body' := BodyAfterCancel(s, body, token);
    if body' == body {
      SameBody(s, body);
    } else {
      PrefixOfPrefix(body, s.base, s.offered);
      assert body'[s.base..] == body[s.base..][..s.offered - s.base];
    }
  }

  lemma SameBody(s: Tx, body: seq<byte>)
    requires BodyMatches(s, body) && Offsets(s)
    ensures BodyStep(s, body, body)
  {
    if s.active {
      assert body[s.base..] == s.source[..|body| - s.base];
    }
  }

  lemma CancelMoves(s: Tx, body: seq<byte>, token: nat)
    requires HandlerMatches(s)
    ensures Moves(s, Cancel(s, token), body) && Cancel(s, token).tx.offered == s.offered
    ensures Cancel(s, token).tx.finOffered == s.finOffered
  {
  }

  lemma CancelSound(w: World, token: nat)
    requires Steady(w)
    ensures Sound(w, Cancel(w.tx, token), BodyAfterCancel(w.tx, w.body, token), [], false)
  {
    CancelInv(w.tx, w.body, token);
    CancelBody(w.tx, w.body, token);
    CancelMoves(w.tx, BodyAfterCancel(w.tx, w.body, token), token);
    assert w.wire + [] == w.wire;
  }

  /** A step that leaves the body alone and hands nothing over. */
  lemma QuietSound(w: World, eff: Effect)
    requires TxInv(w.tx, w.body) && WireInv(w)
    requires Moves(w.tx, eff, w.body) && TxInv(eff.tx, w.body) && PlainSync(eff.tx)
    requires eff.tx.offered == w.tx.offered && eff.tx.finOffered == w.tx.finOffered
    ensures Sound(w, eff, w.body, [], false)
  {
    assert w.wire + [] == w.wire;
    SameBody(w.tx, w.body);
  }

  lemma OnSentMoves(s: Tx, body: seq<byte>, end: nat)
    requires TxInv(s, body)
    ensures Moves(s, OnSent(s, end), body) && OnSent(s, end).tx.offered == s.offered
    ensures OnSent(s, end).tx.finOffered == s.finOffered
  {
  }

  lemma OnAckedMoves(s: Tx, body: seq<byte>, end: nat)
    requires TxInv(s, body)
    ensures Moves(s, OnAcked(s, end), body) && OnAcked(s, end).tx.offered == s.offered
    ensures OnAcked(s, end).tx.finOffered == s.finOffered
  {
  }

  lemma AbandonMoves(s: Tx, t: Tx, body: seq<byte>, code: Code)
    requires HandlerMatches(s) && code != Success
    requires t == s.(closed := t.closed, aborted := t.aborted) && (Live(t) ==> Live(s))
    ensures Moves(s, Abandon(t, code), body)
  {
  }

  predicate Steady(w: World) { TxInv(w.tx, w.body) && PlainSync(w.tx) && WireInv(w) }

  lemma OnSentSound(w: World, end: nat)
    requires Steady(w) && w.tx.driver == Http3
    ensures Sound(w, OnSent(w.tx, end), w.body, [], false)
  {
    OnSentInv(w.tx, w.body, end);
    OnSentMoves(w.tx, w.body, end);
    QuietSound(w, OnSent(w.tx, end));
  }

  lemma OnAckedSound(w: World, end: nat)
    requires Steady(w)
    ensures Sound(w, OnAcked(w.tx, end), w.body, [], false)
  {
    OnAckedInv(w.tx, w.body, end);
    OnAckedMoves(w.tx, w.body, end);
    QuietSound(w, OnAcked(w.tx, end));
  }

  lemma SentSound(w: World, n: nat)
    requires Steady(w) && w.tx.driver == Http3
    ensures Sound(w, Http3Sent(w.tx, n), w.body, [], false)
  {
    if n > 0 {
      var end := w.tx.sent + Min(n, w.tx.offered - w.tx.sent);
      assert Http3Sent(w.tx, n) == OnSent(w.tx, end);
      OnSentSound(w, end);
    } else {
      QuietSound(w, Effect(w.tx, [], false));
    }
  }

  lemma AckedSound(w: World, n: nat)
    requires Steady(w)
    ensures Sound(w, Http3Acked(w.tx, n), w.body, [], false)
  {
    OnAckedSound(w, w.tx.acked + n);
  }

  lemma AbortSound(w: World, code: Code)
    requires Steady(w) && code != Success
    ensures Sound(w, AbortWriting(w.tx, code), w.body, [], false)
  {
    AbandonMoves(w.tx, w.tx.(aborted := true), w.body, code);
    AbandonInv(w.tx, w.body, code);
    QuietSound(w, AbortWriting(w.tx, code));
  }

  lemma FailSound(w: World, code: Code)
    requires Steady(w)
    ensures Sound(w, Fail(w.tx, code), w.body, [], false)
  {
    AbandonMoves(w.tx, w.tx.(closed := true), w.body, if code == Success then ConnectionReset else code);
    AbandonInv(w.tx, w.body, code);
    QuietSound(w, Fail(w.tx, code));
  }

  lemma DropWriterMoves(s: Tx, body: seq<byte>, headers: bool)
    requires HandlerMatches(s)
    ensures Moves(s, DeleteWriter(s, headers), body)
  {
    AbandonMoves(s, ResetWriting(s).(aborted := true), body, ConnectionReset);
    AbandonMoves(s, s.(closed := true), body, PartialMessage);
  }

  lemma DropWriterSound(w: World, headers: bool)
    requires Steady(w)
    ensures Sound(w, DeleteWriter(w.tx, headers), w.body, [], false)
  {
    DropWriterMoves(w.tx, w.body, headers);
    DeleteWriterInv(w.tx, w.body, headers);
    QuietSound(w, DeleteWriter(w.tx, headers));
  }

  // ------------------------------------------------------------------------------------------
  // Offers
  // ------------------------------------------------------------------------------------------

  lemma CarveMoves(s: Tx, body: seq<byte>, from: nat, room: nat)
    requires TxInv(s, body)
    ensures var t := PendingData(s, from, room).tx;
      var body' := BodyAfterPending(s, body, room);
      && Continues(s, t) && t.handler == s.handler && t.offered == s.offered && t.finOffered == s.finOffered
      && (t.active <==> s.active) && t.source == s.source && (Live(t) <==> Live(s))
      && t.sent == s.sent && t.acked == s.acked
      && BodyStep(s, body, body')
      && body'[..s.offered] == body[..s.offered]
  {
    SameBody(s, body);
    if room > 0 && Live(s) && Carves(s) {
      CarveBody(s, body);
      var body' := body + Carved(s);
      assert body'[..s.base] == body[..s.base] && body'[..s.offered] == body[..s.offered];
    }
  }

  lemma OnOfferedMoves(s: Tx, body: seq<byte>, end: nat, fin: bool)
    requires TxInv(s, body) && HonestReport(s, end, fin) && end <= s.queued && s.offered <= end
    ensures var eff := OnOffered(s, end, fin);
      && Moves(s, eff, body)
      && eff.tx.offered == end && eff.tx.sent == s.sent
      && (eff.tx.finOffered <==> s.finOffered || fin)
  {
    TxCounts(s, body);
    OfferedMoves(s, body, end, fin);
  }

  lemma OfferedMoves(s: Tx, body: seq<byte>, end: nat, fin: bool)
    requires Counts(s, |body|) && HonestReport(s, end, fin) && end <= s.queued && s.offered <= end
    ensures var eff := OnOffered(s, end, fin);
      && Moves(s, eff, body)
      && eff.tx.offered == end && eff.tx.sent == s.sent && eff.tx.acked == s.acked
      && (eff.tx.finOffered <==> s.finOffered || fin)
      && (eff.done != [] ==> s.source == [] && !eff.tx.active)
  {
  }

  /** Two steps in a row, at most one of which completes the write. */
  lemma MovesCompose(s: Tx, a: Effect, b: Effect, body: seq<byte>)
    requires Moves(s, a, body) && Moves(a.tx, b, body)
    requires a.done == [] || (!a.tx.active && b.done == [])
    requires HandlerMatches(a.tx) && a.tx.acked == s.acked
    requires b.done != [] ==> a.tx.active
    ensures Moves(s, Effect(b.tx, a.done + b.done, b.writable), body)
  {
    assert [] + b.done == b.done && a.done + [] == a.done;
  }

  /** The offsets and flags of the invariant, which most steps can be followed by alone. */
  predicate Counts(s: Tx, length: nat)
  {
    && Offsets(s) && HandlerMatches(s) && FinTruthful(s) && Outstanding(s)
    && length == s.queued
    && (s.active ==>
          && s.base <= s.queued && s.copied <= |s.source|
          && s.queued - s.base == if s.mode == ZeroCopy then |s.source| else s.copied)
  }

  lemma TxCounts(s: Tx, body: seq<byte>)
    requires TxInv(s, body)
    ensures Counts(s, |body|)
  {
  }

  lemma OnOfferedCounts(s: Tx, length: nat, end: nat, fin: bool)
    requires Counts(s, length) && HonestReport(s, end, fin)
    ensures Counts(OnOffered(s, end, fin).tx, length)
  {
  }

  /** Offering and sending in one go, as plain streams do. */
  lemma PlainWrittenInv(s: Tx, body: seq<byte>, n: nat, fin: bool)
    requires TxInv(s, body) && PlainSync(s) && s.driver == Plain
    requires HonestReport(s, s.sent + n, fin) && s.sent + n <= s.queued
    ensures TxInv(PlainWritten(s, n, fin).tx, body) && PlainSync(PlainWritten(s, n, fin).tx)
  {
    OnOfferedInv(s, body, s.sent + n, fin);
    OnSentInv(OnOffered(s, s.sent + n, fin).tx, body, s.sent + n);
    PlainWrittenSync(s, n, fin);
  }

  lemma PlainWrittenSync(s: Tx, n: nat, fin: bool)
    requires PlainSync(s) && s.driver == Plain
    requires HonestReport(s, s.sent + n, fin) && s.sent + n <= s.queued
    ensures PlainSync(PlainWritten(s, n, fin).tx)
  {
  }

  lemma PlainWrittenMoves(s: Tx, body: seq<byte>, n: nat, fin: bool)
    requires TxInv(s, body) && PlainSync(s) && s.driver == Plain
    requires HonestReport(s, s.sent + n, fin) && s.sent + n <= s.queued
    ensures var eff := PlainWritten(s, n, fin);
      && Moves(s, eff, body)
      && eff.tx.offered == s.sent + n
      && (eff.tx.finOffered <==> s.finOffered || fin)
  {
    TxCounts(s, body);
    OfferedThenSent(s, body, n, fin);
  }

  lemma OfferedThenSent(s: Tx, body: seq<byte>, n: nat, fin: bool)
    requires Counts(s, |body|) && s.sent == s.offered
    requires HonestReport(s, s.sent + n, fin) && s.sent + n <= s.queued
    ensures var eff := PlainWritten(s, n, fin);
      && Moves(s, eff, body)
      && eff.tx.offered == s.sent + n
      && (eff.tx.finOffered <==> s.finOffered || fin)
  {
    var a := OnOffered(s, s.sent + n, fin);
    OnOfferedCounts(s, |body|, s.sent + n, fin);
    OfferedMoves(s, body, s.sent + n, fin);
    SentMoves(a.tx, body, s.sent + n);
    MovesCompose(s, a, OnSent(a.tx, s.sent + n), body);
  }

  lemma SentMoves(s: Tx, body: seq<byte>, end: nat)
    requires Counts(s, |body|)
    ensures var b := OnSent(s, end);
      Moves(s, b, body) && b.tx.offered == s.offered && b.tx.finOffered == s.finOffered && (b.done != [] ==> s.active)
  {
  }

  lemma CarveThen(s: Tx, t: Tx, eff: Effect, body: seq<byte>)
    requires Continues(s, t) && t.handler == s.handler && (t.active <==> s.active) && t.source == s.source
    requires HandlerMatches(t) && Moves(t, eff, body)
    ensures Moves(s, eff, body)
  {
  }

  /** What the offer amounts to, once there is something to hand over. */
  lemma HandedIsBody(w: World, room: nat, taken: Option<nat>)
    requires Steady(w) && Live(w.tx) && room > 0
    ensures var o := PendingData(w.tx, From(w.tx), room);
      var body' := BodyAfterPending(w.tx, w.body, room);
      var (handed, fin) := Handed(w, room, taken);
      && From(w.tx) == w.tx.offered == o.tx.offered
      && w.tx.offered + |handed| <= |body'| == o.tx.queued == o.end
      && handed == body'[w.tx.offered..w.tx.offered + |handed|]
      && (fin <==> o.fin && w.tx.offered + |handed| >= o.end && (w.tx.driver == Http3 || taken.Some?))
      && (o.fin <==> o.tx.active && o.tx.isEof && AllQueued(o.tx))
      && (o.slices == [] ==> handed == [])
      && (w.tx.driver == Http3 ==> w.tx.offered + |handed| == o.end)
  {
    OfferIsRestOfBody(w.tx, w.body, room);
    var body' := BodyAfterPending(w.tx, w.body, room);
    var (handed, fin) := Handed(w, room, taken);
    HandedPart(w, room, taken);
    PrefixOfRest(body', w.tx.offered, |handed|);
  }

  /** What is taken of an offer, and whether that takes the FIN along. */
  lemma HandedPart(w: World, room: nat, taken: Option<nat>)
    ensures var o := PendingData(w.tx, From(w.tx), room);
      var all := Gathered(o.tx, o.slices);
      var (handed, fin) := Handed(w, room, taken);
      && |handed| <= |all| && handed == all[..|handed|]
      && (fin <==> o.fin && |handed| == |all| && (w.tx.driver == Http3 || taken.Some?))
      && (w.tx.driver == Http3 ==> |handed| == |all|)
  {
    var o := PendingData(w.tx, From(w.tx), room);
    assert o.slices == [] ==> Gathered(o.tx, o.slices) == [];
  }

  lemma PrefixOfRest(body: seq<byte>, at: nat, n: nat)
    requires at + n <= |body|
    ensures body[at..][..n] == body[at..at + n]
  {
  }

  lemma OfferEffectSound(w: World, room: nat, taken: Option<nat>)
    requires Steady(w) && Live(w.tx) && room > 0
    ensures var body' := BodyAfterPending(w.tx, w.body, room);
      var (handed, fin) := Handed(w, room, taken);
      Sound(w, OfferEffect(w, room, taken), body', handed, fin)
  {
    var s := w.tx;
    var o := PendingData(s, From(s), room);
    var body' := BodyAfterPending(s, w.body, room);
    var (handed, fin) := Handed(w, room, taken);
    var eff := OfferEffect(w, room, taken);
    HandedIsBody(w, room, taken);
    PendingDataInv(s, w.body, From(s), room);
    CarveMoves(s, w.body, From(s), room);
    SliceJoin(body', 0, s.offered, s.offered + |handed|);
    OfferEffectMoves(w, room, taken);
    CarveThen(s, o.tx, eff, body');
  }

  lemma OfferEffectMoves(w: World, room: nat, taken: Option<nat>)
    requires Steady(w) && Live(w.tx) && room > 0
    ensures var o := PendingData(w.tx, From(w.tx), room);
      var body' := BodyAfterPending(w.tx, w.body, room);
      var (handed, fin) := Handed(w, room, taken);
      var eff := OfferEffect(w, room, taken);
      && Moves(o.tx, eff, body') && TxInv(eff.tx, body') && PlainSync(eff.tx)
      && eff.tx.offered == w.tx.offered + |handed|
      && (eff.tx.finOffered <==> w.tx.finOffered || fin)
  {
    var s := w.tx;
    var o := PendingData(s, From(s), room);
    var body' := BodyAfterPending(s, w.body, room);
    var (handed, fin) := Handed(w, room, taken);
    HandedIsBody(w, room, taken);
    PendingDataInv(s, w.body, From(s), room);
    if (o.slices == [] && !o.fin) || (s.driver == Plain && taken.None?) {
      assert handed == [];
    } else if s.driver == Http3 {
      OnOfferedInv(o.tx, body', o.end, o.fin);
      OnOfferedMoves(o.tx, body', o.end, o.fin);
    } else {
      PlainWrittenInv(o.tx, body', |handed|, fin);
      PlainWrittenMoves(o.tx, body', |handed|, fin);
    }
  }

  lemma IdleSound(w: World)
    requires Steady(w)
    ensures Sound(w, Effect(w.tx, [], false), w.body, [], false)
  {
    QuietSound(w, Effect(w.tx, [], false));
  }

  lemma IdleOffer(w: World, room: nat, taken: Option<nat>)
    requires Inv(w) && (!Live(w.tx) || room == 0)
    ensures Inv(StepOffered(w, room, taken)) && Forward(w, StepOffered(w, room, taken))
  {
    var eff := Effect(w.tx, [], false);
    assert OfferEffect(w, room, taken) == eff && Handed(w, room, taken) == ([], false);
    IdleSound(w);
    AfterInv(w, eff, w.body, [], false);
  }

  lemma OfferedInv(w: World, room: nat, taken: Option<nat>)
    requires Inv(w)
    ensures Inv(StepOffered(w, room, taken)) && Forward(w, StepOffered(w, room, taken))
  {
    if !Live(w.tx) || room == 0 {
      IdleOffer(w, room, taken);
    } else {
      var (handed, fin) := Handed(w, room, taken);
      OfferEffectSound(w, room, taken);
      AfterInv(w, OfferEffect(w, room, taken), BodyAfterPending(w.tx, w.body, room), handed, fin);
    }
  }
}
