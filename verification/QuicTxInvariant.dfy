/**
 * What every step of the outgoing half keeps, relative to the body: the bytes that make up the
 * body so far, those that are queued but not sent included.
 */
module QuicTxInvariant {
  import opened Bytes
  import opened QuicTx

  predicate Offsets(s: Tx)
  {
    s.acked <= s.offered <= s.queued && s.sent <= s.offered
  }

  /** ngtcp2 holds on to what it wrote and nothing else: plain streams never offer ahead of sending. */
  predicate PlainSync(s: Tx) { s.driver == Plain ==> s.sent == s.offered }

  predicate AllQueued(s: Tx) { s.mode == ZeroCopy || s.copied == |s.source| }

  /** The active write contributes the body from its base on. */
  predicate BodyMatches(s: Tx, body: seq<byte>)
  {
    && |body| == s.queued
    && (s.active ==>
          && s.base <= s.queued
          && s.copied <= |s.source|
          && body[s.base..] == if s.mode == ZeroCopy then s.source else s.source[..s.copied])
  }

  /** The chunks are copies of adjoining ranges of the body, from `at` to its end. */
  predicate Tiles(chunks: seq<Chunk>, at: nat, body: seq<byte>)
  {
    if chunks == [] then at == |body|
    else
      var c := chunks[0];
      c.offset == at && c.data != [] && c.End() <= |body| && body[at..c.End()] == c.data
      && Tiles(chunks[1..], c.End(), body)
  }

  /** Staged chunks hold every byte that is not acknowledged, and the last one is what is being sent. */
  predicate ChunksTile(s: Tx, body: seq<byte>)
  {
    && (s.mode == ZeroCopy ==> s.chunks == [])
    && (s.mode == Staged && s.chunks == [] ==> s.acked == s.queued)
    && (s.chunks != [] ==>
          && s.chunks[0].offset <= s.acked < s.chunks[0].End()
          && s.chunks[|s.chunks| - 1].offset <= s.sent
          && Tiles(s.chunks, s.chunks[0].offset, body))
  }

  /** A stored handler belongs to an active write; only a bare end-of-body goes without one. */
  predicate HandlerMatches(s: Tx)
  {
    && (s.handler.Some? ==> s.active)
    && (s.active ==> (s.isEof <==> s.eofSubmitted))
    && (s.active && s.source == [] ==> s.isEof)
    && (s.active && s.handler.None? ==> s.source == [])
    && s.token < s.nextToken
  }

  /** The FIN stands for the end of the body, and for nothing that can still change. */
  predicate FinTruthful(s: Tx)
  {
    && (Live(s) && s.finOffered ==> s.eofSubmitted && s.offered == s.queued)
    && (Live(s) && s.finOffered && s.active ==> s.source != [] && AllQueued(s))
    && (s.finOffered && s.active ==> s.source != [])
    && (s.active && s.isEof && s.source != [] && AllQueued(s) && s.offered == s.queued ==> s.finOffered)
    && (Live(s) && s.eofSubmitted && !s.active ==> s.finOffered)
  }

  /** What is left to wait for while a write is active, and that nothing is once none is. */
  predicate Outstanding(s: Tx)
  {
    && (s.mode == ZeroCopy && s.active ==> s.base <= s.acked && (s.source != [] ==> s.acked < s.queued))
    && (s.mode == ZeroCopy && !s.active && Live(s) ==> s.acked == s.queued)
    && (s.mode == Staged && s.active && s.source != [] && s.copied == |s.source| ==> s.sent < s.queued)
  }

  predicate TxInv(s: Tx, body: seq<byte>)
  {
    && Offsets(s)
    && BodyMatches(s, body)
    && ChunksTile(s, body)
    && HandlerMatches(s)
    && FinTruthful(s)
    && Outstanding(s)
  }

  // ------------------------------------------------------------------------------------------
  // How the steps change the body
  // ------------------------------------------------------------------------------------------

  /** An accepted zero-copy write is part of the body at once. */
  function BodyAfterStart(s: Tx, body: seq<byte>, data: seq<byte>, eof: bool): seq<byte>
  {
    if Starts(s, data, eof) && s.mode == ZeroCopy then body + data else body
  }

  /** A cancelled zero-copy write contributes only what was handed over. */
  function BodyAfterCancel(s: Tx, body: seq<byte>, token: nat): seq<byte>
  {
    if CancelHits(s, token) && !CancelDetaches(s) && s.mode == ZeroCopy then body[..Min(s.offered, |body|)] else body
  }

  /** A staged write becomes part of the body chunk by chunk. */
  function BodyAfterPending(s: Tx, body: seq<byte>, room: nat): seq<byte>
  {
    if room > 0 && Live(s) && Carves(s) then body + Carved(s) else body
  }

  lemma FreshInv(mode: Mode, driver: Driver)
    ensures TxInv(Fresh(mode, driver), []) && PlainSync(Fresh(mode, driver))
  {
  }

  /** Under the one-write discipline, neither assertion of start_write() can fire. */
  lemma AssertsNeverFire(s: Tx, body: seq<byte>, data: seq<byte>, eof: bool)
    requires TxInv(s, body)
    requires s.handler.None?
    ensures AssertsHold(s, data, eof)
  {
  }

  lemma StartWriteInv(s: Tx, body: seq<byte>, id: nat, data: seq<byte>, eof: bool)
    requires TxInv(s, body) && AssertsHold(s, data, eof)
    ensures TxInv(StartWrite(s, id, data, eof).tx, BodyAfterStart(s, body, data, eof))
    ensures PlainSync(s) ==> PlainSync(StartWrite(s, id, data, eof).tx)
  {
    var t := StartWrite(s, id, data, eof).tx;
    var body' := BodyAfterStart(s, body, data, eof);
    if Starts(s, data, eof) {
      assert body'[t.base..] == if s.mode == ZeroCopy then data else [];
      assert t.chunks == s.chunks;
    }
  }

  lemma CancelInv(s: Tx, body: seq<byte>, token: nat)
    requires TxInv(s, body)
    ensures TxInv(Cancel(s, token).tx, BodyAfterCancel(s, body, token))
    ensures PlainSync(s) ==> PlainSync(Cancel(s, token).tx)
  {
    if CancelHits(s, token) && !CancelDetaches(s) {
      if s.mode == ZeroCopy { CancelZeroCopyInv(s, body, token); } else { CancelStagedInv(s, body, token); }
    }
  }

  lemma CancelStagedInv(s: Tx, body: seq<byte>, token: nat)
    requires TxInv(s, body) && CancelHits(s, token) && !CancelDetaches(s) && s.mode == Staged
    ensures TxInv(Cancel(s, token).tx, body)
  {
    var t := Cancel(s, token).tx;
    assert t.chunks == s.chunks;
  }

  lemma CancelZeroCopyInv(s: Tx, body: seq<byte>, token: nat)
    requires TxInv(s, body) && CancelHits(s, token) && !CancelDetaches(s) && s.mode == ZeroCopy
    ensures TxInv(Cancel(s, token).tx, body[..s.offered])
  {
    var t := Cancel(s, token).tx;
    assert |body[..s.offered]| == t.queued;
    assert FinTruthful(t) && Outstanding(t);
  }

  lemma {:induction false} TilesSnoc(chunks: seq<Chunk>, at: nat, body: seq<byte>, piece: seq<byte>)
    requires Tiles(chunks, at, body) && piece != []
    ensures Tiles(chunks + [Chunk(|body|, piece)], at, body + piece)
  {
    var all := chunks + [Chunk(|body|, piece)];
    if chunks == [] {
      assert all[1..] == [];
      assert (body + piece)[at..] == piece;
    } else {
      TilesSnoc(chunks[1..], chunks[0].End(), body, piece);
      assert all[1..] == chunks[1..] + [Chunk(|body|, piece)];
      assert (body + piece)[at..chunks[0].End()] == body[at..chunks[0].End()];
    }
  }

  lemma CarveBody(s: Tx, body: seq<byte>)
    requires BodyMatches(s, body) && Carves(s)
    ensures BodyMatches(Carve(s), body + Carved(s))
  {
    var take := Min(|s.source| - s.copied, WRITE_CHUNK_SIZE);
    assert s.source[..s.copied + take] == s.source[..s.copied] + Carved(s);
    assert (body + Carved(s))[s.base..] == body[s.base..] + Carved(s);
  }

  lemma CarveChunks(s: Tx, body: seq<byte>)
    requires Offsets(s) && |body| == s.queued && ChunksTile(s, body) && Carves(s)
    ensures ChunksTile(Carve(s), body + Carved(s))
  {
    var t := Carve(s);
    assert t.chunks[0].offset == if s.chunks == [] then s.queued else s.chunks[0].offset;
    TilesSnoc(s.chunks, t.chunks[0].offset, body, Carved(s));
  }

  lemma CarveInv(s: Tx, body: seq<byte>)
    requires TxInv(s, body) && Carves(s)
    ensures TxInv(Carve(s), body + Carved(s))
  {
    CarveBody(s, body);
    CarveChunks(s, body);
  }

  lemma PendingDataInv(s: Tx, body: seq<byte>, from: nat, room: nat)
    requires TxInv(s, body)
    ensures TxInv(PendingData(s, from, room).tx, BodyAfterPending(s, body, room))
    ensures PlainSync(s) ==> PlainSync(PendingData(s, from, room).tx)
  {
    if Carves(s) {
      CarveInv(s, body);
    }
  }

  /** What the stack reports as taken agrees with what it was offered. */
  predicate HonestReport(s: Tx, end: nat, fin: bool)
  {
    Live(s) && (fin <==> s.active && s.isEof && AllQueued(s) && end >= s.queued)
  }

  lemma OnOfferedInv(s: Tx, body: seq<byte>, end: nat, fin: bool)
    requires TxInv(s, body) && HonestReport(s, end, fin)
    ensures TxInv(OnOffered(s, end, fin).tx, body)
  {
  }

  lemma OnSentInv(s: Tx, body: seq<byte>, end: nat)
    requires TxInv(s, body)
    ensures TxInv(OnSent(s, end).tx, body)
  {
  }

  lemma {:induction false} DropAckedTiles(chunks: seq<Chunk>, at: nat, body: seq<byte>, acked: nat)
    requires Tiles(chunks, at, body) && at <= acked <= |body|
    ensures var rest := DropAcked(chunks, acked);
      if rest == [] then acked == |body|
      else
        && rest[0].offset <= acked < rest[0].End() && Tiles(rest, rest[0].offset, body)
        && chunks != [] && rest[|rest| - 1] == chunks[|chunks| - 1]
  {
    if chunks != [] && chunks[0].End() <= acked {
      DropAckedTiles(chunks[1..], chunks[0].End(), body, acked);
    }
  }

  lemma OnAckedInv(s: Tx, body: seq<byte>, end: nat)
    requires TxInv(s, body)
    ensures TxInv(OnAcked(s, end).tx, body)
    ensures PlainSync(s) ==> PlainSync(OnAcked(s, end).tx)
  {
    var e := Min(end, s.offered);
    if e > s.acked && s.chunks != [] {
      DropAckedTiles(s.chunks, s.chunks[0].offset, body, e);
    }
  }

  lemma AbandonInv(s: Tx, body: seq<byte>, code: Code)
    requires TxInv(s, body)
    ensures TxInv(AbortWriting(s, code).tx, body)
    ensures TxInv(Fail(s, code).tx, body)
    ensures PlainSync(s) ==> PlainSync(AbortWriting(s, code).tx) && PlainSync(Fail(s, code).tx)
  {
    assert AbortWriting(s, code).tx.chunks == s.chunks && Fail(s, code).tx.chunks == s.chunks;
  }

  lemma ResetInv(s: Tx, body: seq<byte>)
    requires TxInv(s, body)
    ensures TxInv(ResetWriting(s), body)
    ensures TxInv(s.(closed := true), body)
  {
    assert ResetWriting(s).chunks == s.chunks;
  }

  lemma DeleteWriterInv(s: Tx, body: seq<byte>, headers: bool)
    requires TxInv(s, body)
    ensures TxInv(DeleteWriter(s, headers).tx, body)
    ensures PlainSync(s) ==> PlainSync(DeleteWriter(s, headers).tx)
  {
    ResetInv(s, body);
    AbandonInv(s, body, PartialMessage);
    AbandonInv(ResetWriting(s), body, ConnectionReset);
  }
}
