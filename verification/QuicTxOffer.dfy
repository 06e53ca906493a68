/** What pending_data() hands out is exactly the body, whichever mode and whichever driver asks. */
module QuicTxOffer {
  import opened Bytes
  import opened QuicTx
  import opened QuicTxInvariant

  /** Where a driver starts: plain streams at what was sent, HTTP/3 at what nghttp3 has not seen. */
  function From(s: Tx): nat { if s.driver == Plain then s.sent else s.offered }

  function Skip(c: Chunk, from: nat): nat { if from > c.offset then from - c.offset else 0 }

  /** What Gather() points at. */
  function GatherBytes(chunks: seq<Chunk>, from: nat, room: nat): seq<byte>
  {
    if chunks == [] || room == 0 then []
    else if chunks[0].End() <= from then GatherBytes(chunks[1..], from, room)
    else chunks[0].data[Min(Skip(chunks[0], from), |chunks[0].data|)..] + GatherBytes(chunks[1..], from, room - 1)
  }

  lemma {:induction false} GatherMeaning(s: Tx, k: nat, from: nat, room: nat)
    requires k <= |s.chunks|
    ensures AllInBounds(s, Gather(s.chunks[k..], from, room))
    ensures Gathered(s, Gather(s.chunks[k..], from, room)) == GatherBytes(s.chunks[k..], from, room)
    decreases |s.chunks| - k
  {
    if k < |s.chunks| && room > 0 {
      assert s.chunks[k..][1..] == s.chunks[k + 1..];
      if s.chunks[k].End() <= from {
        GatherMeaning(s, k + 1, from, room);
      } else {
        GatherMeaning(s, k + 1, from, room - 1);
        assert Gather(s.chunks[k..], from, room)[1..] == Gather(s.chunks[k + 1..], from, room - 1);
      }
    }
  }

  /** Tiled chunks, gathered from somewhere after the first one begins, are the body from there on. */
  lemma {:induction false} GatherExact(chunks: seq<Chunk>, at: nat, body: seq<byte>, from: nat, room: nat, end: nat)
    requires Tiles(chunks, at, body) && at < |body| && room > 0 && from < |body|
    ensures var g := Gather(chunks, from, room);
      var last := GatherEnd(chunks, from, room, end);
      && g != []
      && Max(from, at) <= last <= |body|
      && GatherBytes(chunks, from, room) == body[Max(from, at)..last]
      && (|g| < room ==> last == |body|)
  {
    var c := chunks[0];
    if c.End() <= from {
      GatherExact(chunks[1..], c.End(), body, from, room, end);
    } else {
      var start := Max(from, at);
      CopySuffix(c, at, body, start);
      if room > 1 && c.End() < |body| {
        GatherExact(chunks[1..], c.End(), body, from, room - 1, c.End());
        SliceJoin(body, start, c.End(), GatherEnd(chunks[1..], from, room - 1, c.End()));
      } else if room > 1 {
        TilesNothing(chunks[1..], c.End(), body);
      }
    }
  }

  lemma CopySuffix(c: Chunk, at: nat, body: seq<byte>, start: nat)
    requires c.offset == at <= start <= c.End() <= |body| && body[at..c.End()] == c.data
    ensures c.data[start - at..] == body[start..c.End()]
  {
  }

  lemma TilesNothing(chunks: seq<Chunk>, at: nat, body: seq<byte>)
    requires Tiles(chunks, at, body) && at == |body|
    ensures chunks == []
  {
  }

  /** Beyond the beginning of the last chunk, there is only that one to gather. */
  lemma {:induction false} GatherOnlyLast(chunks: seq<Chunk>, at: nat, body: seq<byte>, from: nat, room: nat)
    requires Tiles(chunks, at, body) && chunks != [] && room > 0
    requires chunks[|chunks| - 1].offset <= from < |body|
    ensures |Gather(chunks, from, room)| == 1
    ensures GatherEnd(chunks, from, room, from) == |body|
  {
    if |chunks| > 1 {
      LastIsLater(chunks, at, body);
      GatherOnlyLast(chunks[1..], chunks[0].End(), body, from, room);
    } else {
      assert chunks[1..] == [];
    }
  }

  lemma {:induction false} LastIsLater(chunks: seq<Chunk>, at: nat, body: seq<byte>)
    requires Tiles(chunks, at, body) && |chunks| > 1
    ensures chunks[0].End() <= chunks[|chunks| - 1].offset
  {
    if |chunks| > 2 {
      LastIsLater(chunks[1..], chunks[0].End(), body);
    }
  }

  lemma {:induction false} GatherNothing(chunks: seq<Chunk>, at: nat, body: seq<byte>, from: nat, room: nat)
    requires Tiles(chunks, at, body) && from >= |body|
    ensures Gather(chunks, from, room) == []
    ensures GatherEnd(chunks, from, room, from) == from
  {
    if chunks != [] {
      GatherNothing(chunks[1..], chunks[0].End(), body, from, room);
    }
  }

  /** PendingDataIsBody, for a state in which what had to be copied has been copied. */
  lemma StagedIsBody(s: Tx, body: seq<byte>, from: nat, room: nat)
    requires TxInv(s, body) && s.mode == Staged && room > 0 && s.acked <= from <= s.queued
    ensures var g := Gather(s.chunks, from, room);
      var end := GatherEnd(s.chunks, from, room, from);
      && AllInBounds(s, g)
      && (g == [] <==> from == s.queued)
      && from <= end <= |body|
      && Gathered(s, g) == body[from..end]
      && (|g| < room ==> end == |body|)
  {
    assert s.chunks[0..] == s.chunks;
    GatherMeaning(s, 0, from, room);
    if s.chunks != [] {
      if from < s.queued {
        GatherExact(s.chunks, s.chunks[0].offset, body, from, room, from);
      } else {
        GatherNothing(s.chunks, s.chunks[0].offset, body, from, room);
      }
    }
  }

  lemma ZeroCopyIsBody(s: Tx, body: seq<byte>, from: nat)
    requires TxInv(s, body) && s.mode == ZeroCopy && s.active && s.acked <= from < s.queued
    ensures var g := [Caller(from - s.base, s.queued - s.base)];
      AllInBounds(s, g) && Gathered(s, g) == body[from..]
  {
    var x := Caller(from - s.base, s.queued - s.base);
    assert [x][1..] == [];
    assert s.source[from - s.base..s.queued - s.base] == body[s.base..][from - s.base..s.queued - s.base];
  }

  /**
   * From any offset not yet acknowledged, the vec entries stay inside the caller's buffer or a held
   * chunk, and what they stand for is the body from there on. They stop short of what is queued
   * only when the vec is full.
   */
  lemma PendingDataIsBody(s: Tx, body: seq<byte>, from: nat, room: nat)
    requires TxInv(s, body) && Live(s) && room > 0
    requires s.active || s.mode == Staged
    requires s.acked <= from <= PendingData(s, from, room).tx.queued
    ensures var o := PendingData(s, from, room);
      var body' := BodyAfterPending(s, body, room);
      && AllInBounds(o.tx, o.slices)
      && from <= o.end <= |body'|
      && Gathered(o.tx, o.slices) == body'[from..o.end]
      && (|o.slices| < room ==> o.end == o.tx.queued)
  {
    var t := PendingData(s, from, room).tx;
    var body' := BodyAfterPending(s, body, room);
    PendingDataInv(s, body, from, room);
    if t.mode == Staged {
      StagedIsBody(t, body', from, room);
    } else if from < t.queued {
      ZeroCopyIsBody(t, body', from);
    }
  }

  /**
   * What a driver asks for is answered with all there is, in at most one vec entry: the rest of the
   * body, and the FIN exactly when the body ends there.
   */
  lemma OfferIsRestOfBody(s: Tx, body: seq<byte>, room: nat)
    requires TxInv(s, body) && PlainSync(s) && Live(s) && room > 0
    ensures var o := PendingData(s, From(s), room);
      var body' := BodyAfterPending(s, body, room);
      && |o.slices| <= 1
      && AllInBounds(o.tx, o.slices)
      && o.end == o.tx.queued == |body'|
      && From(o.tx) == From(s) <= |body'|
      && Gathered(o.tx, o.slices) == body'[From(s)..]
      && (o.fin <==> o.tx.active && o.tx.isEof && AllQueued(o.tx))
      && (o.slices == [] <==> From(s) == |body'|)
  {
    var t := PendingData(s, From(s), room).tx;
    var body' := BodyAfterPending(s, body, room);
    PendingDataInv(s, body, From(s), room);
    if t.mode == Staged {
      StagedOffer(t, body', room);
    } else if From(s) < t.queued {
      ZeroCopyIsBody(t, body', From(s));
    }
  }

  lemma StagedOffer(s: Tx, body: seq<byte>, room: nat)
    requires TxInv(s, body) && s.mode == Staged && room > 0 && s.acked <= From(s)
    ensures var g := Gather(s.chunks, From(s), room);
      && |g| <= 1
      && AllInBounds(s, g)
      && GatherEnd(s.chunks, From(s), room, From(s)) == |body|
      && Gathered(s, g) == body[From(s)..]
      && (g == [] <==> From(s) == |body|)
  {
    StagedIsBody(s, body, From(s), room);
    if From(s) < s.queued {
      GatherOnlyLast(s.chunks, s.chunks[0].offset, body, From(s), room);
    }
  }
}
