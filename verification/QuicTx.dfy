/**
 * The outgoing half of one QUIC stream (src/quic/stream.cpp), as a value and the steps that
 * change it. The steps are what the methods of class `QuicStream` are proved to compute.
 */
module QuicTx {
  import opened Bytes

  /** How the caller's buffer reaches the QUIC stack. */
  datatype Mode = ZeroCopy | Staged

  /** Who steps the stream: plain QUIC streams, or HTTP/3 through nghttp3. */
  datatype Driver = Plain | Http3

  /** What a write handler is completed with; Success is the empty error code. */
  datatype Code = Success | Canceled | BrokenPipe | ConnectionReset | PartialMessage | ConnectionAborted

  /** A stream-owned copy of a piece of the body, at its place in the body. */
  datatype Chunk = Chunk(offset: nat, data: seq<byte>) {
    function End(): nat { offset + |data| }
  }

  /** What one vec entry points at: a range of the caller's buffer, or of a held chunk. */
  datatype Slice = Caller(lo: int, hi: int) | Held(chunk: Chunk, lo: int, hi: int)

  datatype Tx = Tx(
    mode: Mode,
    driver: Driver,
    active: bool,          // write_active
    source: seq<byte>,     // write_source
    isEof: bool,           // write_is_eof
    handler: Option<nat>,  // write_handler: the number of the start_write() call it came with
    token: nat,            // write_token
    nextToken: nat,        // next_write_token
    eofSubmitted: bool,
    finOffered: bool,
    base: nat,             // write_base
    copied: nat,           // write_copied
    queued: nat,
    offered: nat,
    sent: nat,
    acked: nat,
    chunks: seq<Chunk>,
    closed: bool,
    aborted: bool          // write_aborted
  )

  const WRITE_CHUNK_SIZE: nat := 16 * 1024

  function Fresh(mode: Mode, driver: Driver): Tx
  {
    Tx(mode, driver, false, [], false, None, 0, 1, false, false, 0, 0, 0, 0, 0, 0, [], false, false)
  }

  predicate Live(s: Tx) { !s.closed && !s.aborted }

  datatype Completion = Completion(id: nat, code: Code)

  /** What a step does: the new state, the handlers it completes, and whether it calls on_writable(). */
  datatype Effect = Effect(tx: Tx, done: seq<Completion>, writable: bool)

  // ------------------------------------------------------------------------------------------
  // Writes and their cancellation
  // ------------------------------------------------------------------------------------------

  /** start_write() gets to adopting the FIN that is still pending (lines 240-247). */
  predicate Adopts(s: Tx, data: seq<byte>, eof: bool)
  {
    eof && data == [] && s.eofSubmitted && s.active && s.isEof && Live(s)
  }

  /** start_write() gets past the entry ladder and starts a write (lines 267-290). */
  predicate Starts(s: Tx, data: seq<byte>, eof: bool)
  {
    (data != [] || eof) && !s.eofSubmitted && Live(s)
  }

  /** The two assertions of start_write(), at lines 242 and 267. */
  predicate AssertsHold(s: Tx, data: seq<byte>, eof: bool)
  {
    && (Adopts(s, data, eof) ==> s.handler.None?)
    && (Starts(s, data, eof) ==> !s.active)
  }

  /** start_write(), as call number `id`. */
  function StartWrite(s: Tx, id: nat, data: seq<byte>, eof: bool): Effect
    requires AssertsHold(s, data, eof)
  {
    if data == [] && !eof then Effect(s, [Completion(id, Success)], false)
    else if s.eofSubmitted then
      if data != [] then Effect(s, [Completion(id, BrokenPipe)], false)
      else if s.active && s.isEof && Live(s) then Effect(s.(handler := Some(id)), [], false)
      else Effect(s, [Completion(id, if !Live(s) && !s.finOffered then ConnectionReset else Success)], false)
    else if !Live(s) then Effect(s, [Completion(id, ConnectionReset)], false)
    else
      Effect(s.(eofSubmitted := s.eofSubmitted || eof,
                active := true, source := data, isEof := eof, handler := Some(id),
                token := s.nextToken, nextToken := s.nextToken + 1,
                base := s.queued, copied := 0,
                queued := if s.mode == ZeroCopy then s.queued + |data| else s.queued),
             [], true)
  }

  /** The token bind_write_cancellation() ties a parked handler to. */
  function BoundToken(s: Tx, data: seq<byte>, eof: bool): nat
  {
    if Adopts(s, data, eof) then s.token else if Starts(s, data, eof) then s.nextToken else 0
  }

  /** reset_writing(): RESET_STREAM; HTTP/3 gives up the whole stream. */
  function ResetWriting(s: Tx): Tx
  {
    if s.driver == Plain then s.(aborted := true) else s.(closed := true)
  }

  /** The callback bind_write_cancellation() installs takes the stored handler away. */
  predicate CancelHits(s: Tx, token: nat) { s.token == token && s.handler.Some? }

  /** A cancelled bare end-of-body only loses its handler: the FIN still goes out. */
  predicate CancelDetaches(s: Tx) { s.isEof && s.source == [] }

  function Cancel(s: Tx, token: nat): Effect
  {
    if !CancelHits(s, token) then Effect(s, [], false)
    else
      var done := [Completion(s.handler.value, Canceled)];
      if CancelDetaches(s) then Effect(s.(handler := None), done, false)
      else
        var resets := s.mode == ZeroCopy && s.offered > s.acked && Live(s);
        var rollsBack := s.isEof && (s.mode == ZeroCopy || !s.finOffered);
        Effect(s.(active := false, source := [], handler := None,
                  queued := if s.mode == ZeroCopy then s.offered else s.queued,
                  aborted := s.aborted || (resets && s.driver == Plain),
                  closed := s.closed || (resets && s.driver == Http3),
                  eofSubmitted := s.eofSubmitted && !rollsBack),
               done, false)
  }

  // ------------------------------------------------------------------------------------------
  // What there is to send
  // ------------------------------------------------------------------------------------------

  predicate Carves(s: Tx)
  {
    s.mode == Staged && s.active && s.sent >= s.queued && s.copied < |s.source|
  }

  /** The piece of the caller's buffer the next chunk is a copy of. */
  function Carved(s: Tx): seq<byte>
    requires Carves(s)
  {
    s.source[s.copied .. s.copied + Min(|s.source| - s.copied, WRITE_CHUNK_SIZE)]
  }

  function Carve(s: Tx): Tx
  {
    if Carves(s) then
      var piece := Carved(s);
      s.(chunks := s.chunks + [Chunk(s.queued, piece)],
         copied := s.copied + |piece|, queued := s.queued + |piece|)
    else s
  }

  /** The parts of the chunks that lie beyond `from`, at most `room` of them. */
  function Gather(chunks: seq<Chunk>, from: nat, room: nat): (slices: seq<Slice>)
    ensures |slices| <= room
  {
    if chunks == [] || room == 0 then []
    else if chunks[0].End() <= from then Gather(chunks[1..], from, room)
    else
      [Held(chunks[0], if from > chunks[0].offset then from - chunks[0].offset else 0, |chunks[0].data|)]
      + Gather(chunks[1..], from, room - 1)
  }

  /** Where the last of them ends in the body; `end` if there is none. */
  function GatherEnd(chunks: seq<Chunk>, from: nat, room: nat, end: nat): nat
  {
    if chunks == [] || room == 0 then end
    else if chunks[0].End() <= from then GatherEnd(chunks[1..], from, room, end)
    else GatherEnd(chunks[1..], from, room - 1, chunks[0].End())
  }

  /** Every index of a slice lies inside what it points into. */
  predicate InBounds(s: Tx, x: Slice)
  {
    match x
    case Caller(lo, hi) => 0 <= lo <= hi <= |s.source|
    case Held(c, lo, hi) => c in s.chunks && 0 <= lo <= hi <= |c.data|
  }

  function Resolve(s: Tx, x: Slice): seq<byte>
    requires InBounds(s, x)
  {
    match x
    case Caller(lo, hi) => s.source[lo..hi]
    case Held(c, lo, hi) => c.data[lo..hi]
  }

  predicate AllInBounds(s: Tx, slices: seq<Slice>)
  {
    slices == [] || (InBounds(s, slices[0]) && AllInBounds(s, slices[1..]))
  }

  /** The bytes a vec stands for, in the state that filled it; an entry that is out of bounds has none. */
  function Gathered(s: Tx, slices: seq<Slice>): seq<byte>
  {
    if slices == [] then []
    else (if InBounds(s, slices[0]) then Resolve(s, slices[0]) else []) + Gathered(s, slices[1..])
  }

  datatype Offer = Offer(tx: Tx, slices: seq<Slice>, end: nat, fin: bool)

  /** pending_data(): the vec entries, where they end in the body, and whether the FIN comes with them. */
  function PendingData(s: Tx, from: nat, room: nat): Offer
  {
    if room == 0 || !Live(s) then Offer(s, [], from, false)
    else
      var t := Carve(s);
      var slices :=
        if t.mode == Staged then Gather(t.chunks, from, room)
        else if t.active && from < t.queued then [Caller(from - t.base, t.queued - t.base)]
        else [];
      var end :=
        if t.mode == Staged then GatherEnd(t.chunks, from, room, from)
        else if slices != [] then t.queued
        else from;
      Offer(t, slices, end,
            t.active && t.isEof && (t.mode == ZeroCopy || t.copied == |t.source|) && end >= t.queued)
  }

  // ------------------------------------------------------------------------------------------
  // What the stack reports back
  // ------------------------------------------------------------------------------------------

  /** finish_active_write() */
  function Finish(s: Tx): Effect
  {
    Effect(s.(active := false, source := [], handler := None),
           if s.handler.Some? then [Completion(s.handler.value, Success)] else [], false)
  }

  /** The answer it gives, if it comes to that. */
  function Succeeds(s: Tx, done: bool): seq<Completion>
  {
    if done && s.handler.Some? then [Completion(s.handler.value, Success)] else []
  }

  /** A FIN that is handed over completes a write that had nothing else to hand over. */
  function OnOffered(s: Tx, end: nat, fin: bool): Effect
  {
    var done := fin && s.active && s.source == [];
    Effect(s.(offered := Max(s.offered, Min(end, s.queued)), finOffered := s.finOffered || fin,
              active := s.active && !done, handler := if done then None else s.handler),
           Succeeds(s, done), false)
  }

  /** Once all that was copied has gone out, a Staged write is complete, or there is more to copy. */
  function OnSent(s: Tx, end: nat): Effect
  {
    if end <= s.sent then Effect(s, [], false)
    else
      var sent := Min(end, s.offered);
      var caughtUp := s.mode == Staged && s.active && sent >= s.queued && s.source != [];
      var done := caughtUp && s.copied == |s.source|;
      Effect(s.(sent := sent, active := s.active && !done, source := if done then [] else s.source,
                handler := if done then None else s.handler),
             Succeeds(s, done), caughtUp && !done)
  }

  /** What is left of `chunks` once those that end at or before `acked` have been dropped from the front. */
  function DropAcked(chunks: seq<Chunk>, acked: nat): seq<Chunk>
  {
    if chunks != [] && chunks[0].End() <= acked then DropAcked(chunks[1..], acked) else chunks
  }

  function OnAcked(s: Tx, end: nat): Effect
  {
    var e := Min(end, s.offered);
    if e <= s.acked then Effect(s, [], false)
    else
      var done := s.mode == ZeroCopy && s.active && s.source != [] && e >= s.base + |s.source|;
      Effect(s.(acked := e, chunks := DropAcked(s.chunks, e), active := s.active && !done,
                source := if done then [] else s.source, handler := if done then None else s.handler),
             Succeeds(s, done), false)
  }

  /** on_stream_data_written() of plain streams: `n` bytes went into a packet, and the FIN with `fin`. */
  function PlainWritten(s: Tx, n: nat, fin: bool): Effect
  {
    var a := OnOffered(s, s.sent + n, fin);
    var b := OnSent(a.tx, s.sent + n);
    Effect(b.tx, a.done + b.done, b.writable)
  }

  /** Http3Stream::data_reader(), given what pending_data() answered: nghttp3 keeps all it is given. */
  function Http3Taken(offer: Offer): Effect
  {
    if offer.slices == [] && !offer.fin then Effect(offer.tx, [], false)
    else OnOffered(offer.tx, offer.end, offer.fin)
  }

  /** Http3Stream::on_write_offered() */
  function Http3Sent(s: Tx, n: nat): Effect
  {
    if n > 0 && s.offered >= s.sent then OnSent(s, s.sent + Min(n, s.offered - s.sent)) else Effect(s, [], false)
  }

  /** Http3Stream::on_write_acked() */
  function Http3Acked(s: Tx, n: nat): Effect
  {
    if n > 0 then OnAcked(s, s.acked + n) else Effect(s, [], false)
  }

  // ------------------------------------------------------------------------------------------
  // Lifecycle
  // ------------------------------------------------------------------------------------------

  /** The active write is over without having got its body across. */
  function Abandon(s: Tx, code: Code): Effect
  {
    if !s.active then Effect(s, [], false)
    else Effect(s.(active := false, source := [], handler := None),
                if s.handler.Some? then [Completion(s.handler.value, code)] else [], false)
  }

  function AbortWriting(s: Tx, code: Code): Effect { Abandon(s.(aborted := true), code) }

  function Fail(s: Tx, code: Code): Effect
  {
    Abandon(s.(closed := true), if code == Success then ConnectionReset else code)
  }

  /** delete_writer(), for either driver; `headers` tells whether HTTP/3 headers were submitted. */
  function DeleteWriter(s: Tx, headers: bool): Effect
  {
    if s.driver == Plain then
      if !Live(s) || s.eofSubmitted then Effect(s, [], false)
      else AbortWriting(ResetWriting(s), ConnectionReset)
    else if s.closed then Effect(s, [], false)
    else if !headers then Effect(s.(closed := true), [], false)
    else if s.eofSubmitted then Effect(s, [], false)
    else Fail(s, PartialMessage)
  }

  /** The destructor's detach_all(): a stored handler is told, and the stream is gone. */
  function Detach(s: Tx): Effect
  {
    if s.active && s.handler.Some?
    then Effect(s.(handler := None), [Completion(s.handler.value, ConnectionReset)], false)
    else Effect(s, [], false)
  }
}
