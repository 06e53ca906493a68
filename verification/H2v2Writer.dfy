/**
 * The write path of the second HTTP/2 backend: the stack is given memory to read from, the caller's own or a
 * copy of a piece of it, and reports later what of it has made it into frames.
 */
module H2v2Writer {
  import opened Bytes
  import opened H2Body

  datatype Mode = ZeroCopy | Staged

  const WRITE_CHUNK_SIZE: nat := 0x4000

  /**
   * `handler` is the parked call, `offered` and `written` count bytes of its `buffer`; `gone` is the stream, but
   * for its writer.
   */
  datatype Writer = Writer(mode: Mode, buffer: seq<byte>, offered: nat, written: nat, handler: Option<nat>,
                           deferred: bool, eofRequested: bool, eofSubmitted: bool, cancelled: bool, closed: bool,
                           gone: bool)

  /** What the stack gets: a piece of the body, perhaps with its end; the end alone; or nothing for now. */
  datatype Given = Piece(data: seq<byte>, end: bool) | JustEnd | WouldBlock

  function Fresh(mode: Mode): Writer { Writer(mode, [], 0, 0, None, false, false, false, false, false, false) }

  // --- The operations ---

  function Answer(s: Writer, data: seq<byte>, eof: bool): Option<Code>
  {
    if s.gone then Some(Detached(data, eof, s.eofSubmitted))
    else Ladder(data, eof, s.eofRequested, s.eofSubmitted, s.closed)
  }

  /** The assertion of async_write(): one write at a time. */
  predicate AssertHolds(s: Writer, data: seq<byte>, eof: bool) { Answer(s, data, eof).None? ==> s.handler.None? }

  function StartWrite(s: Writer, id: nat, data: seq<byte>, eof: bool): Writer
    requires AssertHolds(s, data, eof)
  {
    if Answer(s, data, eof).Some? then s
    else
      s.(buffer := data, offered := 0, written := 0, handler := Some(id), eofRequested := s.eofRequested || eof,
         deferred := false)
  }

  /** The stack may still read from the caller's buffer. */
  predicate Outstanding(s: Writer) { s.mode == ZeroCopy && s.written < s.offered }

  function Tell(s: Writer, code: Code): Effect<Writer>
  {
    Effect(s.(handler := None), if s.handler.Some? then Some(code) else None)
  }

  /** With bytes outstanding, a cancellation resets the stream, and the answer has to wait for that. */
  predicate Resets(s: Writer) { Outstanding(s) && !s.closed }

  function Cancel(s: Writer): Effect<Writer>
  {
    if Resets(s) then Effect(s.(cancelled := true), None) else Tell(s, Canceled)
  }

  function Close(s: Writer): Effect<Writer>
  {
    Tell(s.(closed := true), if s.cancelled then Canceled else ConnectionReset)
  }

  /** The destructor detaches the writer, and takes the parked handler for cancelled. */
  function Destroy(s: Writer): Effect<Writer> { Tell(s.(gone := true), Canceled) }

  /** on_write_offset(): `len` bytes more have been framed. */
  function OnWriteOffset(s: Writer, len: nat): Effect<Writer>
  {
    if s.mode != ZeroCopy then Effect(s, None)
    else
      var done := s.handler.Some? && s.written + len >= |s.buffer|;
      Effect(s.(written := s.written + len, handler := if done then None else s.handler),
             if done then Some(Success) else None)
  }

  /** data_reader() with room for `veccnt` pieces. */
  function DataReader(s: Writer, veccnt: nat): (Effect<Writer>, Given)
  {
    if s.handler.None? then
      if s.eofSubmitted then (Effect(s, None), JustEnd) else (Effect(s.(deferred := true), None), WouldBlock)
    else if s.offered >= |s.buffer| then
      if !s.eofRequested || s.eofSubmitted then (Effect(s.(deferred := true), None), WouldBlock)
      else (Effect(s.(eofSubmitted := true, handler := None), Some(Success)), JustEnd)
    else if veccnt == 0 then (Effect(s.(deferred := true), None), WouldBlock)
    else
      var left := |s.buffer| - s.offered;
      var offer := if s.mode == ZeroCopy then left else Min(left, WRITE_CHUNK_SIZE);
      var last := offer == left;
      var end := last && s.eofRequested;
      var done := last && s.mode == Staged;
      (Effect(s.(offered := s.offered + offer, eofSubmitted := s.eofSubmitted || end,
                 handler := if done then None else s.handler),
              if done then Some(Success) else None),
       Piece(s.buffer[s.offered..s.offered + offer], end))
  }

  // --- Runs ---

  /**
   * The writer, its history, how many bytes the stack has reported as framed, the calls whose cancellation
   * was asked for, and those that were parked when one of them reset the stream.
   */
  datatype World = World(s: Writer, b: Body, framed: nat, asked: set<nat>, resets: set<nat>)

  datatype Event = Write(data: seq<byte>, eof: bool) | CancelBy(i: nat) | Ask(veccnt: nat) | Report(len: nat)
                 | Shut | Vanish

  function Start(mode: Mode): World { World(Fresh(mode), NO_BODY, 0, {}, {}) }

  /**
   * One write at a time; the stack does not ask while deferred, and reports what it has framed of the bytes
   * it was given, at least one of them and not after it has closed the stream; and nothing but its writer refers
   * to a stream that is gone.
   */
  predicate Enabled(w: World, e: Event)
  {
    match e
    case Write(data, eof) => AssertHolds(w.s, data, eof)
    case CancelBy(i) => !w.s.gone && i < |w.b.calls| && w.b.calls[i].write.Some?
    case Ask(_) => !w.s.gone && !w.s.deferred
    case Report(len) => !w.s.gone && !w.s.closed && 0 < len && w.framed + len <= |w.b.out|
    case Shut => !w.s.gone
    case Vanish => !w.s.gone
  }

  function After(w: World, eff: Effect<Writer>): World { w.(s := eff.s, b := Told(w.b, w.s.handler, eff.told)) }

  function Handed(w: World, g: Given): Body
  {
    if w.s.handler.None? || !HasWrites(w.b) then w.b
    else match g
      case Piece(data, end) => Sent(w.b, data, end)
      case JustEnd => Sent(w.b, [], true)
      case WouldBlock => w.b
  }

  function Step(w: World, e: Event): World
    requires Enabled(w, e)
  {
    match e
    case Write(data, eof) =>
      w.(s := StartWrite(w.s, |w.b.calls|, data, eof), b := Called(w.b, data, eof, Answer(w.s, data, eof)))
    case CancelBy(i) =>
      var hit := if Resets(w.s) && w.s.handler.Some? then {w.s.handler.value} else {};
      After(w, Cancel(w.s)).(asked := w.asked + {i}, resets := w.resets + hit)
    case Ask(veccnt) =>
      var (eff, g) := DataReader(w.s, veccnt);
      After(w.(b := Handed(w, g)), eff)
    case Report(len) => After(w, OnWriteOffset(w.s, len)).(framed := w.framed + len)
    case Shut => After(w, Close(w.s))
    case Vanish => After(w, Destroy(w.s))
  }

  predicate Legal(w: World, events: seq<Event>)
    decreases |events|
  {
    events == [] || (Enabled(w, events[0]) && Legal(Step(w, events[0]), events[1..]))
  }

  function Run(w: World, events: seq<Event>): World
    requires Legal(w, events)
    decreases |events|
  {
    if events == [] then w else Run(Step(w, events[0]), events[1..])
  }

  ghost predicate Reachable(w: World)
  {
    exists mode: Mode, events: seq<Event> :: Legal(Start(mode), events) && Run(Start(mode), events) == w
  }

  // --- What every step keeps ---

  /** The parked write is the last one, and what was offered is what has gone out for it. */
  predicate Tracks(s: Writer, b: Body)
  {
    && (s.handler.Some? ==>
          && HasWrites(b) && !s.closed && !s.gone
          && s.buffer == Last(b).data && s.offered == Last(b).taken <= |s.buffer|
          && (s.buffer == [] ==> s.eofRequested)
          && (s.offered < |s.buffer| || s.buffer == [] ==> !s.eofSubmitted)
          && (s.offered == |s.buffer| && s.buffer != [] ==> s.mode == ZeroCopy && (s.eofRequested ==> s.eofSubmitted)))
    && (s.eofSubmitted <==> b.ended)
    && (s.eofRequested <==> EndRequested(b))
  }

  /** Zero copy: what is outstanding of the buffer is what the stack was given and has not framed. */
  predicate Counts(w: World)
  {
    && w.framed <= |w.b.out|
    && (w.s.mode == ZeroCopy && !w.s.closed && !w.s.gone ==>
          && w.s.written <= w.s.offered
          && |w.b.out| - w.framed == w.s.offered - w.s.written
          && (w.s.handler.None? ==> w.s.written == w.s.offered)
          && (w.s.handler.Some? && w.s.buffer != [] ==> w.s.written < |w.s.buffer|))
  }

  predicate WriteFramed(k: nat, w: World) { k < |w.b.writes| && Where(w.b.writes, k) <= w.framed }

  /** Zero copy: what succeeded has been framed. */
  predicate SuccessFramed(w: World)
  {
    w.s.mode == ZeroCopy ==>
      forall i :: 0 <= i < |w.b.calls| && Succeeded(w.b.calls[i]) && w.b.calls[i].write.Some? ==>
        WriteFramed(w.b.calls[i].write.value, w)
  }

  predicate ResetsInv(w: World)
  {
    && (w.s.cancelled <==> w.resets != {})
    && (forall r <- w.resets :: r < |w.b.calls| && w.b.calls[r].write.Some?)
    && (w.resets != {} ==> w.asked != {})
  }

  predicate Inv(w: World)
  {
    Books(w.b, w.s.handler) && Tracks(w.s, w.b) && Counts(w) && SuccessFramed(w) && ResetsInv(w)
  }

  // --- Books and tracks ---

  lemma WriteBooks(w: World, data: seq<byte>, eof: bool)
    requires Books(w.b, w.s.handler) && Tracks(w.s, w.b) && Enabled(w, Write(data, eof))
    ensures var v := Step(w, Write(data, eof)); Books(v.b, v.s.handler) && Tracks(v.s, v.b)
  {
    match Answer(w.s, data, eof)
    case Some(code) => AnsweredBooks(w.b, w.s.handler, data, eof, code);
    case None => ParkedBooks(w.b, data, eof);
  }

  lemma PieceBooks(w: World, veccnt: nat)
    requires Books(w.b, w.s.handler) && Tracks(w.s, w.b) && w.s.handler.Some? && DataReader(w.s, veccnt).1.Piece?
    ensures var (eff, g) := DataReader(w.s, veccnt);
      var v := After(w.(b := Handed(w, g)), eff);
      Books(v.b, v.s.handler) && Tracks(v.s, v.b)
  {
    var (eff, g) := DataReader(w.s, veccnt);
    SentBooks(w.b, w.s.handler.value, g.data, g.end);
    if eff.told.Some? { ToldBooks(Handed(w, g), w.s.handler.value, Success); }
  }

  lemma EndBooks(w: World, veccnt: nat)
    requires Books(w.b, w.s.handler) && Tracks(w.s, w.b) && w.s.handler.Some? && DataReader(w.s, veccnt).1.JustEnd?
    ensures var (eff, g) := DataReader(w.s, veccnt);
      var v := After(w.(b := Handed(w, g)), eff);
      Books(v.b, v.s.handler) && Tracks(v.s, v.b)
  {
    var last := Last(w.b);
    assert last.data[last.taken..last.taken] == [];
    SentBooks(w.b, w.s.handler.value, [], true);
    ToldBooks(Sent(w.b, [], true), w.s.handler.value, Success);
  }

  lemma AskBooks(w: World, veccnt: nat)
    requires Books(w.b, w.s.handler) && Tracks(w.s, w.b) && Enabled(w, Ask(veccnt))
    ensures var v := Step(w, Ask(veccnt)); Books(v.b, v.s.handler) && Tracks(v.s, v.b)
  {
    if w.s.handler.Some? {
      match DataReader(w.s, veccnt).1
      case Piece(_, _) => PieceBooks(w, veccnt);
      case JustEnd => EndBooks(w, veccnt);
      case WouldBlock =>
    }
  }

  lemma ToldStays(w: World, eff: Effect<Writer>)
    requires Books(w.b, w.s.handler) && Tracks(w.s, w.b) && w.s.handler.Some?
    requires eff.s == w.s.(handler := eff.s.handler, written := eff.s.written, cancelled := eff.s.cancelled,
                           closed := eff.s.closed, gone := eff.s.gone)
    requires if eff.told.Some? then eff.s.handler.None?
             else eff.s.handler == w.s.handler && eff.s.closed == w.s.closed && !eff.s.gone
    requires eff.told == Some(Success) ==> Last(w.b).taken == |Last(w.b).data| && (Last(w.b).eof ==> w.b.ended)
    ensures var v := After(w, eff); Books(v.b, v.s.handler) && Tracks(v.s, v.b)
  {
    if eff.told.Some? { ToldBooks(w.b, w.s.handler.value, eff.told.value); }
  }

  lemma StepBooks(w: World, e: Event)
    requires Books(w.b, w.s.handler) && Tracks(w.s, w.b) && Counts(w) && Enabled(w, e)
    ensures var v := Step(w, e); Books(v.b, v.s.handler) && Tracks(v.s, v.b)
  {
    match e
    case Write(data, eof) => WriteBooks(w, data, eof);
    case CancelBy(_) => if w.s.handler.Some? { ToldStays(w, Cancel(w.s)); }
    case Ask(veccnt) => AskBooks(w, veccnt);
    case Report(len) => if w.s.handler.Some? { ToldStays(w, OnWriteOffset(w.s, len)); }
    case Shut => if w.s.handler.Some? { ToldStays(w, Close(w.s)); }
    case Vanish => if w.s.handler.Some? { ToldStays(w, Destroy(w.s)); }
  }
}
