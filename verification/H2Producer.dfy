/**
 * The write path of the first HTTP/2 backend: the stack asks, and what fits of the parked write is copied
 * into its frame. Every step it can take, and what they amount to on every run.
 */
module H2Producer {
  import opened Bytes
  import opened H2Body

  /** `buffer` is what is left to copy, `handler` the parked call; `gone` is the stream, but for its writer. */
  datatype Producer = Producer(buffer: seq<byte>, handler: Option<nat>, deferred: bool, eofRequested: bool,
                               eofSubmitted: bool, closed: bool, gone: bool)

  /** What producer_callback() returns. */
  datatype Produced = Failure | Deferred | Frame(data: seq<byte>, end: bool)

  const FRESH := Producer([], None, false, false, false, false, false)

  // --- The operations ---

  function Answer(s: Producer, data: seq<byte>, eof: bool): Option<Code>
  {
    if s.gone then Some(Detached(data, eof, s.eofSubmitted))
    else Ladder(data, eof, s.eofRequested, s.eofSubmitted, s.closed)
  }

  /** The assertion of async_write(): one write at a time. */
  predicate AssertHolds(s: Producer, data: seq<byte>, eof: bool) { Answer(s, data, eof).None? ==> s.handler.None? }

  /** async_write() by call `id`; a parked write wakes the source. */
  function StartWrite(s: Producer, id: nat, data: seq<byte>, eof: bool): Producer
    requires AssertHolds(s, data, eof)
  {
    if Answer(s, data, eof).Some? then s
    else s.(buffer := data, handler := Some(id), eofRequested := s.eofRequested || eof, deferred := false)
  }

  /** The cancellation callback takes away whatever handler is parked. */
  function Cancel(s: Producer): Effect<Producer>
  {
    Effect(s.(handler := None), if s.handler.Some? then Some(Canceled) else None)
  }

  function Close(s: Producer): Effect<Producer>
  {
    Effect(s.(closed := true, handler := None), if s.handler.Some? then Some(ConnectionReset) else None)
  }

  /** The destructor detaches the writer, and takes the parked handler for cancelled. */
  function Destroy(s: Producer): Effect<Producer>
  {
    Effect(s.(gone := true, handler := None), if s.handler.Some? then Some(Canceled) else None)
  }

  /** producer_callback() with room for `length` bytes. */
  function Produce(s: Producer, length: nat): (Effect<Producer>, Produced)
  {
    if s.closed then (Effect(s, None), Failure)
    else if s.handler.None? then (Effect(s.(deferred := true), None), Deferred)
    else if s.buffer == [] then (Effect(s.(handler := None, eofSubmitted := true), Some(Success)), Frame([], true))
    else
      var n := Min(length, |s.buffer|);
      var whole := n == |s.buffer|;
      var end := whole && s.eofRequested;
      (Effect(s.(buffer := s.buffer[n..], handler := if whole then None else s.handler,
                 eofSubmitted := s.eofSubmitted || end),
              if whole then Some(Success) else None),
       Frame(s.buffer[..n], end))
  }

  // --- Runs ---

  /** The producer, its history, and the calls whose cancellation was asked for. */
  datatype World = World(s: Producer, b: Body, asked: set<nat>)

  /** A cancellation comes from the slot of some call that was parked once; the callback does not know which. */
  datatype Event = Write(data: seq<byte>, eof: bool) | CancelBy(i: nat) | Ask(length: nat) | Shut | Vanish

  const START := World(FRESH, NO_BODY, {})

  /**
   * One write at a time; the stack does not ask while deferred, nor past the end, unless the stream is closed;
   * and nothing but its writer refers to a stream that is gone.
   */
  predicate Enabled(w: World, e: Event)
  {
    match e
    case Write(data, eof) => AssertHolds(w.s, data, eof)
    case CancelBy(i) => !w.s.gone && i < |w.b.calls| && w.b.calls[i].write.Some?
    case Ask(_) => !w.s.gone && (w.s.closed || (!w.s.deferred && !w.s.eofSubmitted))
    case Shut => !w.s.gone
    case Vanish => !w.s.gone
  }

  function After(w: World, eff: Effect<Producer>): World { w.(s := eff.s, b := Told(w.b, w.s.handler, eff.told)) }

  /** A frame goes out, and then the handler is told. */
  function Framed(w: World, p: Produced): Body
  {
    if p.Frame? && HasWrites(w.b) then Sent(w.b, p.data, p.end) else w.b
  }

  function Step(w: World, e: Event): World
    requires Enabled(w, e)
  {
    match e
    case Write(data, eof) =>
      w.(s := StartWrite(w.s, |w.b.calls|, data, eof), b := Called(w.b, data, eof, Answer(w.s, data, eof)))
    case CancelBy(i) => After(w, Cancel(w.s)).(asked := w.asked + {i})
    case Ask(length) =>
      var (eff, p) := Produce(w.s, length);
      After(w.(b := Framed(w, p)), eff)
    case Shut => After(w, Close(w.s))
    case Vanish => After(w, Destroy(w.s))
  }

  predicate Legal(w: World, events: seq<Event>)
    decreases |events|
  {
    events == [] || (Enabled(w, events[0]) && Legal(Step(w, events[0]), events[1..]))
  }

  function Run(w: World, events: seq<Event>): World
    requires Legal(w, events)
    decreases |events|
  {
    if events == [] then w else Run(Step(w, events[0]), events[1..])
  }

  ghost predicate Reachable(w: World) { exists events: seq<Event> :: Legal(START, events) && Run(START, events) == w }

  // --- What every step keeps ---

  /** The parked write is the last one, and what is left of it is in the buffer. */
  predicate Tracks(s: Producer, b: Body)
  {
    && (s.handler.Some? ==>
          && HasWrites(b) && !s.deferred && !s.closed && !s.gone && !s.eofSubmitted
          && Last(b).taken <= |Last(b).data| && s.buffer == Last(b).data[Last(b).taken..]
          && (s.buffer == [] ==> s.eofRequested && Last(b).data == []))
    && (s.eofSubmitted <==> b.ended)
    && (s.eofRequested <==> EndRequested(b))
  }

  predicate Inv(w: World) { Books(w.b, w.s.handler) && Tracks(w.s, w.b) }

  lemma WriteInv(w: World, data: seq<byte>, eof: bool)
    requires Inv(w) && Enabled(w, Write(data, eof))
    ensures Inv(Step(w, Write(data, eof)))
  {
    match Answer(w.s, data, eof)
    case Some(code) => AnsweredBooks(w.b, w.s.handler, data, eof, code);
    case None => ParkedBooks(w.b, data, eof);
  }

  lemma AskInv(w: World, length: nat)
    requires Inv(w) && Enabled(w, Ask(length))
    ensures Inv(Step(w, Ask(length)))
  {
    if !w.s.closed && w.s.handler.Some? {
      var last := Last(w.b);
      var (eff, p) := Produce(w.s, length);
      assert last.data[last.taken..][..|p.data|] == last.data[last.taken..last.taken + |p.data|];
      SentBooks(w.b, w.s.handler.value, p.data, p.end);
      if eff.told.Some? {
        ToldBooks(Sent(w.b, p.data, p.end), w.s.handler.value, Success);
      }
    }
  }

  lemma StepInv(w: World, e: Event)
    requires Inv(w) && Enabled(w, e)
    ensures Inv(Step(w, e))
  {
    match e
    case Write(data, eof) => WriteInv(w, data, eof);
    case CancelBy(_) => if w.s.handler.Some? { ToldBooks(w.b, w.s.handler.value, Canceled); }
    case Ask(length) => AskInv(w, length);
    case Shut => if w.s.handler.Some? { ToldBooks(w.b, w.s.handler.value, ConnectionReset); }
    case Vanish => if w.s.handler.Some? { ToldBooks(w.b, w.s.handler.value, Canceled); }
  }

  lemma StepGrows(w: World, e: Event)
    requires Inv(w) && Enabled(w, e)
    ensures Grown(w.b, Step(w, e).b)
  {
    match e
    case Write(data, eof) => CalledGrown(w.b, data, eof, Answer(w.s, data, eof));
    case CancelBy(_) => AfterGrown(w, Cancel(w.s));
    case Ask(length) => AskGrown(w, length);
    case Shut => AfterGrown(w, Close(w.s));
    case Vanish => AfterGrown(w, Destroy(w.s));
  }

  lemma AfterGrown(w: World, eff: Effect<Producer>)
    requires Linked(w.b) && AnsweredOnce(w.b, w.s.handler)
    ensures Grown(w.b, After(w, eff).b)
  {
    if w.s.handler.Some? { ToldGrown(w.b, w.s.handler.value, eff.told); }
  }

  lemma AskGrown(w: World, length: nat)
    requires Inv(w)
    ensures var (eff, p) := Produce(w.s, length); Grown(w.b, After(w.(b := Framed(w, p)), eff).b)
  {
    var (eff, p) := Produce(w.s, length);
    if p.Frame? {
      var c := Sent(w.b, p.data, p.end);
      SentGrown(w.b, p.data, p.end);
      SentLinked(w.b, p.data, p.end);
      AfterGrown(w.(b := c), eff);
      GrownTransitive(w.b, c, After(w.(b := c), eff).b);
    }
  }

  lemma {:induction false} RunInv(w: World, events: seq<Event>)
    requires Inv(w) && Legal(w, events)
    ensures Inv(Run(w, events)) && Grown(w.b, Run(w, events).b)
    decreases |events|
  {
    if events != [] {
      var v := Step(w, events[0]);
      StepInv(w, events[0]);
      StepGrows(w, events[0]);
      RunInv(v, events[1..]);
      GrownTransitive(w.b, v.b, Run(v, events[1..]).b);
    }
  }

  lemma ReachableInv(w: World)
    requires Reachable(w)
    ensures Inv(w)
  {
    var events: seq<Event> :| Legal(START, events) && Run(START, events) == w;
    RunInv(START, events);
  }

  // --- What that means, on every run ---

  /** The payload of all frames is what the accepted writes contributed, in order; a success means all of it. */
  lemma SendsTheBody(w: World)
    requires Reachable(w)
    ensures SaysWhatWasSent(w.b)
  {
    ReachableInv(w);
    BooksSaySent(w.b, w.s.handler);
  }

  /** END_STREAM goes out only for a call that asked for it, with the last accepted write and all of that. */
  lemma EndWasAskedFor(w: World)
    requires Reachable(w)
    ensures SaysWhoEnded(w.b)
  {
    ReachableInv(w);
    BooksSayEnded(w.b, w.s.handler);
  }

  /** A write_eof that reports success, on the spot or later, means that END_STREAM has gone out. */
  lemma SuccessfulEndIsSent(w: World, i: nat)
    requires Reachable(w) && i < |w.b.calls| && w.b.calls[i].eof && Succeeded(w.b.calls[i])
    ensures w.b.ended && w.s.eofSubmitted
  {
    ReachableInv(w);
    assert Earned(w.b, w.b.calls[i]);
  }

  /** What was sent stays sent, nothing follows the end, and an answer is final. */
  lemma {:induction false} SentForGood(w: World, events: seq<Event>)
    requires Reachable(w) && Legal(w, events)
    ensures Grown(w.b, Run(w, events).b)
  {
    ReachableInv(w);
    RunInv(w, events);
  }

  /** Every call is answered exactly once, unless its handler is the one that is parked. */
  lemma EachAnsweredOnce(w: World, i: nat)
    requires Reachable(w) && i < |w.b.calls|
    ensures |w.b.calls[i].outcomes| == if w.s.handler == Some(i) then 0 else 1
  {
    ReachableInv(w);
    assert HasAnswers(i, w.b.calls[i], w.s.handler);
  }

  /** No write is ever parked while the source is deferred: no wake-up is lost. */
  lemma NeverParkedDeferred(w: World)
    requires Reachable(w) && w.s.handler.Some?
    ensures !w.s.deferred && !w.s.closed && Enabled(w, Ask(0))
    ensures w.s.buffer == [] ==> w.s.eofRequested // the assertion of producer_callback()
  {
    ReachableInv(w);
  }

  /**
   * What a stack that offers room gets: a failure exactly from a closed stream, a deferral exactly without
   * a parked write, else the next bytes of that; with the end exactly if it asked for the end and these are
   * the last, so alone only if it has none. The write is answered exactly then.
   */
  lemma AskedFor(w: World, length: nat)
    requires Reachable(w) && Enabled(w, Ask(length)) && length > 0
    ensures var (eff, p) := Produce(w.s, length);
      && (p.Failure? <==> w.s.closed)
      && (p.Deferred? <==> !w.s.closed && w.s.handler.None?)
      && (p.Frame? ==>
            && HasWrites(w.b) && w.s.handler == Some(Last(w.b).call)
            && var last := Last(w.b);
               var to := last.taken + |p.data|;
               && last.taken <= |last.data| && |p.data| == Min(length, |last.data| - last.taken)
               && p.data == last.data[last.taken..to]
               && (p.end <==> last.eof && to == |last.data|)
               && (p.data == [] <==> last.data == [])
               && (eff.told == Some(Success) <==> to == |last.data|))
  {
    ReachableInv(w);
    if w.s.handler.Some? {
      var last := Last(w.b);
      var n := Min(length, |w.s.buffer|);
      assert last.data[last.taken..][..n] == last.data[last.taken..last.taken + n];
    }
  }

  /**
   * A cancellation that comes late, when its own call has been answered, does something if and only if
   * another call is parked: that one is told it was cancelled, and its write stops where it is.
   */
  lemma LateCancellation(w: World, i: nat)
    requires Reachable(w) && Enabled(w, CancelBy(i)) && w.b.calls[i].outcomes != []
    ensures var v := Step(w, CancelBy(i));
      && ((v.s, v.b) != (w.s, w.b) <==> w.s.handler.Some?)
      && (w.s.handler.Some? ==>
            && var h := w.s.handler.value;
               && h < |w.b.calls| && h != i && v.b.calls[h].outcomes == [Canceled]
               && v.s == w.s.(handler := None) && v.b == w.b.(calls := v.b.calls))
  {
    ReachableInv(w);
    if w.s.handler.Some? { ParkedUnanswered(w.b, w.s.handler.value); }
  }

  /** It does happen, to a write nobody cancelled. */
  lemma LateCancellationHappens(x: byte) returns (w: World)
    ensures Reachable(w) && Enabled(w, CancelBy(0)) && w.b.calls[0].outcomes == [Success] && w.s.handler == Some(1)
    ensures var v := Step(w, CancelBy(0)); |v.b.calls| == 2 && v.b.calls[1].outcomes == [Canceled]
  {
    w := START;
    assert Legal(w, []) && Run(w, []) == w;
    w := Onward(w, Write([x], false));
    w := Onward(w, Ask(1));
    assert w.b.calls[0].outcomes == [Success];
    w := Onward(w, Write([x], false));
  }

  /** The destructor answers the one call that is still parked, and no other; then every call has its answer. */
  lemma DestructorAnswersTheRest(w: World, i: nat)
    requires Reachable(w) && Enabled(w, Vanish) && i < |w.b.calls|
    ensures var v := Step(w, Vanish);
      && |v.b.calls| == |w.b.calls| && |v.b.calls[i].outcomes| == 1
      && v.b.calls[i].outcomes == if w.s.handler == Some(i) then [Canceled] else w.b.calls[i].outcomes
  {
    ReachableInv(w);
    assert HasAnswers(i, w.b.calls[i], w.s.handler);
    if w.s.handler.Some? { ParkedUnanswered(w.b, w.s.handler.value); }
  }

  /**
   * A parked call that nobody cancelled is told that it was, if and only if another call is cancelled late,
   * or the stream is destroyed.
   */
  lemma ToldCanceledUnasked(w: World, e: Event)
    requires Reachable(w) && Enabled(w, e) && w.s.handler.Some?
    ensures w.s.handler.value < |Step(w, e).b.calls|
    ensures var h, v := w.s.handler.value, Step(w, e);
      h !in v.asked ==> (v.b.calls[h].outcomes == [Canceled] <==> e.CancelBy? || e.Vanish?)
  {
    ReachableInv(w);
    var h := w.s.handler.value;
    ParkedUnanswered(w.b, h);
    match e
    case Write(_, _) =>
    case CancelBy(_) => ToldCode(w.b, h, Cancel(w.s).told);
    case Ask(length) =>
      var (eff, p) := Produce(w.s, length);
      ToldCode(Framed(w, p), h, eff.told);
    case Shut => ToldCode(w.b, h, Close(w.s).told);
    case Vanish => ToldCode(w.b, h, Destroy(w.s).told);
  }

  /** It does happen when a stream is destroyed, to the only write there ever was. */
  lemma DestructionCancels(x: byte) returns (w: World)
    ensures Reachable(w) && w.asked == {} && !w.s.closed && w.s.handler == Some(0) && Enabled(w, Vanish)
    ensures var v := Step(w, Vanish); |v.b.calls| == 1 && v.b.calls[0].outcomes == [Canceled]
  {
    w := START;
    assert Legal(w, []) && Run(w, []) == w;
    w := Onward(w, Write([x], false));
  }

  lemma Onward(w: World, e: Event) returns (v: World)
    requires Reachable(w) && Enabled(w, e)
    ensures Reachable(v) && v == Step(w, e)
  {
    var events: seq<Event> :| Legal(START, events) && Run(START, events) == w;
    RunSnoc(START, events, e);
    v := Step(w, e);
  }

  lemma {:induction false} RunSnoc(w: World, events: seq<Event>, e: Event)
    requires Legal(w, events) && Enabled(Run(w, events), e)
    ensures Legal(w, events + [e]) && Run(w, events + [e]) == Step(Run(w, events), e)
    decreases |events|
  {
    var more := events + [e];
    if events == [] {
      assert more[1..] == [] && more[0] == e;
    } else {
      RunSnoc(Step(w, events[0]), events[1..], e);
      assert more[1..] == events[1..] + [e] && more[0] == events[0];
    }
  }
}
