/**
 * What becomes of the streams of a connection, told from its run: each one lives as it would alone, is blocked
 * exactly from the answer that blocked it to the extension of its window, and takes its turn in the queue.
 */
module QuicAppRuns {
  import opened Bytes
  import opened QuicTx
  import opened QuicTxInvariant
  import opened QuicTxOffer
  import opened QuicRuns
  import opened QuicRunsProofs
  import opened QuicTheorems
  import opened QuicApp
  import opened QuicAppProofs

  // --- Whose turn it is ---

  /** A stream that is there, is not blocked and has something to send. */
  predicate CanSend(a: App, id: nat)
  {
    id in a.streams && !a.streams[id].blocked && Wants(a.streams[id].tx)
  }

  /** The first place in the queue, from `k` on, of a stream that can send; the end of the queue if there is none. */
  function FirstUp(a: App, q: seq<nat>): (k: nat)
    ensures k <= |q|
  {
    if q == [] || CanSend(a, q[0]) then 0 else 1 + FirstUp(a, q[1..])
  }

  lemma {:induction false} FirstUpSame(a: App, b: App, q: seq<nat>)
    requires forall x <- q :: CanSend(a, x) <==> CanSend(b, x)
    ensures FirstUp(a, q) == FirstUp(b, q)
  {
    if q != [] {
      FirstUpSame(a, b, q[1..]);
    }
  }

  /** The stream whose turn it is, if the connection may send. */
  function Named(a: App, credit: bool): Option<nat>
  {
    var k := FirstUp(a, a.queue);
    if credit && k < |a.queue| then Some(a.queue[k]) else None
  }

  /** Only flags that say whether a stream is queued have changed. */
  predicate SameButFlags(a: App, b: App)
  {
    && b.streams.Keys == a.streams.Keys
    && forall x <- a.streams :: b.streams[x].(scheduled := false) == a.streams[x].(scheduled := false)
  }

  predicate DroppedFront(a: App, b: App)
    requires a.queue != []
  {
    b.queue == a.queue[1..] && !CanSend(a, a.queue[0]) && SameButFlags(a, b)
  }

  lemma UnscheduledFront(a: App)
    requires a.queue != [] && a.queue[0] in a.streams && !CanSend(a, a.queue[0])
    ensures DroppedFront(a, UnscheduleFront(a, a.queue[0]))
  {
  }

  lemma NextStep(a: App) returns (b: App)
    requires AppInv(a) && !a.closed && a.queue != [] && !CanSend(a, a.queue[0])
    ensures DroppedFront(a, b) && AppInv(b) && !b.closed && Next(a) == Next(b)
  {
    var id := a.queue[0];
    if id !in a.streams {
      PopGone(a);
      b := PopFront(a);
    } else {
      b := UnscheduleFront(a, id);
      UnscheduledFront(a);
      DropIdle(a, id);
      AskedOk(a.streams[id]);
      if !a.streams[id].blocked { assert a.streams[id := a.streams[id]] == a.streams; }
    }
  }

  /** What next_stream_data() is to come to: the stream at place `k` found, and those before it dropped. */
  predicate FoundAt(a: App, k: nat, b: App, found: Option<(nat, Offer)>)
  {
    && k <= |a.queue| && b.queue == a.queue[k..] && (found.Some? <==> k < |a.queue|)
    && (found.Some? ==> found.value.0 == a.queue[k] && a.queue[k] in a.streams
                        && found.value.1 == Look(a.streams[a.queue[k]]))
    && FlagsBut(a, b, found)
  }

  /** Apart from what the stream that was found has copied, only flags have changed. */
  predicate FlagsBut(a: App, b: App, found: Option<(nat, Offer)>)
  {
    && b.streams.Keys == a.streams.Keys
    && forall x <- a.streams ::
         var p := if found.Some? && x == found.value.0 then Asked(a.streams[x]) else a.streams[x];
         b.streams[x].(scheduled := false) == p.(scheduled := false)
  }

  lemma FlagsFurther(a: App, c: App, b: App, found: Option<(nat, Offer)>)
    requires SameButFlags(a, c) && FlagsBut(c, b, found)
    ensures FlagsBut(a, b, found)
  {
    forall x <- a.streams
      ensures var p := if found.Some? && x == found.value.0 then Asked(a.streams[x]) else a.streams[x];
        b.streams[x].(scheduled := false) == p.(scheduled := false)
    {
      assert c.streams[x].(scheduled := false) == a.streams[x].(scheduled := false);
    }
  }

  lemma FoundFurther(a: App, c: App, b: App, found: Option<(nat, Offer)>)
    requires a.queue != [] && DroppedFront(a, c) && FoundAt(c, FirstUp(c, c.queue), b, found)
    ensures FoundAt(a, FirstUp(a, a.queue), b, found)
  {
    forall x <- c.queue ensures CanSend(a, x) <==> CanSend(c, x) {
      if x in a.streams { assert c.streams[x].(scheduled := false) == a.streams[x].(scheduled := false); }
    }
    FirstUpSame(a, c, c.queue);
    FlagsFurther(a, c, b, found);
    if found.Some? {
      assert c.streams[found.value.0].(scheduled := false) == a.streams[found.value.0].(scheduled := false);
    }
  }

  lemma NextHere(a: App)
    requires AppInv(a) && a.queue != [] && CanSend(a, a.queue[0])
    ensures FoundAt(a, 0, Next(a).0, Next(a).1)
  {
    AskedOk(a.streams[a.queue[0]]);
  }

  /** next_stream_data() finds the stream whose turn it is, and drops those before it. */
  lemma {:induction false} NextIsFirst(a: App)
    requires AppInv(a) && !a.closed
    ensures FoundAt(a, FirstUp(a, a.queue), Next(a).0, Next(a).1)
    decreases |a.queue|
  {
    if a.queue != [] {
      if CanSend(a, a.queue[0]) {
        NextHere(a);
      } else {
        var c := NextStep(a);
        NextIsFirst(c);
        FoundFurther(a, c, Next(c).0, Next(c).1);
      }
    }
  }

  /** The answer reports stream data as written. */
  predicate Reports(o: Outcome) { (o.WriteMore? || o.Done?) && o.n.Some? }

  predicate Blocks(o: Outcome) { o.DataBlocked? || o.NotFound? }

  /** The queue after an answer: the stream it is about leaves the front, and joins at the end if it has sent. */
  predicate Turned(a: App, id: nat, o: Outcome, b: App)
  {
    var rest := if Reports(o) || Blocks(o) || o.StreamShut? then PastFront(a.queue) else a.queue;
    && b.queue == rest + (if Reports(o) then [id] else [])
    && b.streams.Keys == a.streams.Keys && id in a.streams
    && b.streams[id].blocked == (a.streams[id].blocked || Blocks(o))
    && forall x <- a.streams :: x != id ==> b.streams[x] == a.streams[x]
  }

  function PastFront(q: seq<nat>): seq<nat> { if q == [] then [] else q[1..] }

  lemma ReportTurns(a: App, id: nat, n: nat, fin: bool)
    requires !a.closed && id in a.streams && a.queue != [] && a.queue[0] == id && !a.streams[id].blocked
    ensures Turned(a, id, Done(Some(n)), Written(a, id, n, fin))
  {
    WrittenAt(a, id, n, fin);
  }

  lemma ActedTurns(a: App, id: nat, offer: Offer, o: Outcome)
    requires !a.closed && Distinct(a.queue) && a.queue != [] && a.queue[0] == id
    requires id in a.streams && !a.streams[id].blocked
    ensures Turned(a, id, o, Acted(a, Some((id, offer)), o))
  {
    match o
    case WriteMore(Some(n), _) =>
      var all := |Gathered(offer.tx, offer.slices)|;
      ReportTurns(a, id, Min(n, all), offer.fin && n >= all);
    case Done(Some(n)) =>
      var all := |Gathered(offer.tx, offer.slices)|;
      ReportTurns(a, id, Min(n, all), offer.fin && n >= all);
    case NotFound => PopOk(a.queue);
    case _ =>
  }

  lemma {:induction false} FirstCanSend(a: App, q: seq<nat>)
    ensures var k := FirstUp(a, q); k < |q| ==> CanSend(a, q[k])
  {
    if q != [] && !CanSend(a, q[0]) {
      FirstCanSend(a, q[1..]);
    }
  }

  predicate OthersSame(a: App, b: App, id: nat)
  {
    && b.streams.Keys == a.streams.Keys
    && forall x <- a.streams :: x != id ==> b.streams[x].(scheduled := false) == a.streams[x].(scheduled := false)
  }

  /** Where the queue stands after a pass that dealt with the stream at place `k`. */
  predicate TookTurn(a: App, k: nat, o: Outcome, b: App)
  {
    && k < |a.queue| && a.queue[k] in a.streams
    && b.queue == a.queue[if Reports(o) || Blocks(o) || o.StreamShut? then k + 1 else k..]
                  + (if Reports(o) then [a.queue[k]] else [])
    && OthersSame(a, b, a.queue[k])
    && (b.streams[a.queue[k]].blocked <==> Blocks(o))
  }

  lemma TurnOf(a: App, k: nat, o: Outcome, c: App, b: App)
    requires k < |a.queue| && c.queue == a.queue[k..] && OthersSame(a, c, a.queue[k])
    requires a.queue[k] in a.streams && !c.streams[a.queue[k]].blocked && Turned(c, a.queue[k], o, b)
    ensures TookTurn(a, k, o, b)
  {
    assert a.queue[k..][1..] == a.queue[k + 1..];
  }

  lemma FoundTurn(a: App)
    requires AppInv(a) && !a.closed && FirstUp(a, a.queue) < |a.queue|
    ensures var k := FirstUp(a, a.queue);
      var (c, found) := Next(a);
      && found.Some? && found.value.0 == a.queue[k] && CanSend(a, a.queue[k])
      && c.queue == a.queue[k..] && Distinct(c.queue) && !c.closed
      && OthersSame(a, c, a.queue[k]) && !c.streams[a.queue[k]].blocked
  {
    NextIsFirst(a);
    NextOk(a);
    FirstCanSend(a, a.queue);
    var id := a.queue[FirstUp(a, a.queue)];
    assert Next(a).0.streams[id].(scheduled := false) == Asked(a.streams[id]).(scheduled := false);
  }

  /** The first stream in the queue that can send has had its turn. */
  predicate Turns(a: App, credit: bool, o: Outcome, b: App)
  {
    if Named(a, credit).Some? then TookTurn(a, FirstUp(a, a.queue), o, b)
    else b.queue == (if credit then [] else a.queue) && SameButFlags(a, b)
  }

  lemma TurnPasses(a: App, o: Outcome)
    requires AppInv(a) && !a.closed && FirstUp(a, a.queue) < |a.queue|
    ensures TookTurn(a, FirstUp(a, a.queue), o, Pass(a, true, o))
  {
    FoundTurn(a);
    var (c, found) := Next(a);
    ActedTurns(c, found.value.0, found.value.1, o);
    TurnOf(a, FirstUp(a, a.queue), o, c, Acted(c, found, o));
  }

  lemma NobodysTurn(a: App, credit: bool, o: Outcome)
    requires AppInv(a) && !a.closed && Named(a, credit).None?
    ensures var b := Pass(a, credit, o); b.queue == (if credit then [] else a.queue) && SameButFlags(a, b)
  {
    if credit {
      NextIsFirst(a);
    }
  }

  /**
   * A pass of the packing loop deals with the first stream in the queue that can send: those before it leave the
   * queue, and so does it unless nothing was said about it; having sent, it goes to the end.
   */
  lemma TakesTurns(a: App, credit: bool, o: Outcome)
    requires AppInv(a) && !a.closed
    ensures Turns(a, credit, o, Pass(a, credit, o))
  {
    if Named(a, credit).Some? { TurnPasses(a, o); } else { NobodysTurn(a, credit, o); }
  }

  // --- Blocked, and let go on ---

  /** Whether stream `id` is blocked after the event, given whether it was. */
  predicate Holds(a: App, e: AppEvent, id: nat, was: bool)
  {
    match e
    case Create(x, _) => was && x != id
    case Extend(x) => was && x != id
    case Packing(credit, o) => was || (Named(a, credit) == Some(id) && Blocks(o))
    case _ => was
  }

  /** Whether, by the end of the run, the last word about stream `id` was an answer that blocked it. */
  predicate Held(a: App, events: seq<AppEvent>, id: nat, was: bool)
    requires AppLegal(a, events)
    decreases events
  {
    if events == [] then was else Held(AppStep(a, events[0]), events[1..], id, Holds(a, events[0], id, was))
  }

  lemma ClosedPass(a: App, credit: bool, o: Outcome)
    requires AppInv(a) && a.closed
    ensures Pass(a, credit, o) == a && Named(a, credit).None?
  {
  }

  lemma KeysStay(a: App, credit: bool, o: Outcome)
    requires AppInv(a)
    ensures Pass(a, credit, o).streams.Keys == a.streams.Keys
  {
    if a.closed { ClosedPass(a, credit, o); } else { TakesTurns(a, credit, o); }
  }

  lemma TookHolds(a: App, k: nat, o: Outcome, b: App, id: nat)
    requires TookTurn(a, k, o, b) && CanSend(a, a.queue[k]) && id in a.streams
    ensures id in b.streams && (b.streams[id].blocked <==> a.streams[id].blocked || (a.queue[k] == id && Blocks(o)))
  {
    if a.queue[k] != id {
      assert b.streams[id].(scheduled := false) == a.streams[id].(scheduled := false);
    }
  }

  lemma SameHolds(a: App, b: App, id: nat)
    requires SameButFlags(a, b) && id in a.streams
    ensures id in b.streams && b.streams[id].blocked == a.streams[id].blocked
  {
    assert b.streams[id].(scheduled := false) == a.streams[id].(scheduled := false);
  }

  lemma TurnHolds(a: App, credit: bool, o: Outcome, b: App, id: nat)
    requires Turns(a, credit, o, b) && id in a.streams
    ensures id in b.streams && (b.streams[id].blocked <==> Holds(a, Packing(credit, o), id, a.streams[id].blocked))
  {
    FirstCanSend(a, a.queue);
    if Named(a, credit).Some? { TookHolds(a, FirstUp(a, a.queue), o, b, id); } else { SameHolds(a, b, id); }
  }

  lemma PassHolds(a: App, credit: bool, o: Outcome, id: nat)
    requires AppInv(a) && id in a.streams
    ensures var b := Pass(a, credit, o);
      id in b.streams && (b.streams[id].blocked <==> Holds(a, Packing(credit, o), id, a.streams[id].blocked))
  {
    if a.closed {
      ClosedPass(a, credit, o);
    } else {
      TakesTurns(a, credit, o);
      TurnHolds(a, credit, o, Pass(a, credit, o), id);
    }
  }

  lemma WriteHolds(a: App, x: nat, data: seq<byte>, eof: bool, id: nat)
    requires x in a.streams && id in a.streams
    ensures var b := WriteOn(a, x, data, eof); id in b.streams && b.streams[id].blocked == a.streams[id].blocked
  {
  }

  lemma OtherHolds(a: App, e: AppEvent, id: nat, was: bool)
    requires AppEnabled(a, e) && id in AppStep(a, e).streams && !e.Packing? && !e.StartWriteOn?
    requires id in a.streams ==> was == a.streams[id].blocked
    ensures AppStep(a, e).streams[id].blocked <==> Holds(a, e, id, was)
  {
  }

  lemma StepHolds(a: App, e: AppEvent, id: nat, was: bool)
    requires AppInv(a) && AppEnabled(a, e) && id in AppStep(a, e).streams
    requires id in a.streams ==> was == a.streams[id].blocked
    ensures AppStep(a, e).streams[id].blocked <==> Holds(a, e, id, was)
  {
    match e
    case Packing(credit, o) =>
      KeysStay(a, credit, o);
      PassHolds(a, credit, o, id);
    case StartWriteOn(x, data, eof) =>
      assert id in a.streams;
      WriteHolds(a, x, data, eof, id);
    case _ => OtherHolds(a, e, id, was);
  }

  lemma {:induction false} HeldRun(a: App, events: seq<AppEvent>, id: nat, was: bool)
    requires AppInv(a) && AppLegal(a, events) && id in AppRun(a, events).streams
    requires id in a.streams ==> was == a.streams[id].blocked
    ensures AppRun(a, events).streams[id].blocked <==> Held(a, events, id, was)
    decreases events
  {
    if events != [] {
      var e := events[0];
      var b := AppStep(a, e);
      AppStepOk(a, e);
      if id in b.streams { StepHolds(a, e, id, was); }
      HeldRun(b, events[1..], id, Holds(a, e, id, was));
    }
  }

  /**
   * A stream is blocked exactly if the last word about it was an answer that said so -- its window was used up, or
   * it was not found -- and not the extension of its window.
   */
  lemma BlockedExactly(events: seq<AppEvent>, id: nat)
    requires AppLegal(NO_STREAMS, events) && id in AppRun(NO_STREAMS, events).streams
    ensures AppRun(NO_STREAMS, events).streams[id].blocked <==> Held(NO_STREAMS, events, id, false)
  {
    HeldRun(NO_STREAMS, events, id, false);
  }

  /** A stream whose window reopens is blocked no longer, is otherwise as it was, and waits its turn if it can send. */
  lemma ExtensionLetsGo(events: seq<AppEvent>, id: nat)
    requires AppLegal(NO_STREAMS, events)
    requires var a := AppRun(NO_STREAMS, events); !a.closed && id in a.streams
    ensures var a := AppRun(NO_STREAMS, events);
      var b := AppStep(a, Extend(id));
      && id in b.streams && !b.streams[id].blocked && b.streams[id].tx == a.streams[id].tx
      && (Wants(b.streams[id].tx) ==> multiset(b.queue)[id] == 1)
      && a.queue <= b.queue && (forall x <- a.streams :: x in b.streams && (x != id ==> b.streams[x] == a.streams[x]))
  {
    var a := AppRun(NO_STREAMS, events);
    AppRunOk(NO_STREAMS, events);
    AppStepOk(a, Extend(id));
    var b := AppStep(a, Extend(id));
    assert QueuedRight(b.streams[id], id in b.queue);
    DistinctCount(b.queue, id);
  }

  lemma {:induction false} ClosedRun(a: App, events: seq<AppEvent>)
    requires AppInv(a) && AppLegal(a, events)
    ensures AppRun(a, events).closed <==> a.closed || Close in events
    decreases events
  {
    if events != [] {
      AppStepOk(a, events[0]);
      StepCloses(a, events[0]);
      ClosedRun(AppStep(a, events[0]), events[1..]);
      assert events == [events[0]] + events[1..];
    }
  }

  lemma StepCloses(a: App, e: AppEvent)
    requires AppInv(a) && AppEnabled(a, e)
    ensures AppStep(a, e).closed <==> a.closed || e == Close
  {
    if e.Packing? {
      PassCloses(a, e.credit, e.outcome);
    }
  }

  lemma PassCloses(a: App, credit: bool, o: Outcome)
    requires AppInv(a)
    ensures Pass(a, credit, o).closed == a.closed
  {
    FoundCloses(a, credit);
    var (b, found) := Found(a, credit);
    ActedCloses(b, found, o);
  }

  lemma FoundCloses(a: App, credit: bool)
    requires AppInv(a)
    ensures Found(a, credit).0.closed == a.closed
  {
    NextOk(a);
  }

  lemma ActedCloses(b: App, found: Option<(nat, Offer)>, o: Outcome)
    requires found.Some? ==> found.value.0 in b.streams
    ensures Acted(b, found, o).closed == b.closed
  {
  }

  /** Once the connection has closed, and not before, nothing is queued for good. */
  lemma ClosedExactly(events: seq<AppEvent>)
    requires AppLegal(NO_STREAMS, events)
    ensures var a := AppRun(NO_STREAMS, events); (a.closed <==> Close in events) && (a.closed ==> a.queue == [])
  {
    AppRunOk(NO_STREAMS, events);
    ClosedRun(NO_STREAMS, events);
  }

  /** Stream `id` has come up, and not been erased since, given whether it was there before. */
  predicate There(events: seq<AppEvent>, id: nat, was: bool)
  {
    if events == [] then was
    else There(events[1..], id, if events[0].Create? && events[0].id == id then true else was && events[0] != Erase(id))
  }

  lemma WriteStays(a: App, x: nat, data: seq<byte>, eof: bool)
    requires x in a.streams
    ensures WriteOn(a, x, data, eof).streams.Keys == a.streams.Keys
  {
  }

  lemma StepThere(a: App, e: AppEvent, id: nat)
    requires AppInv(a) && AppEnabled(a, e)
    ensures id in AppStep(a, e).streams <==> (e.Create? && e.id == id) || (id in a.streams && e != Erase(id))
  {
    match e
    case Packing(credit, o) => KeysStay(a, credit, o);
    case StartWriteOn(x, data, eof) => WriteStays(a, x, data, eof);
    case _ =>
  }

  /** A stream is there exactly from when it came up to when it is erased. */
  lemma {:induction false} ThereExactly(a: App, events: seq<AppEvent>, id: nat)
    requires AppInv(a) && AppLegal(a, events)
    ensures id in AppRun(a, events).streams <==> There(events, id, id in a.streams)
    decreases events
  {
    if events != [] {
      AppStepOk(a, events[0]);
      StepThere(a, events[0], id);
      ThereExactly(AppStep(a, events[0]), events[1..], id);
    }
  }

  // --- Each stream for itself ---

  /** What a stream that is alone goes through, if it can. */
  function Does(w: World, e: QuicRuns.Event): World { if Enabled(w, e) then QuicRuns.Step(w, e) else w }

  /** What an answer means for the stream it is about: it is shown 16 entries, and takes what it takes. */
  function Answered(w: World, o: Outcome): World
  {
    match o
    case WriteMore(n, _) => Does(w, Offered(16, n))
    case Done(n) => Does(w, Offered(16, n))
    case StreamShut => Does(Does(w, Offered(16, None)), Abort(ConnectionReset))
    case NotFound => Does(Does(w, Offered(16, None)), Abort(ConnectionReset))
    case _ => Does(w, Offered(16, None))
  }

  /** What an event of the connection means for stream `id`: something if it is about that one, nothing otherwise. */
  function Sees(a: App, e: AppEvent, id: nat, w: World): World
  {
    match e
    case Create(x, mode) => if x == id then Start(mode, Plain) else w
    case StartWriteOn(x, data, eof) => if x == id then Does(w, Write(data, eof)) else w
    case CancelOn(x, token) =>
      if x == id && w.tx.handler.Some? && token == w.tx.token then Does(w, CancelCall(w.tx.handler.value)) else w
    case AckedOn(x, n) => if x == id then Does(w, Acked(n)) else w
    case AbortOn(x, code) => if x == id then Does(w, Abort(code)) else w
    case FailOn(x, code) => if x == id then Does(w, Failed(code)) else w
    case DropWriterOn(x) => if x == id then Does(w, DropWriter(true)) else w
    case Packing(credit, o) => if Named(a, credit) == Some(id) then Answered(w, o) else w
    case _ => w
  }

  function Alone(a: App, events: seq<AppEvent>, id: nat, w: World): World
    requires AppLegal(a, events)
    decreases events
  {
    if events == [] then w else Alone(AppStep(a, events[0]), events[1..], id, Sees(a, events[0], id, w))
  }

  /** Stream `id` of the connection is where it would be alone. */
  predicate Matches(a: App, id: nat, w: World)
  {
    id in a.streams ==>
      a.streams[id].tx == w.tx && a.streams[id].body == w.body && a.streams[id].calls == |w.calls|
  }

  lemma {:induction false} LegalSnoc(w: World, events: seq<QuicRuns.Event>, e: QuicRuns.Event)
    requires QuicRuns.Legal(w, events) && Enabled(QuicRuns.Run(w, events), e)
    ensures QuicRuns.Legal(w, events + [e])
    ensures QuicRuns.Run(w, events + [e]) == QuicRuns.Step(QuicRuns.Run(w, events), e)
    decreases events
  {
    if events == [] {
      assert [e][1..] == [];
    } else {
      LegalSnoc(QuicRuns.Step(w, events[0]), events[1..], e);
      assert (events + [e])[1..] == events[1..] + [e];
    }
  }

  lemma DoesReachable(w: World, e: QuicRuns.Event)
    requires Reachable(w)
    ensures Reachable(Does(w, e))
  {
    if Enabled(w, e) {
      var mode, driver, events :|
        QuicRuns.Legal(Start(mode, driver), events) && w == QuicRuns.Run(Start(mode, driver), events);
      LegalSnoc(Start(mode, driver), events, e);
      assert QuicRuns.Legal(Start(mode, driver), events + [e]);
    }
  }

  lemma StartReachable(mode: Mode)
    ensures Reachable(Start(mode, Plain))
  {
    assert QuicRuns.Legal(Start(mode, Plain), []);
  }

  lemma SeesReachable(a: App, e: AppEvent, id: nat, w: World)
    requires Reachable(w)
    ensures Reachable(Sees(a, e, id, w))
  {
    match e
    case Create(x, mode) => StartReachable(mode);
    case StartWriteOn(x, data, eof) => DoesReachable(w, Write(data, eof));
    case CancelOn(x, token) => if w.tx.handler.Some? { DoesReachable(w, CancelCall(w.tx.handler.value)); }
    case AckedOn(x, n) => DoesReachable(w, Acked(n));
    case AbortOn(x, code) => DoesReachable(w, Abort(code));
    case FailOn(x, code) => DoesReachable(w, Failed(code));
    case DropWriterOn(x) => DoesReachable(w, DropWriter(true));
    case Packing(credit, o) => AnsweredReachable(w, o);
    case _ =>
  }

  lemma AnsweredReachable(w: World, o: Outcome)
    requires Reachable(w)
    ensures Reachable(Answered(w, o))
  {
    match o
    case WriteMore(n, _) => DoesReachable(w, Offered(16, n));
    case Done(n) => DoesReachable(w, Offered(16, n));
    case _ =>
      DoesReachable(w, Offered(16, None));
      DoesReachable(Does(w, Offered(16, None)), Abort(ConnectionReset));
  }

  /** The stream after an answer, given what it was shown. */
  function TurnTx(o: Offer, outcome: Outcome): Tx
  {
    var all := |Gathered(o.tx, o.slices)|;
    match outcome
    case WriteMore(Some(n), _) => PlainWritten(o.tx, Min(n, all), o.fin && n >= all).tx
    case Done(Some(n)) => PlainWritten(o.tx, Min(n, all), o.fin && n >= all).tx
    case StreamShut => AbortWriting(o.tx, ConnectionReset).tx
    case NotFound => AbortWriting(o.tx, ConnectionReset).tx
    case _ => o.tx
  }

  lemma ActedTx(c: App, id: nat, o: Offer, outcome: Outcome)
    requires id in c.streams && c.streams[id].tx == o.tx
    ensures var b := Acted(c, Some((id, o)), outcome);
      && id in b.streams && b.streams[id].tx == TurnTx(o, outcome)
      && b.streams[id].body == c.streams[id].body && b.streams[id].calls == c.streams[id].calls
  {
    var all := |Gathered(o.tx, o.slices)|;
    match outcome
    case WriteMore(Some(n), _) => WrittenAt(c, id, Min(n, all), o.fin && n >= all);
    case Done(Some(n)) => WrittenAt(c, id, Min(n, all), o.fin && n >= all);
    case _ =>
  }

  lemma {:induction false} CompleteLength(calls: seq<Call>, done: seq<Completion>)
    ensures |Complete(calls, done)| == |calls|
    decreases done
  {
    if done != [] {
      var i := done[0].id;
      if i >= |calls| {
        CompleteLength(calls, done[1..]);
      } else {
        CompleteLength(calls[i := calls[i].(outcomes := calls[i].outcomes + [done[0].code])], done[1..]);
      }
    }
  }

  lemma AfterLength(w: World, eff: Effect, body: seq<byte>, handed: seq<byte>, fin: bool)
    ensures |After(w, eff, body, handed, fin).calls| == |w.calls|
  {
    CompleteLength(w.calls, eff.done);
  }

  /** The stream alone, and what it is shown and answered. */
  predicate Went(w: World, tx: Tx, body: seq<byte>, v: World)
  {
    v.tx == tx && v.body == body && |v.calls| == |w.calls|
  }

  lemma OfferedWent(w: World, n: Option<nat>)
    requires w.tx.driver == Plain
    requires var q := PendingData(w.tx, w.tx.sent, 16); q.slices != [] || q.fin
    ensures var q := PendingData(w.tx, w.tx.sent, 16);
      Went(w, TurnTx(q, Done(n)), BodyAfterPending(w.tx, w.body, 16), Does(w, Offered(16, n)))
  {
    var (handed, fin) := Handed(w, 16, n);
    AfterLength(w, OfferEffect(w, 16, n), BodyAfterPending(w.tx, w.body, 16), handed, fin);
  }

  lemma AbortedWent(w: World)
    ensures Went(w, AbortWriting(w.tx, ConnectionReset).tx, w.body, Does(w, Abort(ConnectionReset)))
  {
    AfterLength(w, AbortWriting(w.tx, ConnectionReset), w.body, [], false);
  }

  lemma AnsweredWent(w: World, outcome: Outcome)
    requires w.tx.driver == Plain
    requires var q := PendingData(w.tx, w.tx.sent, 16); q.slices != [] || q.fin
    ensures var q := PendingData(w.tx, w.tx.sent, 16);
      Went(w, TurnTx(q, outcome), BodyAfterPending(w.tx, w.body, 16), Answered(w, outcome))
  {
    OfferedWent(w, None);
    match outcome
    case WriteMore(n, _) => OfferedWent(w, n);
    case Done(n) => OfferedWent(w, n);
    case _ => AbortedWent(Does(w, Offered(16, None)));
  }

  // Each event of its own

  lemma WriteWent(w: World, data: seq<byte>, eof: bool)
    requires Discipline(w.tx, data, eof) && AssertsHold(w.tx, data, eof)
    ensures var v := Does(w, Write(data, eof));
      && v.tx == StartWrite(w.tx, |w.calls|, data, eof).tx && v.body == BodyAfterStart(w.tx, w.body, data, eof)
      && |v.calls| == |w.calls| + 1
  {
    var call := Call(data, eof, BoundToken(w.tx, data, eof), Starts(w.tx, data, eof), []);
    CompleteLength(w.calls + [call], StartWrite(w.tx, |w.calls|, data, eof).done);
  }

  lemma WriteMatches(a: App, id: nat, w: World, data: seq<byte>, eof: bool)
    requires id in a.streams && Matches(a, id, w) && Discipline(a.streams[id].tx, data, eof)
    ensures Matches(WriteOn(a, id, data, eof), id, Does(w, Write(data, eof)))
  {
    if AssertsHold(w.tx, data, eof) { WriteWent(w, data, eof); }
  }

  lemma CancelMatches(a: App, id: nat, w: World, token: nat)
    requires id in a.streams && Matches(a, id, w) && Inv(w)
    ensures Matches(AppStep(a, CancelOn(id, token)), id, Sees(a, CancelOn(id, token), id, w))
  {
    AfterLength(w, Cancel(w.tx, token), BodyAfterCancel(w.tx, w.body, token), [], false);
  }

  /** Events of the stack and of the application that end a stream, or report on it. */
  lemma EventMatches(a: App, id: nat, w: World, e: AppEvent)
    requires id in a.streams && Matches(a, id, w) && AppEnabled(a, e)
    requires (e.AckedOn? || e.AbortOn? || e.FailOn? || e.DropWriterOn?) && e.id == id
    ensures Matches(AppStep(a, e), id, Sees(a, e, id, w))
  {
    match e
    case AckedOn(_, n) => AfterLength(w, Http3Acked(w.tx, n), w.body, [], false);
    case AbortOn(_, code) => AfterLength(w, AbortWriting(w.tx, code), w.body, [], false);
    case FailOn(_, code) => AfterLength(w, Fail(w.tx, code), w.body, [], false);
    case DropWriterOn(_) => AfterLength(w, DeleteWriter(w.tx, true), w.body, [], false);
  }

  lemma PassMatches(a: App, id: nat, w: World, credit: bool, o: Outcome)
    requires AppInv(a) && !a.closed && Matches(a, id, w) && Named(a, credit) == Some(id) && id in a.streams
    ensures Matches(Pass(a, credit, o), id, Answered(w, o))
  {
    NextIsFirst(a);
    FirstCanSend(a, a.queue);
    var (c, found) := Next(a);
    assert c.streams[id].(scheduled := false) == Asked(a.streams[id]).(scheduled := false);
    ActedTx(c, id, found.value.1, o);
    AskedOk(a.streams[id]);
    AnsweredWent(w, o);
  }

  lemma OtherPass(a: App, id: nat, w: World, credit: bool, o: Outcome)
    requires AppInv(a) && !a.closed && Matches(a, id, w) && Named(a, credit) != Some(id)
    ensures Matches(Pass(a, credit, o), id, w)
  {
    var b := Pass(a, credit, o);
    TakesTurns(a, credit, o);
    if id in b.streams {
      assert b.streams[id].(scheduled := false) == a.streams[id].(scheduled := false);
    }
  }

  /** An event that is about another stream. */
  lemma OtherMatches(a: App, id: nat, w: World, e: AppEvent)
    requires Matches(a, id, w) && AppEnabled(a, e) && !e.Packing?
    requires e.Erase? || e.Extend? || e.Close? || e.id != id
    ensures Matches(AppStep(a, e), id, w)
  {
  }

  lemma PackingMatches(a: App, id: nat, w: World, credit: bool, o: Outcome)
    requires AppInv(a) && Matches(a, id, w)
    ensures Matches(Pass(a, credit, o), id, if Named(a, credit) == Some(id) then Answered(w, o) else w)
  {
    if a.closed {
      ClosedPass(a, credit, o);
    } else if Named(a, credit) == Some(id) {
      FirstCanSend(a, a.queue);
      PassMatches(a, id, w, credit, o);
    } else {
      OtherPass(a, id, w, credit, o);
    }
  }

  lemma SeesMatches(a: App, e: AppEvent, id: nat, w: World)
    requires AppInv(a) && AppEnabled(a, e) && Inv(w) && Matches(a, id, w)
    ensures Matches(AppStep(a, e), id, Sees(a, e, id, w))
  {
    if e.Packing? {
      PackingMatches(a, id, w, e.credit, e.outcome);
    } else if e.Erase? || e.Extend? || e.Close? || e.id != id {
      OtherMatches(a, id, w, e);
    } else {
      OwnMatches(a, e, id, w);
    }
  }

  lemma OwnMatches(a: App, e: AppEvent, id: nat, w: World)
    requires AppEnabled(a, e) && Inv(w) && Matches(a, id, w)
    requires !e.Packing? && !e.Erase? && !e.Extend? && !e.Close? && e.id == id
    ensures Matches(AppStep(a, e), id, Sees(a, e, id, w))
  {
    match e
    case Create(_, mode) =>
    case StartWriteOn(_, data, eof) => WriteMatches(a, id, w, data, eof);
    case CancelOn(_, token) => CancelMatches(a, id, w, token);
    case _ => EventMatches(a, id, w, e);
  }

  lemma {:induction false} AloneRun(a: App, events: seq<AppEvent>, id: nat, w: World)
    requires AppInv(a) && AppLegal(a, events) && Reachable(w) && Matches(a, id, w)
    ensures Reachable(Alone(a, events, id, w)) && Matches(AppRun(a, events), id, Alone(a, events, id, w))
    decreases events
  {
    if events != [] {
      AppStepOk(a, events[0]);
      ReachableInv(w);
      SeesMatches(a, events[0], id, w);
      SeesReachable(a, events[0], id, w);
      AloneRun(AppStep(a, events[0]), events[1..], id, Sees(a, events[0], id, w));
    }
  }

  /**
   * Sharing a connection changes nothing for a stream: whatever happens to the others, it is where the events that
   * are about it would have brought it alone, and all that holds of streams that are alone holds of it.
   */
  lemma StreamsRunAlone(events: seq<AppEvent>, id: nat)
    requires AppLegal(NO_STREAMS, events)
    ensures var w := Alone(NO_STREAMS, events, id, Start(ZeroCopy, Plain));
      Reachable(w) && Matches(AppRun(NO_STREAMS, events), id, w)
  {
    StartReachable(ZeroCopy);
    AloneRun(NO_STREAMS, events, id, Start(ZeroCopy, Plain));
  }
}
