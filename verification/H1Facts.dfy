/**
 * The facts about an HTTP/1.1 client session, each by all that can make it so: what becomes of a request and of a
 * response, when sending and receiving have failed, what every call is answered, and what a shutdown finds.
 */
module H1Facts {
  import opened Bytes
  import opened H1Client
  import opened H1ClientInvariant
  import opened H1ClientTheorems

  // --- Requests ---

  /** A write of request `k` begins: there is something to write, or to end, and nothing in the way. */
  predicate Begins(w: World, e: Event, k: nat)
    requires k < |w.s.requests|
  {
    var q := w.s.requests[k];
    e.Write? && e.k == k && (!e.empty || e.eof) && q.attached && !q.ended && !q.cancelled
  }

  /** A read for the response to `k` begins: it has not been asked for, and is the next one to read. */
  predicate AsksFor(w: World, e: Event, k: nat)
    requires k < |w.s.requests|
  {
    var q := w.s.requests[k];
    e == GetResponse(k) && q.attached && !q.requested && !w.s.receiveFailed && w.s.responsesRead == k
  }

  /** That read is cancelled before it has taken a byte: the response can be asked for again. */
  predicate GivenUp(w: World, e: Event, r: nat)
    requires r < |w.s.readers|
  {
    e.ReadEnds? && e.r == r && e.how == Cancelled && w.s.readers[r].message.None?
  }

  predicate ShutsDown(w: World, e: Event) { e == Shutdown && w.s.phase == Open }

  /** Request `k` before and after an event. */
  predicate RequestGoes(w: World, e: Event, k: nat, v: World)
    requires k < |w.s.requests|
  {
    k < |v.s.requests| &&
    var q, p := w.s.requests[k], v.s.requests[k];
    && (p.released <==> q.released || e == ReleaseRequest(k))
    && (p.cancelled <==> q.cancelled || e == WriteEnds(k, false))
    && (p.ended <==> q.ended || (e == WriteEnds(k, true) && q.ends))
    && (p.writing <==> (q.writing && !(e.WriteEnds? && e.k == k)) || Begins(w, e, k))
    && (p.ends <==> if Begins(w, e, k) then e.eof else q.ends)
    && (p.attached <==> q.attached && e != ReleaseRequest(k) && !ShutsDown(w, e))
    && (p.requested <==>
          (q.requested && !(e.ReadEnds? && e.r < |w.s.readers| && w.s.readers[e.r].request == k && GivenUp(w, e, e.r)))
          || AsksFor(w, e, k))
  }

  lemma RequestReads(w: World, r: nat, how: ReadEnd, done: bool, k: nat)
    requires Enabled(w, ReadEnds(r, how, done)) && k < |w.s.requests|
    ensures RequestGoes(w, ReadEnds(r, how, done), k, StepReadEnds(w, r, how, done))
  {
    RequestsAfterRead(w, r, how, done);
    RequestRead(w, r, how, done, k, StepReadEnds(w, r, how, done));
  }

  /** Only a read that was given up changes anything about requests. */
  predicate AskedAgain(w: World, r: nat, e: Event, v: World)
    requires r < |w.s.readers|
  {
    var k := w.s.readers[r].request;
    v.s.requests == if GivenUp(w, e, r) && k < |w.s.requests|
      then w.s.requests[k := w.s.requests[k].(requested := false)] else w.s.requests
  }

  lemma RequestsAfterRead(w: World, r: nat, how: ReadEnd, done: bool)
    requires Enabled(w, ReadEnds(r, how, done))
    ensures AskedAgain(w, r, ReadEnds(r, how, done), StepReadEnds(w, r, how, done))
  {
  }

  lemma RequestRead(w: World, r: nat, how: ReadEnd, done: bool, k: nat, v: World)
    requires Enabled(w, ReadEnds(r, how, done)) && k < |w.s.requests| && AskedAgain(w, r, ReadEnds(r, how, done), v)
    ensures RequestGoes(w, ReadEnds(r, how, done), k, v)
  {
  }

  lemma RequestWrites(w: World, j: nat, ok: bool, k: nat)
    requires j < |w.s.requests| && k < |w.s.requests|
    ensures RequestGoes(w, WriteEnds(j, ok), k, StepWriteEnds(w, j, ok))
  {
    var v := StepWriteEnds(w, j, ok);
    assert v.s.requests == w.s.requests[j := WriteOver(w.s.requests[j], ok)];
    RequestWritten(w, j, ok, k, v);
  }

  lemma RequestWritten(w: World, j: nat, ok: bool, k: nat, v: World)
    requires j < |w.s.requests| && k < |w.s.requests|
    requires v.s.requests == w.s.requests[j := WriteOver(w.s.requests[j], ok)]
    ensures RequestGoes(w, WriteEnds(j, ok), k, v)
  {
  }

  lemma RequestWrite(w: World, j: nat, empty: bool, eof: bool, k: nat)
    requires j < |w.s.requests| && k < |w.s.requests|
    ensures RequestGoes(w, Write(j, empty, eof), k, StepWrite(w, j, empty, eof))
  {
    var v := StepWrite(w, j, empty, eof);
    assert v.s.requests == if Begins(w, Write(j, empty, eof), j)
      then w.s.requests[j := w.s.requests[j].(writing := true, ends := eof)] else w.s.requests;
    RequestBegun(w, j, empty, eof, k, v);
  }

  lemma RequestBegun(w: World, j: nat, empty: bool, eof: bool, k: nat, v: World)
    requires j < |w.s.requests| && k < |w.s.requests|
    requires v.s.requests == if Begins(w, Write(j, empty, eof), j)
      then w.s.requests[j := w.s.requests[j].(writing := true, ends := eof)] else w.s.requests
    ensures RequestGoes(w, Write(j, empty, eof), k, v)
  {
  }

  lemma RequestAsks(w: World, j: nat, k: nat)
    requires j < |w.s.requests| && k < |w.s.requests|
    ensures RequestGoes(w, GetResponse(j), k, StepGetResponse(w, j))
  {
    var v := StepGetResponse(w, j);
    assert v.s.requests == if AsksFor(w, GetResponse(j), j)
      then w.s.requests[j := w.s.requests[j].(requested := true)] else w.s.requests;
    RequestAsked(w, j, k, v);
  }

  lemma RequestAsked(w: World, j: nat, k: nat, v: World)
    requires j < |w.s.requests| && k < |w.s.requests|
    requires v.s.requests == if AsksFor(w, GetResponse(j), j)
      then w.s.requests[j := w.s.requests[j].(requested := true)] else w.s.requests
    ensures RequestGoes(w, GetResponse(j), k, v)
  {
  }

  lemma RequestStays(w: World, e: Event, k: nat)
    requires Enabled(w, e) && k < |w.s.requests|
    requires e.Submit? || e.Sends? || e.Takes? || e.ReadSome? || e.Resume?
    ensures RequestGoes(w, e, k, Step(w, e))
  {
    assert Step(w, e).s.requests[k] == w.s.requests[k];
  }

  lemma RequestReleased(w: World, j: nat, k: nat)
    requires j < |w.s.requests| && k < |w.s.requests|
    ensures RequestGoes(w, ReleaseRequest(j), k, StepReleaseRequest(w, j))
  {
  }

  lemma RequestReader(w: World, r: nat, k: nat)
    requires r < |w.s.readers| && k < |w.s.requests|
    ensures RequestGoes(w, ReleaseReader(r), k, StepReleaseReader(w, r))
  {
  }

  lemma RequestShut(w: World, k: nat)
    requires k < |w.s.requests|
    ensures RequestGoes(w, Shutdown, k, StepShutdown(w))
  {
  }

  /** What becomes of a request, and all that can bring it about. */
  lemma WhatBecomesOfRequests(w: World, e: Event, k: nat)
    requires Enabled(w, e) && k < |w.s.requests|
    ensures RequestGoes(w, e, k, Step(w, e))
  {
    match e
    case WriteEnds(j, ok) => RequestWrites(w, j, ok, k);
    case ReadEnds(r, how, done) => RequestReads(w, r, how, done, k);
    case ReleaseRequest(j) => RequestReleased(w, j, k);
    case ReleaseReader(r) => RequestReader(w, r, k);
    case Shutdown => RequestShut(w, k);
    case Write(j, empty, eof) => RequestWrite(w, j, empty, eof, k);
    case GetResponse(j) => RequestAsks(w, j, k);
    case _ => RequestStays(w, e, k);
  }

  // --- Responses ---

  /** Reader `r` before and after an event; `taken` messages are off the connection. */
  predicate ReaderGoes(w: World, e: Event, r: nat, v: World)
    requires r < |w.s.readers|
  {
    r < |v.s.readers| &&
    var x, y := w.s.readers[r], v.s.readers[r];
    var ends := e.ReadEnds? && e.r == r;
    && y.request == x.request
    && y.message == (if e == Takes(r) && x.message.None? then Some(w.wire.taken) else x.message)
    && (y.reading <==> (x.reading && !ends) || (e == ReadSome(r, false) && !x.done && x.attached))
    && (y.done <==> if ends then e.done else x.done)
    && (y.released <==> x.released || e == ReleaseReader(r) || GivenUp(w, e, r))
    && (y.attached <==> x.attached && e != ReleaseReader(r) && !GivenUp(w, e, r) && !ShutsDown(w, e))
    && (y.finished <==>
          x.finished || GivenUp(w, e, r) || (x.attached && (e == ReleaseReader(r) || (ends && e.done))))
  }

  lemma ReaderReads(w: World, j: nat, how: ReadEnd, done: bool, r: nat)
    requires Enabled(w, ReadEnds(j, how, done)) && r < |w.s.readers|
    ensures ReaderGoes(w, ReadEnds(j, how, done), r, StepReadEnds(w, j, how, done))
  {
  }

  lemma ReaderWrites(w: World, k: nat, ok: bool, r: nat)
    requires k < |w.s.requests| && r < |w.s.readers|
    ensures ReaderGoes(w, WriteEnds(k, ok), r, StepWriteEnds(w, k, ok))
  {
  }

  lemma ReaderReleased(w: World, j: nat, r: nat)
    requires j < |w.s.readers| && r < |w.s.readers|
    ensures ReaderGoes(w, ReleaseReader(j), r, StepReleaseReader(w, j))
  {
    var v := StepReleaseReader(w, j);
    var x := w.s.readers[j];
    var y := x.(finished := x.finished || x.attached, attached := false, released := true);
    assert v.s.readers == w.s.readers[j := y];
    ReaderLetGo(w, j, r, v);
  }

  lemma ReaderLetGo(w: World, j: nat, r: nat, v: World)
    requires j < |w.s.readers| && r < |w.s.readers|
    requires var x := w.s.readers[j];
      v.s.readers == w.s.readers[j := x.(finished := x.finished || x.attached, attached := false, released := true)]
    ensures ReaderGoes(w, ReleaseReader(j), r, v)
  {
  }

  lemma ReaderRequest(w: World, k: nat, r: nat)
    requires k < |w.s.requests| && r < |w.s.readers|
    ensures ReaderGoes(w, ReleaseRequest(k), r, StepReleaseRequest(w, k))
  {
  }

  lemma ReaderShut(w: World, r: nat)
    requires r < |w.s.readers|
    ensures ReaderGoes(w, Shutdown, r, StepShutdown(w))
  {
  }

  lemma ReaderTakes(w: World, j: nat, r: nat)
    requires j < |w.s.readers| && r < |w.s.readers|
    ensures ReaderGoes(w, Takes(j), r, StepTakes(w, j))
  {
  }

  lemma ReaderReadsOn(w: World, j: nat, empty: bool, r: nat)
    requires j < |w.s.readers| && r < |w.s.readers|
    ensures ReaderGoes(w, ReadSome(j, empty), r, StepReadSome(w, j, empty))
  {
  }

  lemma ReaderStays(w: World, e: Event, r: nat)
    requires Enabled(w, e) && r < |w.s.readers|
    requires e.Submit? || e.Write? || e.Sends? || e.GetResponse? || e.Resume?
    ensures ReaderGoes(w, e, r, Step(w, e))
  {
    assert Step(w, e).s.readers[r] == w.s.readers[r];
  }

  /** What becomes of a response, and all that can bring it about. */
  lemma WhatBecomesOfResponses(w: World, e: Event, r: nat)
    requires Enabled(w, e) && r < |w.s.readers|
    ensures ReaderGoes(w, e, r, Step(w, e))
  {
    match e
    case WriteEnds(k, ok) => ReaderWrites(w, k, ok, r);
    case ReadEnds(j, how, done) => ReaderReads(w, j, how, done, r);
    case ReleaseRequest(k) => ReaderRequest(w, k, r);
    case ReleaseReader(j) => ReaderReleased(w, j, r);
    case Shutdown => ReaderShut(w, r);
    case Takes(j) => ReaderTakes(w, j, r);
    case ReadSome(j, empty) => ReaderReadsOn(w, j, empty, r);
    case _ => ReaderStays(w, e, r);
  }

  // --- The session ---

  /** A write of it failed, or it went away before it was sent. */
  predicate HasFailed(q: Request) { q.cancelled || (q.released && !q.ended) }

  predicate SomeFailed(s: Session)
  {
    exists k :: 0 <= k < |s.requests| && HasFailed(s.requests[k])
  }

  /** Until a shutdown, requests and responses are tied to their session exactly until they are let go of. */
  predicate RequestTied(q: Request, open: bool)
  {
    (q.writing ==> !q.released) && (open ==> (q.attached <==> !q.released))
  }

  predicate Ties(s: Session)
  {
    && (forall k :: 0 <= k < |s.requests| ==> RequestTied(s.requests[k], s.phase == Open))
    && (s.phase == Open ==> forall r :: 0 <= r < |s.readers| ==> (s.readers[r].attached <==> !s.readers[r].released))
  }

  /** What a step adds. */
  predicate Grows(w: World, e: Event, v: World)
  {
    && |w.s.requests| <= |v.s.requests| <= |w.s.requests| + 1 && |w.s.readers| <= |v.s.readers| <= |w.s.readers| + 1
    && (|v.s.requests| > |w.s.requests| ==>
          e.Submit? && v.s.requests[|w.s.requests|] == Request(true, false, false, true, !e.hasBody, false, false)
          && !w.s.sendFailed)
    && (|v.s.readers| > |w.s.readers| ==>
          e.GetResponse? && v.s.readers[|w.s.readers|] == Reader(e.k, true, false, false, true, None, false))
    && v.s.phase == (if ShutsDown(w, e) then (if w.s.pending == 0 then Closed else Waiting)
                     else if e == Resume then Closed else w.s.phase)
    && (ShutsDown(w, e) || v.s.intact == w.s.intact)
  }

  lemma StepGrows(w: World, e: Event)
    requires Enabled(w, e)
    ensures Grows(w, e, Step(w, e))
  {
    match e
    case WriteEnds(k, ok) => WriteEndsGrows(w, k, ok);
    case ReadEnds(r, how, done) => ReadEndsGrows(w, r, how, done);
    case ReleaseRequest(k) => ReleaseRequestGrows(w, k);
    case ReleaseReader(r) => ReleaseReaderGrows(w, r);
    case _ =>
  }

  lemma WriteEndsGrows(w: World, k: nat, ok: bool)
    requires k < |w.s.requests|
    ensures Grows(w, WriteEnds(k, ok), StepWriteEnds(w, k, ok))
  {
  }

  lemma ReadEndsGrows(w: World, r: nat, how: ReadEnd, done: bool)
    requires Enabled(w, ReadEnds(r, how, done))
    ensures Grows(w, ReadEnds(r, how, done), StepReadEnds(w, r, how, done))
  {
  }

  lemma ReleaseRequestGrows(w: World, k: nat)
    requires k < |w.s.requests|
    ensures Grows(w, ReleaseRequest(k), StepReleaseRequest(w, k))
  {
  }

  lemma ReleaseReaderGrows(w: World, r: nat)
    requires r < |w.s.readers|
    ensures Grows(w, ReleaseReader(r), StepReleaseReader(w, r))
  {
  }

  lemma RequestStaysTied(w: World, e: Event, k: nat, v: World)
    requires Enabled(w, e) && Grows(w, e, v) && k < |w.s.requests| && RequestGoes(w, e, k, v)
    requires RequestTied(w.s.requests[k], w.s.phase == Open)
    ensures RequestTied(v.s.requests[k], v.s.phase == Open)
  {
  }

  lemma ReaderStaysTied(w: World, e: Event, r: nat, v: World)
    requires Grows(w, e, v) && r < |w.s.readers| && ReaderGoes(w, e, r, v) && v.s.phase == Open
    requires w.s.phase == Open ==> (w.s.readers[r].attached <==> !w.s.readers[r].released)
    ensures v.s.readers[r].attached <==> !v.s.readers[r].released
  {
  }

  lemma StepTies(w: World, e: Event)
    requires Ties(w.s) && Enabled(w, e)
    ensures Ties(Step(w, e).s)
  {
    var v := Step(w, e);
    StepGrows(w, e);
    forall k | 0 <= k < |v.s.requests| ensures RequestTied(v.s.requests[k], v.s.phase == Open) {
      if k < |w.s.requests| {
        WhatBecomesOfRequests(w, e, k);
        RequestStaysTied(w, e, k, v);
      }
    }
    forall r | 0 <= r < |v.s.readers| && v.s.phase == Open ensures v.s.readers[r].attached <==> !v.s.readers[r].released
    {
      if r < |w.s.readers| {
        WhatBecomesOfResponses(w, e, r);
        ReaderStaysTied(w, e, r, v);
      }
    }
  }

  /** What makes sending fail: a failed write, a request that goes away half sent, or a shutdown. */
  predicate FailsSending(w: World, e: Event)
  {
    || e == Shutdown
    || (e.WriteEnds? && !e.ok && e.k < |w.s.requests| && w.s.requests[e.k].attached && !w.s.requests[e.k].ended)
    || (e.ReleaseRequest? && e.k < |w.s.requests| && w.s.requests[e.k].attached
        && !w.s.requests[e.k].ended && !w.s.requests[e.k].cancelled)
  }

  lemma WhatFailsSending(w: World, e: Event)
    requires Inv(w) && Enabled(w, e)
    ensures Step(w, e).s.sendFailed <==> w.s.sendFailed || FailsSending(w, e)
  {
    match e
    case WriteEnds(k, ok) => FailsByWrite(w, k, ok);
    case ReleaseRequest(k) => FailsByRelease(w, k);
    case ReadEnds(r, how, done) => ReadNeverFails(w, r, how, done);
    case _ => NeverFails(w, e);
  }

  lemma ReadNeverFails(w: World, r: nat, how: ReadEnd, done: bool)
    requires Enabled(w, ReadEnds(r, how, done))
    ensures StepReadEnds(w, r, how, done).s.sendFailed == w.s.sendFailed
  {
  }

  lemma NeverFails(w: World, e: Event)
    requires Inv(w) && Enabled(w, e) && !e.WriteEnds? && !e.ReleaseRequest? && !e.ReadEnds?
    ensures Step(w, e).s.sendFailed <==> w.s.sendFailed || e == Shutdown
  {
  }

  lemma FailsByWrite(w: World, k: nat, ok: bool)
    requires Inv(w) && Enabled(w, WriteEnds(k, ok))
    ensures StepWriteEnds(w, k, ok).s.sendFailed <==> w.s.sendFailed || FailsSending(w, WriteEnds(k, ok))
  {
  }

  lemma FailsByRelease(w: World, k: nat)
    requires Inv(w) && Enabled(w, ReleaseRequest(k))
    ensures StepReleaseRequest(w, k).s.sendFailed <==> w.s.sendFailed || FailsSending(w, ReleaseRequest(k))
  {
  }

  predicate Blamed(s: Session) { s.phase == Open && s.sendFailed ==> SomeFailed(s) }

  lemma FailureStays(w: World, e: Event, k: nat, v: World)
    requires Enabled(w, e) && k < |w.s.requests| && RequestGoes(w, e, k, v)
    requires RequestTied(w.s.requests[k], w.s.phase == Open) && HasFailed(w.s.requests[k])
    ensures HasFailed(v.s.requests[k])
  {
  }

  lemma FailureShows(w: World, e: Event, k: nat, v: World)
    requires k < |w.s.requests| && RequestGoes(w, e, k, v) && Inv(w) && Enabled(w, e)
    requires e == WriteEnds(k, false) || (e == ReleaseRequest(k) && !w.s.requests[k].ended)
    ensures HasFailed(v.s.requests[k])
  {
  }

  lemma StepBlamed(w: World, e: Event)
    requires Inv(w) && Ties(w.s) && Blamed(w.s) && Enabled(w, e)
    ensures Blamed(Step(w, e).s)
  {
    var v := Step(w, e);
    StepGrows(w, e);
    WhatFailsSending(w, e);
    if v.s.phase == Open && v.s.sendFailed {
      var k;
      if w.s.sendFailed {
        k :| 0 <= k < |w.s.requests| && HasFailed(w.s.requests[k]);
        WhatBecomesOfRequests(w, e, k);
        FailureStays(w, e, k, v);
      } else {
        k := e.k;
        WhatBecomesOfRequests(w, e, k);
        FailureShows(w, e, k, v);
      }
      assert HasFailed(v.s.requests[k]);
    }
  }

  lemma {:induction false} RunFacts(w: World, events: seq<Event>)
    requires Inv(w) && Ties(w.s) && Blamed(w.s) && Legal(w, events)
    ensures Inv(Run(w, events)) && Ties(Run(w, events).s) && Blamed(Run(w, events).s)
    decreases |events|
  {
    if events != [] {
      StepInv(w, events[0]);
      StepTies(w, events[0]);
      StepBlamed(w, events[0]);
      RunFacts(Step(w, events[0]), events[1..]);
    }
  }

  lemma ReachableFacts(w: World)
    requires Reachable(w)
    ensures Inv(w) && Ties(w.s) && Blamed(w.s)
  {
    var events: seq<Event> :| Legal(START, events) && Run(START, events) == w;
    StartInv();
    RunFacts(START, events);
  }

  /** Sending has failed exactly if a request has, or the session was shut down. */
  lemma FailedExactly(w: World)
    requires Reachable(w)
    ensures w.s.sendFailed <==> w.s.phase != Open || SomeFailed(w.s)
  {
    ReachableFacts(w);
    if w.s.phase == Open && SomeFailed(w.s) {
      var k :| 0 <= k < |w.s.requests| && HasFailed(w.s.requests[k]);
      assert RequestTied(w.s.requests[k], true);
    }
  }

  // --- Shutting down ---

  /**
   * The verdict of a shutdown: the session is intact exactly if no request has failed and no write is in progress,
   * and it waits exactly if something is still on the stream.
   */
  lemma VerdictIs(w: World)
    requires Reachable(w) && w.s.phase == Open
    ensures var v := Step(w, Shutdown);
      && (v.s.intact <==> !SomeFailed(w.s) && w.wire.writer.None?)
      && v.s.phase == if w.wire.writer.None? && !Reads(w) then Closed else Waiting
  {
    ReachableFacts(w);
    FailedExactly(w);
  }

  lemma VerdictKept(w: World, e: Event)
    requires Enabled(w, e) && w.s.phase != Open
    ensures Step(w, e).s.intact == w.s.intact && Step(w, e).s.phase != Open
  {
    StepGrows(w, e);
  }

  /** Whatever happens later, it stands. */
  lemma {:induction false} VerdictStands(w: World, events: seq<Event>)
    requires Legal(w, events) && w.s.phase != Open
    ensures Run(w, events).s.intact == w.s.intact && Run(w, events).s.phase != Open
    decreases |events|
  {
    if events != [] {
      VerdictKept(w, events[0]);
      VerdictStands(Step(w, events[0]), events[1..]);
    }
  }

  // --- What calls are answered ---

  /** Every earlier request has been sent to its end. */
  predicate AllSent(s: Session) { forall k :: 0 <= k < |s.requests| ==> s.requests[k].ended }

  /** A request may begin if nothing has failed and all before it have been sent; else it has to wait, or never may. */
  lemma SubmitTold(w: World, hasBody: bool)
    requires Reachable(w)
    ensures SubmitAnswer(w.s) ==
      if w.s.phase != Open || SomeFailed(w.s) then Aborted else if AllSent(w.s) then Begun else WouldBlock
    ensures var v := Step(w, Submit(hasBody));
      if SubmitAnswer(w.s) != Begun then v == w
      else
        var q := Request(true, false, false, true, !hasBody, false, false);
        v.s.requests == w.s.requests + [q] && v.wire == w.wire.(writer := Some(|w.s.requests|))
  {
    ReachableFacts(w);
    FailedExactly(w);
    if w.s.phase == Open && !SomeFailed(w.s) && w.s.sending.None? && |w.s.requests| > 0 {
      var k := |w.s.requests| - 1;
      assert RequestTied(w.s.requests[k], true) && !HasFailed(w.s.requests[k]);
    }
  }

  /** Writes to a request: nothing is no write, past the end only another end is none, and then what has failed. */
  lemma WriteTold(w: World, k: nat, empty: bool, eof: bool)
    requires Reachable(w) && Enabled(w, Write(k, empty, eof))
    ensures var q := w.s.requests[k];
      var told := WriteAnswer(q, empty, eof);
      && told == (if empty && (!eof || q.ended) then Fine
                  else if q.ended then BrokenPipe
                  else if w.s.phase != Open then Aborted
                  else if q.cancelled then Canceled
                  else Begun)
      && (told != Begun ==> Step(w, Write(k, empty, eof)) == w)
      && (told == Begun ==> Step(w, Write(k, empty, eof)).wire == w.wire.(writer := Some(k)) && w.wire.writer.None?)
  {
    ReachableFacts(w);
    assert RequestTied(w.s.requests[k], w.s.phase == Open);
  }

  /** A response may be asked for once, of an open session that can still receive, when it is the next on the wire. */
  lemma GetResponseTold(w: World, k: nat)
    requires Reachable(w) && Enabled(w, GetResponse(k))
    ensures GetResponseAnswer(w.s, k) ==
      if w.s.requests[k].requested then AlreadyStarted
      else if w.s.phase != Open || w.s.receiveFailed then Aborted
      else if w.wire.taken == k then Begun else WouldBlock
    ensures GetResponseAnswer(w.s, k) != Begun ==> Step(w, GetResponse(k)) == w
    ensures var r := |w.s.readers|;
      GetResponseAnswer(w.s, k) == Begun ==>
        && |Step(w, GetResponse(k)).s.readers| == r + 1 && Step(w, GetResponse(k)).wire == w.wire.(current := Some(r))
        && Step(w, GetResponse(k)).s.readers[r] == Reader(k, true, false, false, true, None, false)
  {
    ReachableFacts(w);
    assert RequestTied(w.s.requests[k], w.s.phase == Open);
  }

  /** A read for nothing is none; past the end there is the end; and of a session that is gone, what was missed. */
  lemma ReadSomeTold(w: World, r: nat, empty: bool)
    requires Reachable(w) && Enabled(w, ReadSome(r, empty))
    ensures ReadSomeAnswer(w.s.readers[r], empty) ==
      if empty then Fine else if w.s.readers[r].done then Eof else if w.s.phase != Open then Partial else Begun
    ensures ReadSomeAnswer(w.s.readers[r], empty) != Begun ==> Step(w, ReadSome(r, empty)) == w
  {
    ReachableFacts(w);
    assert PhaseInv(w.s);
  }

  // --- Receiving ---

  /** What makes receiving fail: a response that is given up half read, or never asked for, or a shutdown. */
  predicate FailsReceiving(w: World, e: Event)
  {
    || e == Shutdown
    || (e.ReleaseReader? && e.r < |w.s.readers| && w.s.readers[e.r].attached && !w.s.readers[e.r].done)
    || (e.ReleaseRequest? && e.k < |w.s.requests| && w.s.requests[e.k].attached && !w.s.requests[e.k].requested)
  }

  lemma WhatFailsReceiving(w: World, e: Event)
    requires Inv(w) && Enabled(w, e)
    ensures Step(w, e).s.receiveFailed <==> w.s.receiveFailed || FailsReceiving(w, e)
  {
    match e
    case ReadEnds(r, how, done) => ReadNeverLoses(w, r, how, done);
    case WriteEnds(k, ok) => WriteNeverLoses(w, k, ok);
    case ReleaseReader(r) => LosesByReader(w, r);
    case _ => NeverLoses(w, e);
  }

  lemma ReadNeverLoses(w: World, r: nat, how: ReadEnd, done: bool)
    requires Enabled(w, ReadEnds(r, how, done))
    ensures StepReadEnds(w, r, how, done).s.receiveFailed == w.s.receiveFailed
  {
  }

  lemma WriteNeverLoses(w: World, k: nat, ok: bool)
    requires k < |w.s.requests|
    ensures StepWriteEnds(w, k, ok).s.receiveFailed == w.s.receiveFailed
  {
  }

  lemma LosesByReader(w: World, r: nat)
    requires Inv(w) && Enabled(w, ReleaseReader(r))
    ensures StepReleaseReader(w, r).s.receiveFailed <==> w.s.receiveFailed || FailsReceiving(w, ReleaseReader(r))
  {
  }

  lemma NeverLoses(w: World, e: Event)
    requires Inv(w) && Enabled(w, e) && !e.ReadEnds? && !e.WriteEnds? && !e.ReleaseReader?
    ensures Step(w, e).s.receiveFailed <==> w.s.receiveFailed || FailsReceiving(w, e)
  {
  }

  /** What a bystander sees: bytes and messages one at a time, and who writes. */
  predicate Seen(w: World, e: Event, v: World)
  {
    && v.wire.sent == w.wire.sent + (if e.Sends? then [e.k] else [])
    && v.wire.taken == w.wire.taken + (if e.ReadEnds? && e.done then 1 else 0)
    && (v.wire.writer.Some? <==>
          (w.wire.writer.Some? && !e.WriteEnds?)
          || (e.Submit? && SubmitAnswer(w.s) == Begun) || (e.Write? && e.k < |w.s.requests| && Begins(w, e, e.k)))
  }

  lemma WhatIsSeen(w: World, e: Event)
    requires Enabled(w, e)
    ensures Seen(w, e, Step(w, e))
  {
    match e
    case ReadEnds(r, how, done) => ReadSeen(w, r, how, done);
    case ReleaseReader(r) => ReleaseSeen(w, r);
    case _ => OtherSeen(w, e);
  }

  lemma ReadSeen(w: World, r: nat, how: ReadEnd, done: bool)
    requires Enabled(w, ReadEnds(r, how, done))
    ensures Seen(w, ReadEnds(r, how, done), StepReadEnds(w, r, how, done))
  {
    assert w.wire.sent + [] == w.wire.sent;
  }

  lemma ReleaseSeen(w: World, r: nat)
    requires r < |w.s.readers|
    ensures Seen(w, ReleaseReader(r), StepReleaseReader(w, r))
  {
    assert w.wire.sent + [] == w.wire.sent;
  }

  lemma OtherSeen(w: World, e: Event)
    requires Enabled(w, e) && !e.ReadEnds? && !e.ReleaseReader?
    ensures Seen(w, e, Step(w, e))
  {
    assert w.wire.sent + [] == w.wire.sent;
  }

}
