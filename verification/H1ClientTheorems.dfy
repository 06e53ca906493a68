/** What holds on every run of an HTTP/1.1 client session. */
module H1ClientTheorems {
  import opened Bytes
  import opened H1Client
  import opened H1ClientInvariant

  predicate Legal(w: World, events: seq<Event>)
    decreases |events|
  {
    events == [] || (Enabled(w, events[0]) && Legal(Step(w, events[0]), events[1..]))
  }

  function Run(w: World, events: seq<Event>): World
    requires Legal(w, events)
    decreases |events|
  {
    if events == [] then w else Run(Step(w, events[0]), events[1..])
  }

  ghost predicate Reachable(w: World)
  {
    exists events: seq<Event> :: Legal(START, events) && Run(START, events) == w
  }

  lemma StepInv(w: World, e: Event)
    requires Inv(w) && Enabled(w, e)
    ensures Inv(Step(w, e))
  {
    match e
    case Submit(hasBody) => SubmitInv(w, hasBody);
    case Write(k, empty, eof) => WriteInv(w, k, empty, eof);
    case Sends(k) => SendsInv(w, k);
    case WriteEnds(k, ok) => WriteEndsInv(w, k, ok);
    case GetResponse(k) => GetResponseInv(w, k);
    case Takes(r) => TakesInv(w, r);
    case ReadEnds(r, how, done) => ReadEndsInv(w, r, how, done);
    case ReadSome(r, empty) => ReadSomeInv(w, r, empty);
    case ReleaseRequest(k) => ReleaseRequestInv(w, k);
    case ReleaseReader(r) => ReleaseReaderInv(w, r);
    case Shutdown => ShutdownInv(w);
    case Resume =>
  }

  lemma {:induction false} RunInv(w: World, events: seq<Event>)
    requires Inv(w) && Legal(w, events)
    ensures Inv(Run(w, events))
    decreases |events|
  {
    if events != [] {
      StepInv(w, events[0]);
      RunInv(Step(w, events[0]), events[1..]);
    }
  }

  lemma ReachableInv(w: World)
    requires Reachable(w)
    ensures Inv(w)
  {
    var events: seq<Event> :| Legal(START, events) && Run(START, events) == w;
    StartInv();
    RunInv(START, events);
  }

  // --- Sending ---

  /** A request that completes is the one being sent: the session's own assertion never fails. */
  lemma CompletesWhileSending(w: World, k: nat)
    requires Reachable(w) && Enabled(w, WriteEnds(k, true)) && w.s.requests[k].attached
    ensures w.s.sending == Some(k)
  {
    ReachableInv(w);
  }

  /** While the session is there, a request is being sent exactly until it is ended or cancelled. */
  lemma SendingMeansIncomplete(w: World, k: nat)
    requires Reachable(w) && k < |w.s.requests| && w.s.requests[k].attached
    ensures w.s.sending == Some(k) <==> !w.s.requests[k].ended && !w.s.requests[k].cancelled
  {
    ReachableInv(w);
  }

  /** Bytes of different requests never interleave, and the first of one follow the end of all before it. */
  lemma NoInterleaving(w: World, i: nat, j: nat)
    requires Reachable(w) && i < j < |w.wire.sent|
    ensures w.wire.sent[i] <= w.wire.sent[j] < |w.s.requests|
    ensures w.wire.sent[i] < w.wire.sent[j] ==> w.s.requests[w.wire.sent[i]].ended
  {
    ReachableInv(w);
  }

  /** When bytes of a request go out, every earlier request is complete at that very moment. */
  lemma EarlierComplete(w: World, k: nat, j: nat)
    requires Reachable(w) && Enabled(w, Sends(k)) && j < k
    ensures k == |w.s.requests| - 1 && w.s.requests[j].ended && !w.s.requests[k].ended
  {
    ReachableInv(w);
  }

  /** Once a request has failed, nothing is ever sent again. */
  lemma {:induction false} NothingAfterFailure(w: World, events: seq<Event>)
    requires Inv(w) && w.s.sendFailed && w.wire.writer.None? && Legal(w, events)
    ensures Run(w, events).wire.sent == w.wire.sent
    decreases |events|
  {
    if events != [] {
      StepInv(w, events[0]);
      StaysFailed(w, events[0]);
      NothingAfterFailure(Step(w, events[0]), events[1..]);
    }
  }

  lemma StaysFailed(w: World, e: Event)
    requires Inv(w) && w.s.sendFailed && w.wire.writer.None? && Enabled(w, e)
    ensures var v := Step(w, e); v.s.sendFailed && v.wire.writer.None? && v.wire.sent == w.wire.sent
  {
    if e.Write? { NoWriteBegins(w, e.k, e.empty, e.eof); }
  }

  lemma NoWriteBegins(w: World, k: nat, empty: bool, eof: bool)
    requires SendInv(w) && w.s.sendFailed && k < |w.s.requests|
    ensures WriteAnswer(w.s.requests[k], empty, eof) != Begun
  {
  }

  /** A failure outside a shutdown is such a point: whoever failed was the only one writing. */
  lemma {:induction false} FailureStopsSending(w: World, events: seq<Event>)
    requires Reachable(w) && w.s.sendFailed && w.s.phase == Open && Legal(w, events)
    ensures Run(w, events).wire.sent == w.wire.sent
  {
    ReachableInv(w);
    NothingAfterFailure(w, events);
  }

  // --- Receiving ---

  /** Whatever was cancelled, retried or released: a reader that got anything got the message of its request. */
  lemma ResponseIsOwn(w: World, r: nat)
    requires Reachable(w) && r < |w.s.readers| && w.s.readers[r].message.Some?
    ensures w.s.readers[r].message.value == w.s.readers[r].request
  {
    ReachableInv(w);
  }

  /** Two readers are never both inside a message, and one that is can go on unless receiving has failed. */
  lemma OneInsideAMessage(w: World, r: nat, q: nat)
    requires Reachable(w) && r < |w.s.readers| && q < |w.s.readers|
    requires w.s.readers[r].message.Some? && !w.s.readers[r].done
    requires w.s.readers[q].message.Some? && !w.s.readers[q].done
    ensures r == q
    ensures !w.s.receiveFailed ==>
      w.s.readers[r].request == w.s.responsesRead && !w.s.readers[r].finished && !w.s.readers[r].released
  {
    ReachableInv(w);
  }

  /** A response may be asked for only when all earlier ones are off the connection, and nobody is in the way. */
  lemma ResponsesInOrder(w: World, k: nat)
    requires Reachable(w) && Enabled(w, GetResponse(k)) && GetResponseAnswer(w.s, k) == Begun
    ensures w.wire.taken == k && w.wire.mid.None? && w.wire.current.None? && !Reads(w)
  {
    ReachableInv(w);
  }

  // --- Shutdown ---

  /** While a shutdown waits, it can go on exactly when no read or write is left on the stream. */
  lemma ResumesWhenIdle(w: World)
    requires Reachable(w) && w.s.phase == Waiting
    ensures Enabled(w, Resume) <==> w.wire.writer.None? && !Reads(w)
  {
    ReachableInv(w);
  }

  /** And nothing new gets onto the stream meanwhile. */
  lemma NothingStarts(w: World, e: Event)
    requires Inv(w) && w.s.phase != Open && Enabled(w, e)
    ensures var v := Step(w, e);
      && v.s.phase != Open && v.s.pending <= w.s.pending
      && (w.s.phase == Closed ==> v.s.phase == Closed && v.wire.sent == w.wire.sent && v.wire.taken == w.wire.taken)
  {
    if e.Write? { NoWriteBegins(w, e.k, e.empty, e.eof); }
  }

  /** After the shutdown has gone on, no read or write is pending, ever: the connection ends undisturbed. */
  lemma {:induction false} QuietAfterShutdown(w: World, events: seq<Event>)
    requires Inv(w) && w.s.phase == Closed && Legal(w, events)
    ensures var v := Run(w, events);
      && v.s.phase == Closed && v.s.pending == 0 && v.wire.writer.None? && !Reads(v)
      && v.wire.sent == w.wire.sent && v.wire.taken == w.wire.taken
    decreases |events|
  {
    if events != [] {
      StepInv(w, events[0]);
      NothingStarts(w, events[0]);
      QuietAfterShutdown(Step(w, events[0]), events[1..]);
    }
  }
}
