/** What every step of an HTTP/1.1 client session keeps. */
module H1ClientInvariant {
  import opened Bytes
  import opened H1Client

  /** An attached request is the one being sent exactly while it is neither ended nor cancelled. */
  predicate SendingTracks(s: Session)
  {
    && (s.sending.Some? ==> s.sending.value < |s.requests| && s.requests[s.sending.value].attached)
    && forall k :: 0 <= k < |s.requests| && s.requests[k].attached ==>
         (s.sending == Some(k) <==> !s.requests[k].ended && !s.requests[k].cancelled)
  }

  /** Only the last request may be incomplete, and then, unless sending has failed, it is still being sent. */
  predicate OnlyLastOpen(s: Session)
  {
    && (forall k :: 0 <= k < |s.requests| - 1 ==> s.requests[k].ended)
    && (s.sendFailed ==> s.sending.None?)
    && (forall k :: 0 <= k < |s.requests| && s.requests[k].cancelled ==> s.sendFailed)
    && (forall k :: 0 <= k < |s.requests| && !s.requests[k].attached && !s.requests[k].ended ==> s.sendFailed)
  }

  /** The one write in progress is that of the incomplete request. */
  predicate OneWriter(w: World)
  {
    && (w.wire.writer.Some? ==> w.wire.writer.value < |w.s.requests| && w.s.requests[w.wire.writer.value].writing)
    && (forall k :: 0 <= k < |w.s.requests| && w.s.requests[k].writing ==>
          w.wire.writer == Some(k) && !w.s.requests[k].ended && !w.s.requests[k].cancelled)
    && (w.s.sendFailed && w.s.phase == Open ==> w.wire.writer.None?)
  }

  predicate Sorted(sent: seq<nat>, n: nat)
  {
    && (forall i :: 0 <= i < |sent| ==> sent[i] < n)
    && forall i, j :: 0 <= i < j < |sent| ==> sent[i] <= sent[j]
  }

  predicate SendInv(w: World)
  {
    SendingTracks(w.s) && OnlyLastOpen(w.s) && OneWriter(w) && Sorted(w.wire.sent, |w.s.requests|)
  }

  /** The one reader that has not finished, if there is one. */
  predicate OneReader(w: World)
  {
    && (w.wire.current.Some? ==> w.wire.current.value < |w.s.readers|)
    && forall r :: 0 <= r < |w.s.readers| ==>
         var reader := w.s.readers[r];
         && (w.wire.current == Some(r) <==> !reader.finished && !reader.released)
         && (reader.reading ==> w.wire.current == Some(r) && !reader.done)
         && (reader.done && reader.attached ==> reader.finished)
         && (reader.released ==> !reader.attached)
         && (reader.finished ==> reader.done || reader.released)
         && reader.request < |w.s.requests|
  }

  /** It reads the response whose turn it is, and that is the message the connection is at. */
  predicate InTurn(w: World)
  {
    w.wire.current.Some? && w.wire.current.value < |w.s.readers| ==>
      var reader := w.s.readers[w.wire.current.value];
      && (reader.attached ==> reader.request == w.s.responsesRead)
      && (reader.attached && reader.request < |w.s.requests| ==> w.s.requests[reader.request].requested)
      && (!reader.attached ==> w.s.receiveFailed)
      && (!reader.done ==> w.wire.taken == reader.request && (w.wire.mid.None? || w.wire.mid == w.wire.current))
  }

  /** At most one reader is inside a message, and each got the message of its request. */
  predicate Paired(w: World)
  {
    && (w.wire.mid.Some? ==> w.wire.mid.value < |w.s.readers|)
    && forall r :: 0 <= r < |w.s.readers| ==>
         var reader := w.s.readers[r];
         && (reader.message.Some? ==> reader.message.value == reader.request)
         && (w.wire.mid == Some(r) <==> reader.message.Some? && !reader.done)
  }

  predicate Synchronous(w: World)
  {
    !w.s.receiveFailed ==>
      w.wire.taken == w.s.responsesRead && (w.wire.mid.Some? ==> w.wire.mid == w.wire.current)
  }

  predicate ReceiveInv(w: World) { OneReader(w) && InTurn(w) && Paired(w) && Synchronous(w) }

  predicate Reads(w: World)
  {
    w.wire.current.Some? && w.wire.current.value < |w.s.readers| && w.s.readers[w.wire.current.value].reading
  }

  /** The counters count, and a shutdown waits exactly for what is still on the stream. */
  predicate OpsInv(w: World)
  {
    && w.s.writes == (if w.wire.writer.Some? then 1 else 0)
    && w.s.pending == w.s.writes + (if Reads(w) then 1 else 0)
    && (w.s.phase == Waiting ==> (w.s.idle <==> w.s.pending == 0))
    && (w.s.phase == Closed ==> w.s.pending == 0)
  }

  /** Once shutting down, nothing refers to the session any more. */
  predicate PhaseInv(s: Session)
  {
    s.phase != Open ==>
      && s.sendFailed && s.receiveFailed
      && (forall k :: 0 <= k < |s.requests| ==> !s.requests[k].attached)
      && (forall r :: 0 <= r < |s.readers| ==> !s.readers[r].attached)
  }

  predicate Inv(w: World) { SendInv(w) && ReceiveInv(w) && OpsInv(w) && PhaseInv(w.s) }

  lemma StartInv()
    ensures Inv(START)
  {
  }

  lemma SubmitInv(w: World, hasBody: bool)
    requires Inv(w)
    ensures Inv(StepSubmit(w, hasBody))
  {
    if SubmitAnswer(w.s) == Begun {
      assert forall k :: 0 <= k < |w.s.requests| ==> w.s.requests[k].ended;
    }
  }

  lemma WriteInv(w: World, k: nat, empty: bool, eof: bool)
    requires Inv(w) && Enabled(w, Write(k, empty, eof))
    ensures Inv(StepWrite(w, k, empty, eof))
  {
  }

  lemma SendsInv(w: World, k: nat)
    requires Inv(w) && Enabled(w, Sends(k))
    ensures Inv(StepSends(w, k))
  {
    assert k == |w.s.requests| - 1;
  }

  lemma WriteEndsInv(w: World, k: nat, ok: bool)
    requires Inv(w) && Enabled(w, WriteEnds(k, ok))
    ensures Inv(StepWriteEnds(w, k, ok))
  {
    WriteEndsSend(w, k, ok);
    WriteEndsReceive(w, k, ok);
    WriteEndsOps(w, k, ok);
    WriteEndsPhase(w, k, ok);
  }

  lemma WriteEndsReceive(w: World, k: nat, ok: bool)
    requires ReceiveInv(w) && Enabled(w, WriteEnds(k, ok))
    ensures ReceiveInv(StepWriteEnds(w, k, ok))
  {
    ReceiveFrame(w, StepWriteEnds(w, k, ok));
  }

  lemma WriteEndsOps(w: World, k: nat, ok: bool)
    requires OpsInv(w) && OneWriter(w) && Enabled(w, WriteEnds(k, ok))
    ensures OpsInv(StepWriteEnds(w, k, ok))
  {
    assert w.wire.writer == Some(k);
  }

  lemma WriteEndsPhase(w: World, k: nat, ok: bool)
    requires PhaseInv(w.s) && Enabled(w, WriteEnds(k, ok))
    ensures PhaseInv(StepWriteEnds(w, k, ok).s)
  {
  }

  /** Receiving does not depend on how far the requests have been sent. */
  lemma ReceiveFrame(w: World, v: World)
    requires ReceiveInv(w) && |v.s.requests| == |w.s.requests|
    requires forall i :: 0 <= i < |w.s.requests| ==> v.s.requests[i].requested == w.s.requests[i].requested
    requires v.s.readers == w.s.readers && v.s.responsesRead == w.s.responsesRead
    requires v.s.receiveFailed == w.s.receiveFailed || v.s.receiveFailed
    requires v.wire.taken == w.wire.taken && v.wire.mid == w.wire.mid && v.wire.current == w.wire.current
    ensures ReceiveInv(v)
  {
  }

  lemma WriteEndsSend(w: World, k: nat, ok: bool)
    requires Inv(w) && Enabled(w, WriteEnds(k, ok))
    ensures SendInv(StepWriteEnds(w, k, ok))
  {
    assert w.wire.writer == Some(k);
  }

  lemma GetResponseInv(w: World, k: nat)
    requires Inv(w) && Enabled(w, GetResponse(k))
    ensures Inv(StepGetResponse(w, k))
  {
    if GetResponseAnswer(w.s, k) == Begun {
      assert w.wire.current.None?;
      assert w.wire.mid.None?;
    }
  }

  lemma TakesInv(w: World, r: nat)
    requires Inv(w) && Enabled(w, Takes(r))
    ensures Inv(StepTakes(w, r))
  {
    assert w.wire.current == Some(r);
  }

  lemma ReadEndsInv(w: World, r: nat, how: ReadEnd, done: bool)
    requires Inv(w) && Enabled(w, ReadEnds(r, how, done))
    ensures Inv(StepReadEnds(w, r, how, done))
  {
    assert w.wire.current == Some(r);
    ReadEndsReceive(w, r, how, done);
    ReadEndsSend(w, r, how, done);
  }

  lemma ReadEndsSend(w: World, r: nat, how: ReadEnd, done: bool)
    requires SendInv(w) && Enabled(w, ReadEnds(r, how, done))
    ensures SendInv(StepReadEnds(w, r, how, done))
  {
  }

  lemma ReadEndsReceive(w: World, r: nat, how: ReadEnd, done: bool)
    requires ReceiveInv(w) && Enabled(w, ReadEnds(r, how, done))
    ensures ReceiveInv(StepReadEnds(w, r, how, done))
  {
    assert w.wire.current == Some(r);
  }

  lemma ReadSomeInv(w: World, r: nat, empty: bool)
    requires Inv(w) && Enabled(w, ReadSome(r, empty))
    ensures Inv(StepReadSome(w, r, empty))
  {
  }

  lemma ReleaseRequestInv(w: World, k: nat)
    requires Inv(w) && Enabled(w, ReleaseRequest(k))
    ensures Inv(StepReleaseRequest(w, k))
  {
    ReleaseRequestSend(w, k);
    ReleaseRequestReceive(w, k);
  }

  lemma ReleaseRequestSend(w: World, k: nat)
    requires SendInv(w) && Enabled(w, ReleaseRequest(k))
    ensures SendInv(StepReleaseRequest(w, k))
  {
    ReleaseRequestOpen(w, k);
    assert OneWriter(StepReleaseRequest(w, k));
  }

  lemma ReleaseRequestOpen(w: World, k: nat)
    requires SendInv(w) && Enabled(w, ReleaseRequest(k))
    ensures SendingTracks(StepReleaseRequest(w, k).s) && OnlyLastOpen(StepReleaseRequest(w, k).s)
  {
  }

  lemma ReleaseRequestReceive(w: World, k: nat)
    requires ReceiveInv(w) && Enabled(w, ReleaseRequest(k))
    ensures ReceiveInv(StepReleaseRequest(w, k))
  {
    ReceiveFrame(w, StepReleaseRequest(w, k));
  }

  lemma ReleaseReaderInv(w: World, r: nat)
    requires Inv(w) && Enabled(w, ReleaseReader(r))
    ensures Inv(StepReleaseReader(w, r))
  {
    ReleaseReaderReceive(w, r);
    SendFrame(w, StepReleaseReader(w, r));
  }

  /** Sending does not depend on the readers. */
  lemma SendFrame(w: World, v: World)
    requires SendInv(w)
    requires v.s.requests == w.s.requests && v.s.sending == w.s.sending && v.s.sendFailed == w.s.sendFailed
    requires v.s.phase == w.s.phase && v.wire.writer == w.wire.writer && v.wire.sent == w.wire.sent
    ensures SendInv(v)
  {
  }

  lemma ReleaseReaderReceive(w: World, r: nat)
    requires ReceiveInv(w) && Enabled(w, ReleaseReader(r))
    ensures ReceiveInv(StepReleaseReader(w, r))
  {
  }

  lemma ShutdownInv(w: World)
    requires Inv(w)
    ensures Inv(StepShutdown(w))
  {
    ShutdownSend(w);
    ShutdownReceive(w);
  }

  lemma ShutdownSend(w: World)
    requires SendInv(w)
    ensures SendInv(StepShutdown(w))
  {
  }

  lemma ShutdownReceive(w: World)
    requires ReceiveInv(w)
    ensures ReceiveInv(StepShutdown(w))
  {
  }
}
