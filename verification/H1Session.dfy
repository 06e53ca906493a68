/** The session object: its latches, counters and lists as they are changed in place, call by call. */
module H1Session {
  import opened Bytes
  import opened H1Client
  import opened H1ClientInvariant
  import opened H1ClientTheorems

  class ClientSession {
    var requests: seq<Request>
    var readers: seq<Reader>
    var sending: Option<nat>
    var responsesRead: nat
    var sendFailed: bool
    var receiveFailed: bool
    var phase: Phase
    var pending: nat
    var writes: nat
    var idle: bool
    var intact: bool
    ghost var wire: Wire

    ghost function View(): World
      reads this
    {
      World(Session(requests, readers, sending, responsesRead, sendFailed, receiveFailed, phase, pending, writes, idle,
                    intact),
            wire)
    }

    ghost predicate Valid()
      reads this
    {
      Inv(View())
    }

    constructor ()
      ensures Valid() && View() == START
    {
      requests, readers, sending, responsesRead := [], [], None, 0;
      sendFailed, receiveFailed, phase := false, false, Open;
      pending, writes, idle, intact := 0, 0, false, true;
      wire := START.wire;
      new;
      StartInv();
    }

    method Begin(write: bool)
      modifies this`pending, this`writes
      ensures View() == old(View()).(s := BeginOp(old(View()).s, write))
    {
      pending := pending + 1;
      if write {
        writes := writes + 1;
      }
    }

    method End(write: bool)
      requires pending > 0 && (write ==> writes > 0)
      modifies this`pending, this`writes, this`idle
      ensures View() == old(View()).(s := EndOp(old(View()).s, write))
    {
      if write {
        writes := writes - 1;
      }
      pending := pending - 1;
      if pending == 0 {
        idle := true;
      }
    }

    /** The session's own assertion is the precondition: only the request being sent completes. */
    method Complete(k: nat)
      requires sending == Some(k)
      modifies this`sending
      ensures View() == old(View()).(s := RequestComplete(old(View()).s))
    {
      sending := None;
    }

    method Fail()
      modifies this`sending, this`sendFailed
      ensures View() == old(View()).(s := RequestFailed(old(View()).s))
    {
      sendFailed := true;
      sending := None;
    }

    method Submit(hasBody: bool) returns (c: Code)
      requires Valid()
      modifies this
      ensures Valid() && c == SubmitAnswer(old(View()).s) && View() == Step(old(View()), H1Client.Submit(hasBody))
    {
      StepInv(View(), H1Client.Submit(hasBody));
      if sendFailed { return Aborted; }
      if sending.Some? { return WouldBlock; }
      sending := Some(|requests|);
      wire := wire.(writer := sending);
      requests := requests + [Request(true, false, false, true, !hasBody, false, false)];
      Begin(true);
      c := Begun;
    }

    method Write(k: nat, empty: bool, eof: bool) returns (c: Code)
      requires Valid() && Enabled(View(), H1Client.Write(k, empty, eof))
      modifies this
      ensures Valid() && View() == Step(old(View()), H1Client.Write(k, empty, eof))
      ensures c == WriteAnswer(old(requests)[k], empty, eof)
    {
      StepInv(View(), H1Client.Write(k, empty, eof));
      var q := requests[k];
      if empty && !eof { return Fine; }
      if q.ended { return if empty then Fine else BrokenPipe; }
      if !q.attached { return Aborted; }
      if q.cancelled { return Canceled; }
      requests := requests[k := requests[k].(writing := true, ends := eof)];
      wire := wire.(writer := Some(k));
      Begin(true);
      c := Begun;
    }

    /** The write in progress is over: the request is complete, failed, or goes on. */
    method WriteEnds(k: nat, ok: bool)
      requires Valid() && Enabled(View(), H1Client.WriteEnds(k, ok))
      modifies this
      ensures Valid() && View() == Step(old(View()), H1Client.WriteEnds(k, ok))
    {
      StepInv(View(), H1Client.WriteEnds(k, ok));
      EndWrite(k, ok);
    }

    /** The assertion about the request that completes is passed on from the precondition. */
    method EndWrite(k: nat, ok: bool)
      requires k < |requests| && pending > 0 && writes > 0
      requires requests[k].attached ==> sending == Some(k)
      modifies this`requests, this`pending, this`writes, this`idle, this`wire, this`sending, this`sendFailed
      ensures View() == StepWriteEnds(old(View()), k, ok)
    {
      requests := requests[k := WriteOver(requests[k], ok)];
      End(true);
      wire := wire.(writer := None);
      Conclude(k);
    }

    /** The request is complete, failed, or goes on. */
    method Conclude(k: nat)
      requires k < |requests| && (requests[k].attached ==> sending == Some(k))
      modifies this`sending, this`sendFailed
      ensures View() == old(View()).(s := Concluded(old(View()).s, k))
    {
      var q := requests[k];
      if q.attached && q.ended {
        Complete(k);
      } else if q.attached && q.cancelled {
        Fail();
      }
    }

    method GetResponse(k: nat) returns (c: Code)
      requires Valid() && Enabled(View(), H1Client.GetResponse(k))
      modifies this
      ensures Valid() && View() == Step(old(View()), H1Client.GetResponse(k))
      ensures c == GetResponseAnswer(old(View()).s, k)
    {
      StepInv(View(), H1Client.GetResponse(k));
      if requests[k].requested { return AlreadyStarted; }
      if !requests[k].attached || receiveFailed { return Aborted; }
      if k != responsesRead { return WouldBlock; }
      requests := requests[k := requests[k].(requested := true)];
      wire := wire.(current := Some(|readers|));
      readers := readers + [Reader(k, true, false, false, true, None, false)];
      Begin(false);
      c := Begun;
    }

    /** Tells the session, once, that a reader is done with the stream. */
    method FinishReader(r: nat)
      requires r < |readers|
      modifies this`readers, this`responsesRead, this`receiveFailed, this`wire
      ensures View() == Finish(old(View()), r)
    {
      if !readers[r].attached || readers[r].finished { return; }
      var complete := readers[r].done;
      readers := readers[r := readers[r].(finished := true)];
      wire := wire.(current := None);
      if complete {
        responsesRead := responsesRead + 1;
      } else {
        receiveFailed := true;
      }
    }

    method ReadSome(r: nat, empty: bool) returns (c: Code)
      requires Valid() && Enabled(View(), H1Client.ReadSome(r, empty))
      modifies this
      ensures Valid() && View() == Step(old(View()), H1Client.ReadSome(r, empty))
      ensures c == ReadSomeAnswer(old(readers)[r], empty)
    {
      StepInv(View(), H1Client.ReadSome(r, empty));
      if empty { return Fine; }
      if readers[r].done { return Eof; }
      if !readers[r].attached { return Partial; }
      readers := readers[r := readers[r].(reading := true)];
      Begin(false);
      c := Begun;
    }

    /** The read in progress is over. Cancelled before it took anything, it can be asked for again. */
    method ReadEnds(r: nat, how: ReadEnd, done: bool)
      requires Valid() && Enabled(View(), H1Client.ReadEnds(r, how, done))
      modifies this
      ensures Valid() && View() == Step(old(View()), H1Client.ReadEnds(r, how, done))
    {
      StepInv(View(), H1Client.ReadEnds(r, how, done));
      EndRead(r, how, done);
    }

    method EndRead(r: nat, how: ReadEnd, done: bool)
      requires r < |readers| && readers[r].request < |requests| && pending > 0
      modifies this
      ensures View() == StepReadEnds(old(View()), r, how, done)
    {
      var retries := Retries(readers[r], how);
      readers := readers[r := readers[r].(reading := false, done := done)];
      End(false);
      if retries {
        Retry(r);
      } else if done {
        wire := wire.(taken := wire.taken + 1, mid := None);
        FinishReader(r);
      }
    }

    /** The reader is dropped unfinished, but not as one that has failed. */
    method Retry(r: nat)
      requires r < |readers| && readers[r].request < |requests|
      modifies this`requests, this`readers, this`wire
      ensures var k := old(readers)[r].request; requests == old(requests)[k := old(requests)[k].(requested := false)]
      ensures readers == old(readers)[r := old(readers)[r].(finished := true, released := true, attached := false)]
      ensures wire == old(wire).(current := None)
    {
      var k := readers[r].request;
      requests := requests[k := requests[k].(requested := false)];
      readers := readers[r := readers[r].(finished := true, released := true, attached := false)];
      wire := wire.(current := None);
    }

    method ReleaseRequest(k: nat)
      requires Valid() && Enabled(View(), H1Client.ReleaseRequest(k))
      modifies this
      ensures Valid() && View() == Step(old(View()), H1Client.ReleaseRequest(k))
    {
      StepInv(View(), H1Client.ReleaseRequest(k));
      Abandon(k);
    }

    /** A request that goes away half sent, or without asking for its response, takes that direction with it. */
    method Abandon(k: nat)
      requires k < |requests|
      modifies this`requests, this`sending, this`sendFailed, this`receiveFailed
      ensures View() == StepReleaseRequest(old(View()), k)
    {
      var q := requests[k];
      requests := requests[k := q.(attached := false, released := true)];
      if !q.attached { return; }
      if sending == Some(k) {
        Fail();
      }
      if !q.requested {
        receiveFailed := true;
      }
    }

    method ReleaseReader(r: nat)
      requires Valid() && Enabled(View(), H1Client.ReleaseReader(r))
      modifies this
      ensures Valid() && View() == Step(old(View()), H1Client.ReleaseReader(r))
    {
      StepInv(View(), H1Client.ReleaseReader(r));
      DropReader(r);
    }

    method DropReader(r: nat)
      requires r < |readers|
      modifies this
      ensures View() == StepReleaseReader(old(View()), r)
    {
      FinishReader(r);
      readers := readers[r := readers[r].(attached := false, released := true)];
      if wire.current == Some(r) {
        wire := wire.(current := None);
      }
    }

    /** Fails what is left, cuts everything loose, and goes on at once or when the stream is idle. */
    method Shutdown()
      requires Valid()
      modifies this
      ensures Valid() && View() == Step(old(View()), H1Client.Shutdown)
    {
      StepInv(View(), H1Client.Shutdown);
      Quiesce();
    }

    method Quiesce()
      modifies this
      ensures View() == StepShutdown(old(View()))
    {
      if phase != Open { return; }
      intact := !sendFailed && writes == 0;
      sendFailed, receiveFailed, sending := true, true, None;
      Detach();
      if pending == 0 {
        phase := Closed;
      } else {
        idle, phase := false, Waiting;
      }
    }

    method Detach()
      modifies this`requests, this`readers
      ensures View() == old(View()).(s := Detached(old(View()).s))
    {
      requests := seq(|requests|, i requires 0 <= i < |requests| reads this => requests[i].(attached := false));
      readers := seq(|readers|, i requires 0 <= i < |readers| reads this => readers[i].(attached := false));
    }
  }
}
