/**
 * The incoming half of an HTTP/2 stream. It serves the same queue as a QUIC stream by other means: one view
 * points at the undelivered part of the first buffer, and trades places with the view of the data that has
 * just arrived once the buffers are used up.
 */
module H2Reader {
  import opened Bytes
  import opened ReadQueue
  import opened ReadRuns

  class Stream {
    var pendingReadBuffers: seq<seq<byte>>
    var readBuffer: seq<byte> // undelivered part of the first of them, or of what has just arrived
    var eofReceived: bool
    var readHandler: Option<nat> // with the size of its buffer
    var inside: bool // inside CallReadHandler
    var closed: bool
    var closeDeferred: bool // until the reader has taken the rest, or is gone
    var erased: bool // from the session's map; the destructor runs once nobody else holds on to the stream
    var gone: bool // the stream is; what is left is the adapter, and what it latched
    var reader: bool
    var bytesRead: nat
    var credit: nat
    ghost var asked: nat
    ghost var received: seq<byte>
    ghost var delivered: seq<byte>

    ghost predicate Valid()
      reads this
    {
      && Filled(pendingReadBuffers)
      && (pendingReadBuffers != [] ==> readBuffer != [])
      && (readHandler.Some? ==> readHandler.value > 0 && reader)
      && bytesRead == |delivered|
    }

    /** Between calls: without buffers there is no view, and a read waits unless it came back after a truncation. */
    ghost predicate Calm()
      reads this
    {
      && Valid() && !inside
      && (pendingReadBuffers == [] ==> readBuffer == [])
      && (readHandler.Some? ==> readBuffer == [] && !eofReceived)
    }

    /** And a close that was put off is still owed to a reader. */
    ghost predicate Quiet()
      reads this
    {
      && Calm()
      && (closeDeferred ==> closed && reader && eofReceived && readBuffer != [])
      && (gone ==> closed && readBuffer == [])
    }

    /** The undelivered part of the first buffer, the other buffers, and the view of what has just arrived. */
    ghost function Undelivered(view: seq<byte>): seq<byte>
      reads this
    {
      readBuffer + (Concat(Others(pendingReadBuffers)) + view)
    }

    ghost function View(view: seq<byte>): Life
      reads this
    {
      Life(State(Queue(Undelivered(view), eofReceived, closed, gone && !eofReceived, reader, asked), readHandler),
           received, delivered, credit)
    }

    ghost predicate Did(before: Life, m: Move)
      reads this
    {
      Answered(before, m) && View([]) == Step(before, m)
    }

    constructor ()
      ensures Quiet() && View([]) == START && !erased && !gone
    {
      pendingReadBuffers, readBuffer := [], [];
      eofReceived, closed, closeDeferred, erased, gone, inside := false, false, false, false, false, false;
      readHandler, reader, credit := None, true, 0;
      bytesRead, asked, received, delivered := 0, 0, [], [];
    }

    /** Leaves used-up buffers behind; after the last one, the view takes its place. */
    method Advance(view: seq<byte>) returns (left: seq<byte>)
      requires Filled(pendingReadBuffers) && (pendingReadBuffers == [] ==> view == [])
      modifies this`pendingReadBuffers, this`readBuffer
      ensures Filled(pendingReadBuffers) && (pendingReadBuffers != [] ==> readBuffer != [])
      ensures pendingReadBuffers == [] ==> left == []
      ensures Undelivered(left) == old(Undelivered(view))
    {
      left := view;
      if readBuffer == [] {
        if pendingReadBuffers != [] {
          pendingReadBuffers := pendingReadBuffers[1..];
        }
        if pendingReadBuffers != [] {
          readBuffer := pendingReadBuffers[0];
          assert Filled(pendingReadBuffers);
          Associates(readBuffer, Concat(pendingReadBuffers[1..]), view);
        } else {
          readBuffer, left := view, [];
          assert [] + view == view + [] == view && [] + ([] + view) == view;
        }
      }
    }

    /** One delivery from the view in front; the handler has not run yet. */
    method Take(ghost view: seq<byte>) returns (t: Told)
      requires readHandler.Some? && readHandler.value > 0 && readBuffer != []
      modifies this`readBuffer, this`readHandler, this`delivered, this`bytesRead
      ensures bytesRead - old(bytesRead) == |delivered| - |old(delivered)|
      ensures t.Data? && Answers(old(View(view)).s, t) && readHandler.None?
      ensures View(view) == Deliver(old(View(view)), t, Leave, 0).(credit := old(credit))
    {
      var n := Min(readHandler.value, |readBuffer|);
      ghost var rest := Concat(Others(pendingReadBuffers)) + view;
      assert readBuffer == readBuffer[..n] + readBuffer[n..];
      Associates(readBuffer[..n], readBuffer[n..], rest);
      t := Data(readBuffer[..n]);
      delivered, bytesRead := delivered + readBuffer[..n], bytesRead + n;
      assert (readBuffer + rest)[n..] == readBuffer[n..] + rest;
      readBuffer := readBuffer[n..];
      readHandler := None;
    }

    predicate ReadingFinished()
      reads this
    {
      !reader || (eofReceived && readBuffer == [])
    }

    /**
     * The reader goes away. What is buffered was to be dropped, but by then the stream has no reader any more,
     * and so counts as read to its end: nothing is.
     */
    method DeleteReader(ghost view: seq<byte>)
      requires readHandler.None? && reader
      modifies this`pendingReadBuffers, this`readBuffer, this`reader
      ensures pendingReadBuffers == old(pendingReadBuffers) && readBuffer == old(readBuffer)
      ensures View(view) == old(View(view)).(s := Dropping(old(View(view)).s.q, |Undelivered(view)|))
    {
      reader := false; // by the adapter's destructor, before the stream gets to look
      assert ReadingFinished(); // so the branch that would drop the buffers is never taken
    }

    /** The reader goes away between calls. */
    method DropReader() returns (ghost kept: nat)
      requires Quiet() && readHandler.None? && reader
      modifies this`pendingReadBuffers, this`readBuffer, this`reader, this`closeDeferred, this`erased
      ensures Quiet() && Did(old(View([])), Move(Dropped, [], [], kept))
      ensures Undelivered([]) == old(Undelivered([]))
      ensures !closeDeferred && erased == (old(erased) || old(closeDeferred))
    {
      kept := |Undelivered([])|;
      DeleteReader([]);
      SilentMove(old(View([])), Dropped, kept);
      FinishDeferredClose();
    }

    /** Closes the stream after all, once the body has been read to its end, or nobody will: now it is erased. */
    method FinishDeferredClose()
      modifies this`closeDeferred, this`erased
      ensures closeDeferred == (old(closeDeferred) && !(ReadingFinished() && readHandler.None? && !inside))
      ensures erased == (old(erased) || (old(closeDeferred) && !closeDeferred))
    {
      if closeDeferred && ReadingFinished() && readHandler.None? && !inside {
        closeDeferred := false;
        erased := true;
      }
    }

    /** What the reader does from inside its handler. A read it issues is found by the loop that is running. */
    method Respond(r: Reply, ghost view: seq<byte>) returns (ghost kept: nat)
      requires inside && readHandler.None? && reader && !r.Stop? && !r.Kill?
      modifies this`pendingReadBuffers, this`readBuffer, this`reader, this`asked, this`readHandler
      ensures readHandler.Some? ==> readHandler.value > 0 && reader
      ensures pendingReadBuffers == old(pendingReadBuffers) && readBuffer == old(readBuffer)
      ensures View(view) == old(View(view)).(s := Replied(old(View(view)).s.q, r, kept))
    {
      kept := |Undelivered(view)|;
      match r
      case Leave =>
      case Again(size) =>
        if size != 0 {
          readHandler := Some(size);
          asked := asked + 1;
        }
      case Discard => DeleteReader(view);
    }

    /** One delivery, the handler's reply to it, and on to the next buffer. */
    method DeliverOne(view: seq<byte>, r: Reply) returns (t: Told, left: seq<byte>, ghost kept: nat)
      requires Valid() && inside && readHandler.Some? && readBuffer != [] && !r.Stop? && !r.Kill?
      requires pendingReadBuffers == [] ==> view == []
      modifies this`pendingReadBuffers, this`readBuffer, this`readHandler, this`reader, this`asked, this`bytesRead
      modifies this`delivered
      ensures Valid() && (pendingReadBuffers == [] ==> left == [])
      ensures t.Data? && Answers(old(View(view)).s, t)
      ensures View(left) == Deliver(old(View(view)), t, r, kept).(credit := old(credit))
    {
      t := Take(view);
      kept := Respond(r, view);
      left := Advance(view);
    }

    /** Delivers buffered data for as long as reads keep coming, and grants as much. */
    method DeliverData(view: seq<byte>, script: seq<Reply>) returns (told: seq<Told>, left: seq<byte>, ghost kept: nat)
      requires Valid() && inside && NeverStops(script)
      requires pendingReadBuffers == [] ==> view == []
      modifies this`pendingReadBuffers, this`readBuffer, this`readHandler, this`reader, this`asked, this`bytesRead
      modifies this`delivered, this`credit
      ensures Valid() && (pendingReadBuffers == [] ==> left == [])
      ensures Fair(old(View(view)).s, script, told, kept) && View(left) == Serve(old(View(view)), script, told, kept)
      ensures readHandler.Some? ==> readBuffer == [] && |told| <= |script|
    {
      var consumed;
      told, left, consumed, kept := DeliverMany(view, script);
      credit := credit + consumed;
    }

    method DeliverMany(view: seq<byte>, script: seq<Reply>)
      returns (told: seq<Told>, left: seq<byte>, consumed: nat, ghost kept: nat)
      requires Valid() && inside && NeverStops(script)
      requires pendingReadBuffers == [] ==> view == []
      modifies this`pendingReadBuffers, this`readBuffer, this`readHandler, this`reader, this`asked, this`bytesRead
      modifies this`delivered
      ensures Valid() && (pendingReadBuffers == [] ==> left == []) && consumed == |Delivered(told)|
      ensures Fair(old(View(view)).s, script, told, kept)
      ensures View(left) == Serve(old(View(view)), script, told, kept).(credit := credit)
      ensures readHandler.Some? ==> readBuffer == [] && |told| <= |script|
    {
      told, left, consumed, kept := [], view, 0, 0;
      ghost var start := View(view);
      assert delivered + [] == delivered;
      while readHandler.Some? && readBuffer != []
        invariant Valid() && (pendingReadBuffers == [] ==> left == [])
        invariant Fair(start.s, script, told, kept) && consumed == |Delivered(told)|
        invariant View(left) == Serve(start, script, told, kept).(credit := credit)
        invariant readHandler.Some? ==> |told| <= |script|
        decreases |script| + 1 - |told|
      {
        var t;
        ghost var before := kept;
        NeverStopsAt(script, |told|);
        t, left, kept := DeliverOne(left, ReplyAt(script, |told|));
        ServeOn(start, script, told, before, kept, t);
        consumed := consumed + |t.bytes|;
        told := told + [t];
      }
    }

    /** Tells the waiting read that there are no more bytes, in one of the two ways. */
    method TellOne(t: Told, r: Reply, ghost kept: nat)
      requires Valid() && inside && readHandler.Some? && readBuffer == []
      requires (t.End? || t.Truncated?) && !r.Stop? && !r.Kill?
      modifies this`pendingReadBuffers, this`readBuffer, this`reader, this`asked, this`readHandler
      ensures Valid() && readBuffer == [] && View([]) == Deliver(old(View([])), t, r, kept)
    {
      readHandler := None;
      assert delivered + [] == delivered && Undelivered([]) == [];
      ghost var any := Respond(r, []);
      assert Undelivered([]) == [];
    }

    /** Keeps telling reads past the end of the body so, for as long as they are issued. */
    method DeliverEof(script: seq<Reply>, before: seq<Told>, ghost start: Life, ghost kept: nat)
      returns (told: seq<Told>)
      requires Valid() && inside && NeverStops(script)
      requires readBuffer == [] && eofReceived && (readHandler.Some? ==> |before| <= |script|)
      requires Fair(start.s, script, before, kept) && View([]) == Serve(start, script, before, kept)
      modifies this`pendingReadBuffers, this`readBuffer, this`reader, this`asked, this`readHandler
      ensures Valid() && readBuffer == [] && readHandler.None?
      ensures Fair(start.s, script, told, kept) && View([]) == Serve(start, script, told, kept)
    {
      told := before;
      while readHandler.Some?
        invariant Valid() && readBuffer == [] && (readHandler.Some? ==> |told| <= |script|)
        invariant Fair(start.s, script, told, kept) && View([]) == Serve(start, script, told, kept)
        decreases |script| + 1 - |told|
      {
        NeverStopsAt(script, |told|);
        ServeMore(start, script, told, kept, End);
        TellOne(End, ReplyAt(script, |told|), kept);
        told := told + [End];
      }
    }

    /** Without a read waiting, what arrives is buffered. */
    method Buffer(view: seq<byte>)
      requires Valid() && (pendingReadBuffers == [] ==> readBuffer == []) && view != []
      modifies this`pendingReadBuffers, this`readBuffer
      ensures Valid() && pendingReadBuffers != [] && View([]) == old(View(view))
    {
      FilledSnoc(pendingReadBuffers, view);
      if pendingReadBuffers == [] {
        pendingReadBuffers, readBuffer := [view], view;
        assert view + ([] + []) == view == [] + ([] + view);
      } else {
        var rest := pendingReadBuffers[1..];
        ConcatSnoc(rest, view);
        pendingReadBuffers := pendingReadBuffers + [view];
        assert pendingReadBuffers[1..] == rest + [view];
        assert (Concat(rest) + view) + [] == Concat(rest) + view;
      }
    }

    /** Keeps what the loop has not delivered of the data that was passed in. */
    method Keep(view: seq<byte>)
      requires Valid() && readBuffer != [] && (pendingReadBuffers == [] ==> view == [])
      modifies this`pendingReadBuffers
      ensures Valid() && pendingReadBuffers != [] && View([]) == old(View(view))
    {
      if pendingReadBuffers == [] {
        pendingReadBuffers := [readBuffer];
      } else if view != [] {
        var rest := pendingReadBuffers[1..];
        FilledSnoc(pendingReadBuffers, view);
        ConcatSnoc(rest, view);
        pendingReadBuffers := pendingReadBuffers + [view];
        assert pendingReadBuffers[1..] == rest + [view];
        assert (Concat(rest) + view) + [] == Concat(rest) + view;
      }
    }

    /** Serves waiting reads with what is buffered and then with `view`, keeps the rest, and may close after that. */
    method CallReadHandler(view: seq<byte>, script: seq<Reply>) returns (told: seq<Told>, ghost kept: nat)
      requires Valid() && !inside && !gone && (pendingReadBuffers == [] ==> readBuffer == []) && NeverStops(script)
      requires closeDeferred ==> closed && eofReceived && view == []
      modifies this
      ensures Quiet() && closed == old(closed) && eofReceived == old(eofReceived) && !gone
      ensures old(readHandler).None? ==> told == []
      ensures Fair(old(View(view)).s, script, told, kept) && View([]) == Serve(old(View(view)), script, told, kept)
      ensures readHandler.Some? && closed ==> told != [] && told[|told| - 1] == Truncated
      ensures erased == (old(erased) || (old(closeDeferred) && !closeDeferred))
      ensures closeDeferred ==> old(closeDeferred)
    {
      told, kept := ServeOrBuffer(view, script);
      FinishDeferredClose();
    }

    method ServeOrBuffer(view: seq<byte>, script: seq<Reply>) returns (told: seq<Told>, ghost kept: nat)
      requires Valid() && !inside && (pendingReadBuffers == [] ==> readBuffer == []) && NeverStops(script)
      modifies this`inside, this`pendingReadBuffers, this`readBuffer, this`readHandler, this`reader, this`asked
      modifies this`bytesRead, this`delivered, this`credit
      ensures Calm() && (old(readHandler).None? ==> told == [])
      ensures Fair(old(View(view)).s, script, told, kept) && View([]) == Serve(old(View(view)), script, told, kept)
      ensures readHandler.Some? && closed ==> told != [] && told[|told| - 1] == Truncated
    {
      told, kept := [], 0;
      assert delivered + [] == delivered;
      if readHandler.None? {
        if view != [] { Buffer(view); }
        return;
      }
      inside := true;
      told, kept := ServeReads(view, script);
      inside := false;
    }

    method TakeOver(view: seq<byte>) returns (left: seq<byte>)
      requires Valid() && (pendingReadBuffers == [] ==> readBuffer == [])
      modifies this`readBuffer
      ensures Valid() && (pendingReadBuffers == [] ==> left == []) && View(left) == old(View(view))
    {
      left := view;
      if pendingReadBuffers == [] {
        readBuffer, left := left, readBuffer;
        assert [] + ([] + view) == view == view + ([] + []);
      }
    }

    /** The loop proper: with nothing buffered, the view comes first. */
    method ServeReads(view: seq<byte>, script: seq<Reply>) returns (told: seq<Told>, ghost kept: nat)
      requires Valid() && inside && (pendingReadBuffers == [] ==> readBuffer == []) && NeverStops(script)
      requires readHandler.Some?
      modifies this`pendingReadBuffers, this`readBuffer, this`readHandler, this`reader, this`asked, this`bytesRead
      modifies this`delivered, this`credit
      ensures Valid() && (pendingReadBuffers == [] ==> readBuffer == [])
      ensures readHandler.Some? ==> readBuffer == [] && !eofReceived
      ensures Fair(old(View(view)).s, script, told, kept) && View([]) == Serve(old(View(view)), script, told, kept)
      ensures readHandler.Some? && closed ==> told != [] && told[|told| - 1] == Truncated
    {
      var left := TakeOver(view);
      ghost var start := View(left);
      told, left, kept := DeliverData(left, script);
      if readBuffer != [] {
        Keep(left);
      } else {
        told := DeliverEnd(script, told, start, kept);
      }
    }

    /** Out of data: the end of the body, again and again, or the truncation, once. */
    method DeliverEnd(script: seq<Reply>, before: seq<Told>, ghost start: Life, ghost kept: nat)
      returns (told: seq<Told>)
      requires Valid() && inside && NeverStops(script) && readBuffer == []
      requires readHandler.Some? ==> |before| <= |script|
      requires Fair(start.s, script, before, kept) && View([]) == Serve(start, script, before, kept)
      modifies this`pendingReadBuffers, this`readBuffer, this`reader, this`asked, this`readHandler
      ensures Valid() && readBuffer == [] && (readHandler.Some? ==> !eofReceived)
      ensures Fair(start.s, script, told, kept) && View([]) == Serve(start, script, told, kept)
      ensures readHandler.Some? && closed ==> told != [] && told[|told| - 1] == Truncated
    {
      told := before;
      if eofReceived {
        told := DeliverEof(script, told, start, kept);
      } else if readHandler.Some? && closed {
        ServeMore(start, script, told, kept, Truncated);
        NeverStopsAt(script, |told|);
        TellOne(Truncated, ReplyAt(script, |told|), kept);
        told := told + [Truncated];
      }
    }

    method OnData(data: seq<byte>, script: seq<Reply>) returns (told: seq<Told>, ghost kept: nat)
      requires Quiet() && !gone && !eofReceived && data != [] && NeverStops(script)
      modifies this
      ensures Quiet() && Did(old(View([])), Move(Arrived(data), script, told, kept))
    {
      received := received + data;
      Arriving(data);
      told, kept := CallReadHandler(data, script);
    }

    /** A view of new data stands behind all that is buffered. */
    lemma Arriving(data: seq<byte>)
      ensures Undelivered(data) == Undelivered([]) + data
    {
      var rest := Concat(Others(pendingReadBuffers));
      assert rest + [] == rest;
      Associates(readBuffer, rest, data);
    }

    method OnEof(script: seq<Reply>) returns (told: seq<Told>, ghost kept: nat)
      requires Quiet() && !gone && !eofReceived && NeverStops(script)
      modifies this
      ensures Quiet() && Did(old(View([])), Move(Ended, script, told, kept))
    {
      eofReceived := true;
      told, kept := CallReadHandler([], script);
    }

    method AsyncReadSome(size: nat, script: seq<Reply>) returns (told: seq<Told>, ghost kept: nat)
      requires Quiet() && readHandler.None? && reader && NeverStops(script)
      modifies this
      ensures Quiet() && closed == old(closed) && gone == old(gone)
      ensures Did(old(View([])), Move(Asked(size), script, told, kept))
      ensures readHandler.Some? && closed ==> told != [] && told[|told| - 1] == Truncated
      ensures gone ==> readHandler.None?
      ensures erased == (old(erased) || (old(closeDeferred) && !closeDeferred))
      ensures closeDeferred ==> old(closeDeferred)
      decreases |script|, 3
    {
      if size == 0 {
        told, kept := [], 0;
        assert delivered + [] == delivered;
        return;
      }
      IssueRead(size);
      told, kept := ServeRead(script);
    }

    method IssueRead(size: nat)
      requires Quiet() && readHandler.None? && reader && size > 0
      modifies this`readHandler, this`asked
      ensures Valid() && readHandler.Some? && forall kept :: View([]) == Touch(old(View([])), Asked(size), kept)
    {
      readHandler := Some(size);
      asked := asked + 1;
    }

    method ServeRead(script: seq<Reply>) returns (told: seq<Told>, ghost kept: nat)
      requires Valid() && !inside && (pendingReadBuffers == [] ==> readBuffer == []) && NeverStops(script)
      requires readHandler.Some? && (gone ==> closed && readBuffer == [])
      requires closeDeferred ==> closed && eofReceived && readBuffer != []
      modifies this
      ensures Quiet() && closed == old(closed) && gone == old(gone) && (gone ==> readHandler.None?)
      ensures Fair(old(View([])).s, script, told, kept) && View([]) == Serve(old(View([])), script, told, kept)
      ensures readHandler.Some? && closed ==> told != [] && told[|told| - 1] == Truncated
      ensures erased == (old(erased) || (old(closeDeferred) && !closeDeferred))
      ensures closeDeferred ==> old(closeDeferred)
      decreases |script|, 2
    {
      if gone {
        told, kept := AnswerDetached(script);
      } else {
        told, kept := CallReadHandler([], script);
      }
    }

    /** Without its stream, the adapter answers from what detach() latched, again and again. */
    method AnswerDetached(script: seq<Reply>) returns (told: seq<Told>, ghost kept: nat)
      requires Valid() && !inside && gone && closed && readBuffer == [] && !closeDeferred && readHandler.Some?
      requires NeverStops(script)
      modifies this
      ensures Quiet() && closed && gone && readHandler.None? && erased == old(erased) && !closeDeferred
      ensures Fair(old(View([])).s, script, told, kept) && View([]) == Serve(old(View([])), script, told, kept)
      decreases |script|, 1
    {
      assert Undelivered([]) == [];
      told, kept := TellAndRespond(if eofReceived then End else Truncated, script);
      ServeShift(old(View([])), script, told, kept);
    }

    /** The waiting read is told `t`, and what its handler asks for then is answered before this returns. */
    method TellAndRespond(t: Told, script: seq<Reply>) returns (told: seq<Told>, ghost kept: nat)
      requires Valid() && !inside && readBuffer == [] && !closeDeferred && readHandler.Some? && !t.Data?
      requires NeverStops(script) && (gone ==> closed)
      modifies this
      ensures Quiet() && closed == old(closed) && gone == old(gone) && (gone ==> readHandler.None?)
      ensures !closeDeferred && erased == old(erased) && told != [] && told[0] == t
      ensures var next := Deliver(old(View([])), t, ReplyAt(script, 0), kept);
        && Fair(next.s, DropFirst(script), told[1..], kept)
        && View([]) == Serve(next, DropFirst(script), told[1..], kept)
      decreases |script|, 0
    {
      readHandler := None;
      kept := 0;
      assert delivered + [] == delivered && Undelivered([]) == [];
      NeverStopsAt(script, 0);
      var r := ReplyAt(script, 0);
      var rest := [];
      match r {
        case Leave =>
        case Again(size) => rest, kept := AsyncReadSome(size, DropFirst(script));
        case Discard => DeleteReader([]);
      }
      told := [t] + rest;
      assert told[1..] == rest;
    }

    /**
     * The session closes the stream. With a response still to be asked for, a waiting read is served as ever,
     * and the stream kept; with a body that ended and has not been read, closing is put off; else the stream is
     * erased, and a waiting read told itself.
     */
    method Close(undelivered: bool, script: seq<Reply>) returns (told: seq<Told>, ghost kept: nat)
      requires Quiet() && !gone && !closeDeferred && NeverStops(script)
      modifies this
      ensures Quiet() && closed && Did(old(View([])), Move(Died(Some(PartialMessage)), script, told, kept))
      ensures closeDeferred == (!undelivered && old(reader) && eofReceived && old(readBuffer) != [])
      ensures erased == (old(erased) || (!undelivered && !closeDeferred))
    {
      told, kept := [], 0;
      closed := true;
      assert delivered + [] == delivered;
      if undelivered {
        told, kept := CloseServing(script);
      } else if reader && eofReceived && readBuffer != [] {
        closeDeferred := true;
      } else {
        erased := true;
        if readHandler.Some? {
          told, kept := TellAndRespond(Truncated, script);
        }
      }
    }

    method CloseServing(script: seq<Reply>) returns (told: seq<Told>, ghost kept: nat)
      requires Quiet() && closed && !gone && !closeDeferred && NeverStops(script)
      modifies this
      ensures Quiet() && closed && !closeDeferred && erased == old(erased) && eofReceived == old(eofReceived)
      ensures old(readHandler).None? ==> told == [] && View([]) == old(View([]))
      ensures old(readHandler).Some? ==>
        && told != [] && told[0] == Truncated
        && var next := Deliver(old(View([])), Truncated, ReplyAt(script, 0), kept);
           && Fair(next.s, DropFirst(script), told[1..], kept)
           && View([]) == Serve(next, DropFirst(script), told[1..], kept)
    {
      ghost var mid := View([]);
      assert Undelivered([]) == readBuffer + Concat(Others(pendingReadBuffers));
      told, kept := CallReadHandler([], script);
      if mid.s.want.Some? {
        FairPrefix(mid.s, script, told, kept, 0);
        assert told[..0] == [];
        ServeShift(mid, script, told, kept);
      }
    }

    /**
     * The stream is destroyed. The adapter latches how the body stood; a waiting read is told that it was cut
     * short, and, for a count, how much of it was read before.
     */
    method Destroy(script: seq<Reply>) returns (told: seq<Told>, ghost kept: nat)
      requires Quiet() && !gone && NeverStops(script)
      modifies this
      ensures Quiet() && gone && readHandler.None?
      ensures Did(old(View([])), Move(Destroyed(CutShort(|old(delivered)|)), script, told, kept))
    {
      told, kept := [], 0;
      Latch();
      if readHandler.Some? {
        told, kept := TellAndRespond(CutShort(bytesRead), script);
      } else {
        assert delivered + [] == delivered;
      }
    }

    /** From here on, the fields stand for what detach() keeps: a body read to its end, or a truncated one. */
    method Latch()
      requires Quiet() && !gone
      modifies this`gone, this`closed, this`closeDeferred, this`eofReceived, this`pendingReadBuffers, this`readBuffer
      ensures Valid() && gone && closed && !closeDeferred && readBuffer == []
      ensures View([]) == old(View([])).(s := old(View([])).s.(q := Latched(old(View([])).s.q)))
    {
      if readBuffer == [] { assert Undelivered([]) == []; }
      gone, closed, closeDeferred := true, true, false;
      eofReceived := eofReceived && readBuffer == [];
      pendingReadBuffers, readBuffer := [], [];
      assert Undelivered([]) == [];
    }

    /** A caller gives up read `i`; the callback takes whichever is there, and tells it later. */
    method CancelRead(ghost i: nat) returns (told: seq<Told>)
      requires Quiet()
      modifies this`readHandler
      ensures Quiet() && Did(old(View([])), Move(CancelledBy(i), [], told, 0))
    {
      told := if readHandler.Some? then [Canceled] else [];
      readHandler := None;
      assert delivered + [] == delivered && told[..0] == [];
    }
  }

  function Others(chunks: seq<seq<byte>>): seq<seq<byte>> { if chunks == [] then [] else chunks[1..] }
}
