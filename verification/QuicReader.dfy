/**
 * The incoming half of a QUIC stream: chunks parked in a queue, the one chunk on loan from the packet being
 * parsed, and the loop that hands them to a reader whose handlers come back for more before it is done.
 */
module QuicReader {
  import opened Bytes
  import opened ReadQueue
  import opened ReadRuns

  /** What is left of `chunks` once `n` bytes of the first are gone. */
  function Undelivered(chunks: seq<seq<byte>>, n: nat): seq<byte>
  {
    if chunks == [] || n > |chunks[0]| then [] else chunks[0][n..] + Concat(chunks[1..])
  }

  lemma UndeliveredSplit(chunks: seq<seq<byte>>, n: nat, m: nat)
    requires chunks != [] && n <= m <= |chunks[0]|
    ensures Undelivered(chunks, n) == chunks[0][n..m] + Undelivered(chunks, m)
  {
    assert chunks[0][n..] == chunks[0][n..m] + chunks[0][m..];
    Associates(chunks[0][n..m], chunks[0][m..], Concat(chunks[1..]));
  }

  lemma UndeliveredNext(chunks: seq<seq<byte>>)
    requires chunks != []
    ensures Undelivered(chunks, |chunks[0]|) == Undelivered(chunks[1..], 0)
  {
    if chunks[1..] != [] {
      assert chunks[1..][0][0..] == chunks[1..][0];
    }
  }

  lemma UndeliveredSnoc(chunks: seq<seq<byte>>, n: nat, c: seq<byte>)
    requires chunks == [] ==> n == 0
    requires chunks != [] ==> n <= |chunks[0]|
    ensures Undelivered(chunks + [c], n) == Undelivered(chunks, n) + c
  {
    if chunks == [] {
      assert (chunks + [c])[1..] == [] && c[0..] == c;
    } else {
      assert (chunks + [c])[1..] == chunks[1..] + [c];
      ConcatSnoc(chunks[1..], c);
    }
  }

  class Stream {
    var pendingRead: seq<seq<byte>>
    var readHead: nat // how much of the first of pendingRead has been delivered
    var incoming: seq<byte>
    var eofReceived: bool
    var readHandler: Option<nat> // with the size of its buffer
    var active: bool // inside CallReadHandler
    var closed: bool
    var readAborted: bool
    var reader: bool
    var gone: bool // the stream is; what is left is the adapter, and what it latched
    var stopSent: bool // STOP_SENDING went to the peer
    var credit: nat // granted beyond the initial window
    ghost var asked: nat
    ghost var received: seq<byte>
    ghost var delivered: seq<byte>

    ghost predicate Valid()
      reads this
    {
      && (if pendingRead == [] then readHead == 0 else readHead < |pendingRead[0]|)
      && Filled(pendingRead)
      && (readHandler.Some? ==> readHandler.value > 0 && reader)
      && (gone ==> closed && (eofReceived || readAborted) && pendingRead == [] && incoming == [] && !active)
    }

    /** Between calls from outside. */
    ghost predicate Quiet()
      reads this
    {
      Valid() && !active && incoming == [] && Waits(View().s)
    }

    ghost function Queued(): seq<byte>
      reads this
    {
      Undelivered(pendingRead, readHead)
    }

    ghost function View(): Life
      reads this
    {
      Life(State(Queue(Queued() + incoming, eofReceived, closed, readAborted, reader, asked), readHandler),
           received, delivered, credit)
    }

    /** This call was the move `m`. */
    ghost predicate Did(before: Life, m: Move)
      reads this
    {
      Answered(before, m) && View() == Step(before, m)
    }

    constructor ()
      ensures Quiet() && View() == START && !stopSent && !gone
    {
      pendingRead, readHead, incoming := [], 0, [];
      eofReceived, closed, readAborted, stopSent, active, gone := false, false, false, false, false, false;
      readHandler, reader, credit := None, true, 0;
      asked, received, delivered := 0, [], [];
    }

    /** Copies what fits of the first parked chunk, and drops it once it is used up. */
    method CopyChunk(room: nat) returns (out: seq<byte>)
      requires Valid() && pendingRead != [] && room > 0
      modifies this`pendingRead, this`readHead
      ensures Valid() && old(Queued()) == out + Queued()
      ensures 0 < |out| <= room
    {
      var n := Min(room, |pendingRead[0]| - readHead);
      UndeliveredSplit(pendingRead, readHead, readHead + n);
      out := pendingRead[0][readHead..readHead + n];
      readHead := readHead + n;
      if readHead == |pendingRead[0]| {
        UndeliveredNext(pendingRead);
        pendingRead, readHead := pendingRead[1..], 0;
        assert Filled(pendingRead);
      }
    }

    /** Copies what fits of all the parked chunks. */
    method CopyQueued(size: nat) returns (out: seq<byte>)
      requires Valid()
      modifies this`pendingRead, this`readHead
      ensures Valid() && old(Queued()) == out + Queued()
      ensures |out| <= size && (|out| == size || pendingRead == [])
    {
      out := [];
      assert [] + Queued() == Queued();
      while |out| < size && pendingRead != []
        invariant Valid() && |out| <= size
        invariant old(Queued()) == out + Queued()
        decreases size - |out|
      {
        var piece := CopyChunk(size - |out|);
        Associates(out, piece, Queued());
        out := out + piece;
      }
    }

    /** Fills the waiting read's buffer: the parked chunks first, they arrived earlier. */
    method Fill() returns (out: seq<byte>)
      requires Valid() && readHandler.Some? && (pendingRead != [] || incoming != [])
      modifies this`pendingRead, this`readHead, this`incoming
      ensures Valid() && 0 < |out| <= readHandler.value && (old(incoming) == [] ==> incoming == [])
      ensures |out| == readHandler.value || (pendingRead == [] && incoming == [])
      ensures old(Queued() + incoming) == out + (Queued() + incoming)
    {
      out := CopyQueued(readHandler.value);
      Associates(out, Queued(), incoming);
      if |out| < readHandler.value && incoming != [] {
        var n := Min(readHandler.value - |out|, |incoming|);
        assert incoming == incoming[..n] + incoming[n..];
        Associates(out, incoming[..n], incoming[n..]);
        out := out + incoming[..n];
        incoming := incoming[n..];
        assert [] + incoming == incoming;
      }
    }

    /** What the waiting read can be told now, if anything, with the bytes that go with it. */
    method Answer() returns (t: Told)
      requires Valid() && readHandler.Some?
      modifies this`pendingRead, this`readHead, this`incoming, this`readHandler, this`delivered
      ensures Valid() && (old(incoming) == [] ==> incoming == [])
      ensures t.Nothing? ==> Waits(View().s) && View() == old(View())
      ensures !t.Nothing? ==> Answers(old(View()).s, t)
      ensures t.Data? ==> |t.bytes| == old(readHandler).value || View().s.q.buffered == []
      ensures !t.Nothing? ==> View() == Deliver(old(View()), t, Leave, 0).(credit := old(credit))
    {
      t := Nothing;
      if pendingRead != [] || incoming != [] {
        ghost var q := Queued() + incoming;
        var out := Fill();
        assert q[|out|..] == Queued() + incoming && q[..|out|] == out;
        t := Data(out);
        delivered := delivered + out;
      } else if eofReceived {
        t := End;
      } else if closed || readAborted {
        t := Truncated;
      }
      if !t.Nothing? {
        readHandler := None;
      }
      assert old(delivered) + [] == old(delivered);
    }

    /** Tells the waiting read what it can be told, and runs its handler. */
    method AnswerOne(r: Reply) returns (t: Told)
      requires Valid() && active && readHandler.Some?
      modifies this
      ensures Valid() && active && gone == old(gone) && (old(incoming) == [] ==> incoming == [])
      ensures t.Nothing? ==> Waits(View().s) && View() == old(View())
      ensures !t.Nothing? ==> Answers(old(View()).s, t)
      ensures !t.Nothing? ==> View() == Deliver(old(View()), t, r, 0).(credit := old(credit))
      decreases 0, if r.Leave? then 1 else 7
    {
      t := Answer();
      if !t.Nothing? {
        var nested := Respond(r, []);
      }
    }

    /** Serves waiting reads until none is left, or none that can be. A call from inside a handler only re-arms. */
    method CallReadHandler(script: seq<Reply>) returns (told: seq<Told>)
      requires Valid() && !gone
      modifies this
      ensures Valid() && active == old(active) && gone == old(gone) && (old(incoming) == [] ==> incoming == [])
      ensures Fair(old(View()).s, script, told, 0) && View() == Serve(old(View()), script, told, 0)
      ensures old(readHandler).None? || old(active) ==> told == [] && stopSent == old(stopSent)
      ensures !old(active) ==> Waits(View().s)
      decreases |script|, 2
    {
      told := [];
      assert delivered + [] == delivered;
      if readHandler.None? || active { return; }
      active := true;
      var consumed := 0;
      ghost var start := View();
      while readHandler.Some?
        invariant Valid() && active && gone == old(gone) && (old(incoming) == [] ==> incoming == [])
        invariant Fair(start.s, script, told, 0) && consumed == |Delivered(told)|
        invariant View() == Serve(start, script, told, 0).(credit := start.credit)
        invariant readHandler.Some? ==> |told| <= |script|
        decreases |script| + 1 - |told|
      {
        var t := AnswerOne(ReplyAt(script, |told|));
        if t.Nothing? { break; }
        ServeMore(start, script, told, 0, t);
        consumed := consumed + if t.Data? then |t.bytes| else 0;
        told := told + [t];
      }
      active := false;
      credit := credit + consumed;
    }

    /** What the reader does from inside its handler; `rest` is for reads answered before it returns. */
    method Respond(r: Reply, rest: seq<Reply>) returns (told: seq<Told>)
      requires Valid() && readHandler.None? && reader && (active ==> rest == [])
      modifies this
      ensures Valid() && active == old(active) && gone == old(gone) && (old(incoming) == [] ==> incoming == [])
      ensures var l := old(View()).(s := Replied(old(View()).s.q, r, 0));
        Fair(l.s, rest, told, 0) && View() == Serve(l, rest, told, 0)
      ensures if old(active) then told == [] else Waits(View().s)
      decreases |rest|, if r.Leave? then 0 else 6
    {
      told := [];
      match r
      case Leave =>
      case Again(size) => told := ReadSome(size, rest);
      case Discard => DeleteReader();
      case Stop(again) =>
        StopReading();
        told := ReadSome(again, rest);
      case Kill(again) =>
        closed := true;
        told := ReadSome(again, rest);
    }

    /** A read for nothing is answered on the spot; any other waits its turn, which may be now. */
    method AsyncReadSome(size: nat, script: seq<Reply>) returns (told: seq<Told>)
      requires Valid() && readHandler.None? && reader
      modifies this
      ensures Valid() && active == old(active) && gone == old(gone) && (old(incoming) == [] ==> incoming == [])
      ensures Did(old(View()), Move(Asked(size), script, told, 0))
      ensures if old(active) then told == [] && stopSent == old(stopSent) else Waits(View().s)
      decreases |script|, 5
    {
      told := ReadSome(size, script);
    }

    method ReadSome(size: nat, script: seq<Reply>) returns (told: seq<Told>)
      requires Valid() && readHandler.None? && reader
      modifies this
      ensures Valid() && active == old(active) && gone == old(gone) && (old(incoming) == [] ==> incoming == [])
      ensures var l := old(View()).(s := Asks(old(View()).s.q, size));
        Fair(l.s, script, told, 0) && View() == Serve(l, script, told, 0)
      ensures if old(active) then told == [] && stopSent == old(stopSent) else Waits(View().s)
      decreases |script|, 4
    {
      if size == 0 {
        told := [];
        assert delivered + [] == delivered;
        return;
      }
      readHandler := Some(size);
      asked := asked + 1;
      if gone {
        told := AnswerDetached(script);
      } else {
        told := CallReadHandler(script);
      }
    }

    /** Without its stream, the adapter answers from what detach() latched, again and again. */
    method AnswerDetached(script: seq<Reply>) returns (told: seq<Told>)
      requires Valid() && gone && readHandler.Some?
      modifies this
      ensures Valid() && !active && gone && incoming == [] && Waits(View().s)
      ensures Fair(old(View()).s, script, told, 0) && View() == Serve(old(View()), script, told, 0)
      decreases |script|, 3
    {
      var t := if eofReceived then End else Truncated;
      readHandler := None;
      assert delivered + [] == delivered;
      var rest := Respond(ReplyAt(script, 0), DropFirst(script));
      told := [t] + rest;
      assert told[1..] == rest;
      ServeShift(old(View()), script, told, 0);
    }

    /** The reader goes away: what it has not read is dropped, and a peer with more of it told to stop. */
    method DeleteReader()
      requires Valid() && readHandler.None?
      modifies this`pendingRead, this`readHead, this`incoming, this`reader, this`stopSent
      ensures Valid() && incoming == []
      ensures View() == Touch(old(View()), Dropped, 0) && Did(old(View()), Move(Dropped, [], [], 0))
      ensures stopSent == (old(stopSent) || (!eofReceived && !closed && !readAborted))
    {
      LetGo();
      if !eofReceived && !closed && !readAborted {
        stopSent := true;
      }
      SilentMove(old(View()), Dropped, 0);
    }

    method LetGo()
      requires Valid() && readHandler.None?
      modifies this`pendingRead, this`readHead, this`incoming, this`reader
      ensures Valid() && incoming == [] && View() == Touch(old(View()), Dropped, 0)
    {
      reader := false;
      pendingRead, readHead, incoming := [], 0, [];
    }

    /** The reader asks the peer to stop, unless there is nothing left to stop. */
    method StopReading()
      requires Valid() && readHandler.None?
      modifies this
      ensures Valid() && active == old(active) && gone == old(gone) && reader == old(reader)
      ensures old(incoming) == [] ==> incoming == []
      ensures View() == old(View()).(s := State(if old(closed) then old(View()).s.q else Abort(old(View()).s.q), None))
      ensures stopSent == (old(stopSent) || !(old(closed) || old(readAborted) || old(eofReceived)))
      decreases 0, 5
    {
      if closed || readAborted || eofReceived { return; }
      stopSent := true;
      var told := AbortReading([]);
    }

    method AbortReading(script: seq<Reply>) returns (told: seq<Told>)
      requires Valid()
      requires active || gone ==> readHandler.None?
      requires !active ==> Waits(View().s)
      modifies this
      ensures Valid() && active == old(active) && gone == old(gone) && (old(incoming) == [] ==> incoming == [])
      ensures Did(old(View()), Move(Aborted, script, told, 0))
      ensures old(readHandler).None? ==> told == [] && stopSent == old(stopSent)
      ensures !active ==> Waits(View().s)
      decreases |script|, 3
    {
      told := [];
      SilentMove(View(), Aborted, 0);
      if eofReceived || readAborted { return; }
      DropRest();
      told := CallReadHandler(script);
    }

    method DropRest()
      requires Valid() && !eofReceived && !readAborted
      modifies this`pendingRead, this`readHead, this`incoming, this`readAborted
      ensures Valid() && incoming == []
      ensures View() == Touch(old(View()), Aborted, 0)
    {
      readAborted := true;
      pendingRead, readHead, incoming := [], 0, [];
    }

    /** A chunk arrives: offered to the reader where it lies, and only what is left of it parked. */
    method OnDataChunk(data: seq<byte>, script: seq<Reply>) returns (told: seq<Told>)
      requires Quiet() && !gone
      modifies this
      ensures Quiet() && Did(old(View()), Move(Arrived(data), script, told, 0))
    {
      told := [];
      assert Queued() + [] == Queued() && received + [] == received && delivered + [] == delivered;
      if data == [] { return; }
      received := received + data;
      incoming := data;
      told := CallReadHandler(script);
      if incoming != [] {
        Park();
      }
    }

    /** Copies what the reader left of the chunk on loan behind the parked ones. */
    method Park()
      requires Valid() && incoming != []
      modifies this`pendingRead, this`incoming
      ensures Valid() && incoming == [] && View() == old(View())
    {
      UndeliveredSnoc(pendingRead, readHead, incoming);
      FilledSnoc(pendingRead, incoming);
      pendingRead := pendingRead + [incoming];
      incoming := [];
      assert Queued() + [] == Queued();
    }

    method OnEof(script: seq<Reply>) returns (told: seq<Told>)
      requires Quiet() && !gone
      modifies this
      ensures Quiet() && Did(old(View()), Move(Ended, script, told, 0))
    {
      eofReceived := true;
      told := CallReadHandler(script);
    }

    /** A caller gives up read `i`; the callback takes whichever is there, and tells it later. */
    method CancelRead(ghost i: nat) returns (told: seq<Told>)
      requires Quiet()
      modifies this`readHandler
      ensures Quiet() && Did(old(View()), Move(CancelledBy(i), [], told, 0))
    {
      told := if readHandler.Some? then [Canceled] else [];
      readHandler := None;
      assert delivered + [] == delivered && told[..0] == [];
    }

    /**
     * The stream dies. A waiting read is told that the body was cut short -- or, if the stream closed without
     * an error, nothing at all -- and its handler's own reads are answered before this returns.
     */
    method Fail(ec: Option<Error>, script: seq<Reply>) returns (told: seq<Told>)
      requires Quiet()
      modifies this
      ensures Quiet() && Did(old(View()), Move(Died(ec), script, told, 0))
    {
      told := [];
      closed := true;
      assert delivered + [] == delivered;
      if readHandler.Some? {
        told := TellAndRespond(FailsWith(ec, eofReceived), script);
      }
    }

    /** The waiting read is told `t`, and what its handler asks for then is answered before this returns. */
    method TellAndRespond(t: Told, script: seq<Reply>) returns (told: seq<Told>)
      requires Valid() && !active && incoming == [] && readHandler.Some? && !t.Data?
      modifies this
      ensures Quiet() && gone == old(gone) && told != [] && told[0] == t
      ensures var next := Deliver(old(View()), t, ReplyAt(script, 0), 0);
        Fair(next.s, DropFirst(script), told[1..], 0) && View() == Serve(next, DropFirst(script), told[1..], 0)
    {
      readHandler := None;
      assert delivered + [] == delivered;
      var rest := Respond(ReplyAt(script, 0), DropFirst(script));
      told := [t] + rest;
      assert told[1..] == rest;
    }

    /**
     * The stream is destroyed. The adapter latches how the body stood, and a waiting read is told of a reset
     * connection, however it stood.
     */
    method DetachAll(script: seq<Reply>) returns (told: seq<Told>)
      requires Quiet() && !gone
      modifies this
      ensures Quiet() && gone && Did(old(View()), Move(Destroyed(Failed(ConnectionReset)), script, told, 0))
    {
      told := [];
      Latch();
      if readHandler.Some? {
        told := TellAndRespond(Failed(ConnectionReset), script);
      } else {
        assert delivered + [] == delivered;
      }
    }

    /** From here on, the fields stand for what detach() keeps: a body read to its end, or a truncated one. */
    method Latch()
      requires Quiet() && !gone
      modifies this`gone, this`eofReceived, this`closed, this`readAborted, this`pendingRead, this`readHead
      ensures Valid() && gone && View() == old(View()).(s := old(View()).s.(q := Latched(old(View()).s.q)))
    {
      if pendingRead != [] { assert Queued() != []; }
      var finished := eofReceived && pendingRead == [];
      gone, closed := true, true;
      eofReceived, readAborted := finished, !finished;
      pendingRead, readHead := [], 0;
    }
  }
}
