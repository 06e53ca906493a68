/**
 * The outgoing half of class QuicStream (src/quic/stream.cpp), the way it is written: fields that
 * methods update in place. Each method is proved to take exactly the step `QuicTx` describes, which
 * makes everything that holds of all runs of those steps hold of this class.
 */
module QuicStream {
  import opened Bytes
  import opened QuicTx
  import opened QuicTxInvariant
  import opened QuicTxOffer

  class Stream {
    const writeMode: Mode
    const driver: Driver
    var writeActive: bool
    var writeSource: seq<byte>
    var writeIsEof: bool
    var writeHandler: Option<nat>
    var writeToken: nat
    var nextWriteToken: nat
    var eofSubmitted: bool
    var finOffered: bool
    var writeBase: nat
    var writeCopied: nat
    var txQueued: nat
    var txOffered: nat
    var txSent: nat
    var txAcked: nat
    var chunks: seq<Chunk>
    var closed: bool
    var writeAborted: bool

    function View(): Tx
      reads this
    {
      Tx(writeMode, driver, writeActive, writeSource, writeIsEof, writeHandler, writeToken, nextWriteToken,
         eofSubmitted, finOffered, writeBase, writeCopied, txQueued, txOffered, txSent, txAcked, chunks,
         closed, writeAborted)
    }

    constructor (mode: Mode, driver: Driver)
      ensures View() == Fresh(mode, driver)
    {
      this.writeMode, this.driver := mode, driver;
      writeActive, writeSource, writeIsEof, writeHandler := false, [], false, None;
      writeToken, nextWriteToken, eofSubmitted, finOffered := 0, 1, false, false;
      writeBase, writeCopied, txQueued, txOffered, txSent, txAcked := 0, 0, 0, 0, 0, 0;
      chunks, closed, writeAborted := [], false, false;
    }

    /** `done`: the handlers completed, now or later; `writable`: whether on_writable() is called. */
    method StartWrite(id: nat, buffer: seq<byte>, eof: bool) returns (done: seq<Completion>, writable: bool)
      requires AssertsHold(View(), buffer, eof)
      modifies this
      ensures Effect(View(), done, writable) == QuicTx.StartWrite(old(View()), id, buffer, eof)
    {
      done, writable := [], false;
      if |buffer| == 0 && !eof {
        return [Completion(id, Success)], false;
      }
      if eofSubmitted {
        if |buffer| > 0 {
          return [Completion(id, BrokenPipe)], false;
        }
        if writeActive && writeIsEof && !closed && !writeAborted {
          assert writeHandler.None?;
          writeHandler := Some(id);
          return;
        }
        var dead := closed || writeAborted;
        return [Completion(id, if dead && !finOffered then ConnectionReset else Success)], false;
      }
      if closed || writeAborted {
        return [Completion(id, ConnectionReset)], false;
      }
      assert !writeActive;
      BeginWrite(id, buffer, eof);
      writable := true;
    }

    /** A write that has been accepted, lines 269-288. */
    method BeginWrite(id: nat, buffer: seq<byte>, eof: bool)
      requires Starts(View(), buffer, eof) && !writeActive
      modifies this
      ensures Effect(View(), [], true) == QuicTx.StartWrite(old(View()), id, buffer, eof)
    {
      TakeToken(eof);
      ReferTo(buffer);
      writeActive, writeIsEof, writeHandler := true, eof, Some(id);
    }

    method TakeToken(eof: bool)
      modifies this`eofSubmitted, this`writeToken, this`nextWriteToken
      ensures View() == old(View()).(eofSubmitted := old(eofSubmitted) || eof, token := old(nextWriteToken),
                                     nextToken := old(nextWriteToken) + 1)
    {
      eofSubmitted := eofSubmitted || eof;
      writeToken := nextWriteToken;
      nextWriteToken := nextWriteToken + 1;
    }

    /** The write is where the body ends so far. */
    method ReferTo(buffer: seq<byte>)
      modifies this`writeSource, this`writeBase, this`writeCopied, this`txQueued
      ensures View() == old(View()).(source := buffer, base := old(txQueued), copied := 0,
                                     queued := old(txQueued) + if writeMode == ZeroCopy then |buffer| else 0)
    {
      writeSource := buffer;
      writeBase := txQueued;
      writeCopied := 0;
      txQueued := writeBase + if writeMode == ZeroCopy then |buffer| else 0;
    }

    method ResetWriting()
      modifies this`closed, this`writeAborted
      ensures View() == QuicTx.ResetWriting(old(View()))
    {
      if driver == Plain { writeAborted := true; } else { closed := true; }
    }

    /** The callback that bind_write_cancellation() installs for `token`. */
    method Cancel(token: nat) returns (done: seq<Completion>)
      modifies this
      ensures Effect(View(), done, false) == QuicTx.Cancel(old(View()), token)
    {
      if writeToken != token || writeHandler.None? {
        return [];
      }
      done := [Completion(writeHandler.value, Canceled)];
      if writeIsEof && |writeSource| == 0 {
        writeHandler := None;
        return;
      }
      DropWrite();
    }

    /** A cancelled write that carries data, lines 326-370. */
    method DropWrite()
      requires writeHandler.Some? && !CancelDetaches(View())
      modifies this
      ensures View() == QuicTx.Cancel(old(View()), old(writeToken)).tx
    {
      if writeMode == ZeroCopy {
        Unqueue();
      }
      eofSubmitted := eofSubmitted && !(writeIsEof && (writeMode == ZeroCopy || !finOffered));
      Forget();
    }

    /** Zero copy: what was not handed over is no longer there to send; what was, and is not
        acknowledged, takes a reset to stop being referenced. */
    method Unqueue()
      modifies this`txQueued, this`closed, this`writeAborted
      ensures var resets := old(txOffered > txAcked && !closed && !writeAborted);
        View() == old(View()).(queued := txOffered,
                               aborted := old(writeAborted) || (resets && driver == Plain),
                               closed := old(closed) || (resets && driver == Http3))
    {
      if txOffered > txAcked && !closed && !writeAborted {
        ResetWriting();
      }
      txQueued := txOffered;
    }

    method Forget()
      modifies this`writeActive, this`writeSource, this`writeHandler
      ensures View() == old(View()).(active := false, source := [], handler := None)
    {
      writeActive := false;
      writeSource := [];
      writeHandler := None;
    }

    method PendingData(from: nat, room: nat) returns (vec: seq<Slice>, end: nat, fin: bool)
      modifies this`chunks, this`writeCopied, this`txQueued
      ensures Offer(View(), vec, end, fin) == QuicTx.PendingData(old(View()), from, room)
    {
      if room == 0 || closed || writeAborted {
        return [], from, false;
      }
      var total := |writeSource|;
      if writeMode == Staged && writeActive && txSent >= txQueued && writeCopied < total {
        var take := Min(total - writeCopied, WRITE_CHUNK_SIZE);
        chunks := chunks + [Chunk(txQueued, writeSource[writeCopied..writeCopied + take])];
        writeCopied := writeCopied + take;
        txQueued := txQueued + take;
      }
      assert View() == Carve(old(View()));
      vec, end := [], from;
      if writeMode == ZeroCopy {
        if writeActive && from < txQueued {
          vec := [Caller(from - writeBase, txQueued - writeBase)];
          end := txQueued;
        }
      } else {
        vec, end := GatherChunks(from, room);
      }
      var allQueued := writeMode == ZeroCopy || writeCopied == total;
      fin := writeActive && writeIsEof && allQueued && end >= txQueued;
    }

    /** The loop over the chunks, lines 417-427. */
    method GatherChunks(from: nat, room: nat) returns (vec: seq<Slice>, end: nat)
      ensures vec == Gather(chunks, from, room) && end == GatherEnd(chunks, from, room, from)
    {
      vec, end := [], from;
      var i := 0;
      while i < |chunks| && |vec| < room
        invariant i <= |chunks| && |vec| <= room
        invariant Gather(chunks, from, room) == vec + Gather(chunks[i..], from, room - |vec|)
        invariant GatherEnd(chunks, from, room, from) == GatherEnd(chunks[i..], from, room - |vec|, end)
      {
        var c := chunks[i];
        assert chunks[i..][0] == c && chunks[i..][1..] == chunks[i + 1..];
        if c.End() > from {
          var skip := if from > c.offset then from - c.offset else 0;
          ghost var rest := Gather(chunks[i + 1..], from, room - |vec| - 1);
          assert vec + ([Held(c, skip, |c.data|)] + rest) == (vec + [Held(c, skip, |c.data|)]) + rest;
          vec := vec + [Held(c, skip, |c.data|)];
          end := c.End();
        }
        i := i + 1;
      }
    }

    method OnOffered(end: nat, fin: bool) returns (done: seq<Completion>)
      modifies this
      ensures Effect(View(), done, false) == QuicTx.OnOffered(old(View()), end, fin)
    {
      done := [];
      txOffered := Max(txOffered, Min(end, txQueued));
      if fin {
        finOffered := true;
        if writeActive && |writeSource| == 0 {
          done := FinishActiveWrite();
        }
      }
    }

    method OnSent(end: nat) returns (done: seq<Completion>, writable: bool)
      modifies this
      ensures Effect(View(), done, writable) == QuicTx.OnSent(old(View()), end)
    {
      done, writable := [], false;
      if end <= txSent {
        return;
      }
      txSent := Min(end, txOffered);
      if writeMode != Staged || !writeActive || txSent < txQueued || |writeSource| == 0 {
        return;
      }
      if writeCopied == |writeSource| {
        done := FinishActiveWrite();
      } else {
        writable := true;
      }
    }

    method OnAcked(end: nat) returns (done: seq<Completion>)
      modifies this
      ensures Effect(View(), done, false) == QuicTx.OnAcked(old(View()), end)
    {
      done := [];
      var e := Min(end, txOffered);
      if e <= txAcked {
        return;
      }
      txAcked := e;
      while |chunks| > 0 && chunks[0].End() <= txAcked
        invariant View() == old(View()).(acked := e, chunks := chunks)
        invariant DropAcked(chunks, e) == DropAcked(old(chunks), e)
        decreases |chunks|
      {
        chunks := chunks[1..];
      }
      if writeMode == ZeroCopy && writeActive && |writeSource| > 0 && txAcked >= writeBase + |writeSource| {
        done := FinishActiveWrite();
      }
    }

    method FinishActiveWrite() returns (done: seq<Completion>)
      requires writeActive
      modifies this`writeSource, this`writeHandler, this`writeActive
      ensures Effect(View(), done, false) == Finish(old(View()))
    {
      writeSource := [];
      var handler := writeHandler;
      writeHandler := None;
      writeActive := false;
      done := if handler.Some? then [Completion(handler.value, Success)] else [];
    }

    method AbortWriting(code: Code) returns (done: seq<Completion>)
      modifies this
      ensures Effect(View(), done, false) == QuicTx.AbortWriting(old(View()), code)
    {
      done := [];
      writeAborted := true;
      if !writeActive {
        return;
      }
      writeActive := false;
      writeSource := [];
      if writeHandler.Some? {
        done := [Completion(writeHandler.value, code)];
        writeHandler := None;
      }
    }

    /** The writing part of fail(). */
    method Fail(code: Code) returns (done: seq<Completion>)
      modifies this
      ensures Effect(View(), done, false) == QuicTx.Fail(old(View()), code)
    {
      done := [];
      closed := true;
      if writeActive {
        writeActive := false;
        writeSource := [];
        if writeHandler.Some? {
          done := [Completion(writeHandler.value, if code == Success then ConnectionReset else code)];
          writeHandler := None;
        }
      }
    }

    /** delete_writer() of plain streams, and of HTTP/3 streams (src/h3/stream.cpp). */
    method DeleteWriter(headersSubmitted: bool) returns (done: seq<Completion>)
      modifies this
      ensures Effect(View(), done, false) == QuicTx.DeleteWriter(old(View()), headersSubmitted)
    {
      done := [];
      if driver == Plain {
        if !closed && !writeAborted && !eofSubmitted {
          ResetWriting();
          done := AbortWriting(ConnectionReset);
        }
      } else if !closed {
        if !headersSubmitted {
          closed := true;
        } else if !eofSubmitted {
          done := Fail(PartialMessage);
        }
      }
    }

    /**
     * Http3Stream::data_reader(), which also tells nghttp3 to hold on to what it is given: all of the
     * body that it has not been given before.
     */
    method DataReader(room: nat, ghost body: seq<byte>) returns (vec: seq<Slice>, fin: bool, done: seq<Completion>)
      requires driver == Http3 && TxInv(View(), body)
      modifies this
      ensures var o := QuicTx.PendingData(old(View()), old(txOffered), room);
        vec == o.slices && fin == o.fin && Effect(View(), done, false) == Http3Taken(o)
      ensures room > 0 && Live(old(View())) ==>
        var o := QuicTx.PendingData(old(View()), old(txOffered), room);
        var body' := BodyAfterPending(old(View()), body, room);
        AllInBounds(o.tx, vec) && old(txOffered) <= |body'| && Gathered(o.tx, vec) == body'[old(txOffered)..]
    {
      done := [];
      if room == 0 {
        return [], false, [];
      }
      if Live(View()) {
        OfferIsRestOfBody(View(), body, room);
      }
      var end;
      vec, end, fin := PendingData(txOffered, room);
      if |vec| == 0 && !fin {
        return;
      }
      done := OnOffered(end, fin);
    }

    method OnWriteOffered(n: nat) returns (done: seq<Completion>, writable: bool)
      requires driver == Http3 && txSent <= txOffered
      modifies this
      ensures Effect(View(), done, writable) == Http3Sent(old(View()), n)
    {
      done, writable := [], false;
      if n > 0 {
        done, writable := OnSent(txSent + Min(n, txOffered - txSent));
      }
    }

    method OnWriteAcked(n: nat) returns (done: seq<Completion>)
      requires driver == Http3 && txSent <= txOffered
      modifies this
      ensures Effect(View(), done, false) == Http3Acked(old(View()), n)
    {
      done := [];
      if n > 0 {
        done := OnAcked(txAcked + n);
      }
    }
  }
}
