/** The stream object of the second HTTP/2 backend, its sending half, changed in place. */
module H2v2Stream {
  import opened Bytes
  import opened H2Body
  import opened H2v2Writer

  class Stream {
    const mode: Mode
    var writeBuffer: seq<byte>
    var offered: nat
    var written: nat
    var writeHandler: Option<nat>
    var isDeferred: bool
    var eofRequested: bool
    var eofSubmitted: bool
    var writeCancelled: bool
    var closed: bool
    var gone: bool // the stream is; what is left is the writer, and whether the body had been ended

    ghost function View(): Writer
      reads this
    {
      Writer(mode, writeBuffer, offered, written, writeHandler, isDeferred, eofRequested, eofSubmitted,
             writeCancelled, closed, gone)
    }

    constructor (m: Mode)
      ensures View() == Fresh(m)
    {
      mode, writeBuffer, offered, written := m, [], 0, 0;
      writeHandler, isDeferred, eofRequested, eofSubmitted := None, false, false, false;
      writeCancelled, closed, gone := false, false, false;
    }

    /** The precondition is the source's assertion. */
    method AsyncWrite(id: nat, buffer: seq<byte>, eof: bool) returns (answer: Option<Code>)
      requires AssertHolds(View(), buffer, eof)
      modifies this
      ensures answer == Answer(old(View()), buffer, eof) && View() == StartWrite(old(View()), id, buffer, eof)
    {
      if gone {
        answer := AnswerDetached(buffer, eof);
        return;
      }
      var empty := buffer == [];
      if empty && !eof { return Some(Success); }
      if eofRequested {
        if !empty { return Some(BrokenPipe); }
        if eofSubmitted { return Some(Success); }
      }
      if closed { return Some(ConnectionReset); }
      writeBuffer, offered, written := buffer, 0, 0;
      eofRequested := eofRequested || eof;
      writeHandler := Some(id);
      answer := None;
      Resume();
    }

    method AnswerDetached(buffer: seq<byte>, eof: bool) returns (answer: Option<Code>)
      ensures answer == Some(Detached(buffer, eof, eofSubmitted))
    {
      var empty := buffer == [];
      if empty && !eof { return Some(Success); }
      if eofSubmitted { return Some(if empty then Success else BrokenPipe); }
      answer := Some(ConnectionAborted);
    }

    method Resume()
      modifies this`isDeferred
      ensures !isDeferred
    {
      if isDeferred {
        isDeferred := false;
      }
    }

    /** The handler is moved out before it is told. */
    method TellHandler(code: Code) returns (told: Option<Code>)
      modifies this`writeHandler
      ensures Effect(View(), told) == Tell(old(View()), code)
    {
      told := if writeHandler.Some? then Some(code) else None;
      writeHandler := None;
    }

    /** With bytes outstanding, the stream is reset, and the answer left to its end. */
    method CancelWrite() returns (told: Option<Code>)
      modifies this
      ensures Effect(View(), told) == Cancel(old(View()))
    {
      if mode == ZeroCopy && written < offered && !closed {
        writeCancelled := true;
        return None;
      }
      told := TellHandler(Canceled);
    }

    method CloseStream() returns (told: Option<Code>)
      modifies this
      ensures Effect(View(), told) == Close(old(View()))
    {
      closed := true;
      told := TellHandler(if writeCancelled then Canceled else ConnectionReset);
    }

    /** The destructor: the writer is detached, and a parked handler told it was cancelled. */
    method DestroyStream() returns (told: Option<Code>)
      modifies this
      ensures Effect(View(), told) == Destroy(old(View()))
    {
      gone := true;
      told := TellHandler(Canceled);
    }

    method ReportOffset(len: nat) returns (told: Option<Code>)
      modifies this
      ensures Effect(View(), told) == OnWriteOffset(old(View()), len)
    {
      if mode != ZeroCopy { return None; }
      written := written + len;
      if writeHandler.None? || written < |writeBuffer| { return None; }
      told := TellHandler(Success);
    }

    method ReadData(veccnt: nat) returns (g: Given, told: Option<Code>)
      requires !isDeferred && (writeHandler.Some? ==> offered <= |writeBuffer|)
      modifies this
      ensures (Effect(View(), told), g) == DataReader(old(View()), veccnt)
    {
      told := None;
      if writeHandler.None? {
        if eofSubmitted { return JustEnd, None; }
        isDeferred := true;
        return WouldBlock, None;
      }
      var left := |writeBuffer| - offered;
      if left == 0 {
        if !eofRequested || eofSubmitted {
          isDeferred := true;
          return WouldBlock, None;
        }
        eofSubmitted := true;
        told := TellHandler(Success);
        return JustEnd, told;
      }
      if veccnt == 0 {
        isDeferred := true;
        return WouldBlock, None;
      }
      g := Offer(if mode == ZeroCopy then left else Min(left, WRITE_CHUNK_SIZE));
      if offered == |writeBuffer| && mode == Staged {
        told := TellHandler(Success);
      }
    }

    /** The next `n` bytes, and the end with the last of them. */
    method Offer(n: nat) returns (g: Given)
      requires offered + n <= |writeBuffer|
      modifies this`offered, this`eofSubmitted
      ensures offered == old(offered) + n
      ensures var end := offered == |writeBuffer| && eofRequested;
        g == Piece(writeBuffer[old(offered)..offered], end) && eofSubmitted == (old(eofSubmitted) || end)
    {
      var data, flag := writeBuffer[offered..offered + n], false;
      offered := offered + n;
      if offered == |writeBuffer| && eofRequested {
        eofSubmitted := true;
        flag := true;
      }
      g := Piece(data, flag);
    }
  }
}
