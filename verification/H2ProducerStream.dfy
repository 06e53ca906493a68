/** The stream object of the first HTTP/2 backend, its sending half, changed in place. */
module H2ProducerStream {
  import opened Bytes
  import opened H2Body
  import opened H2Producer

  class Stream {
    var writeBuffer: seq<byte> // what is left to copy
    var writeHandler: Option<nat>
    var isDeferred: bool
    var eofRequested: bool
    var eofSubmitted: bool
    var closed: bool
    var gone: bool // the stream is; what is left is the writer, and whether the body had been ended

    ghost function View(): Producer
      reads this
    {
      Producer(writeBuffer, writeHandler, isDeferred, eofRequested, eofSubmitted, closed, gone)
    }

    constructor ()
      ensures View() == FRESH
    {
      writeBuffer, writeHandler, isDeferred := [], None, false;
      eofRequested, eofSubmitted, closed, gone := false, false, false, false;
    }

    /** The precondition is the source's assertion. */
    method AsyncWrite(id: nat, buffer: seq<byte>, eof: bool) returns (answer: Option<Code>)
      requires AssertHolds(View(), buffer, eof)
      modifies this
      ensures answer == Answer(old(View()), buffer, eof) && View() == StartWrite(old(View()), id, buffer, eof)
    {
      if gone {
        answer := AnswerDetached(buffer, eof);
        return;
      }
      var empty := buffer == [];
      if empty && !eof { return Some(Success); }
      if eofRequested {
        if !empty { return Some(BrokenPipe); }
        if eofSubmitted { return Some(Success); }
      }
      if closed { return Some(ConnectionReset); }
      writeBuffer := buffer;
      eofRequested := eofRequested || eof;
      writeHandler := Some(id);
      answer := None;
      Resume();
    }

    method AnswerDetached(buffer: seq<byte>, eof: bool) returns (answer: Option<Code>)
      ensures answer == Some(Detached(buffer, eof, eofSubmitted))
    {
      var empty := buffer == [];
      if empty && !eof { return Some(Success); }
      if eofSubmitted { return Some(if empty then Success else BrokenPipe); }
      answer := Some(ConnectionAborted);
    }

    method Resume()
      modifies this`isDeferred
      ensures !isDeferred
    {
      if isDeferred {
        isDeferred := false;
      }
    }

    /** The handler is moved out before it is told. */
    method Tell(code: Code) returns (told: Option<Code>)
      modifies this`writeHandler
      ensures writeHandler.None? && told == if old(writeHandler).Some? then Some(code) else None
    {
      told := if writeHandler.Some? then Some(code) else None;
      writeHandler := None;
    }

    method CancelWrite() returns (told: Option<Code>)
      modifies this
      ensures Effect(View(), told) == Cancel(old(View()))
    {
      told := Tell(Canceled);
    }

    method CloseStream() returns (told: Option<Code>)
      modifies this
      ensures Effect(View(), told) == Close(old(View()))
    {
      closed := true;
      told := Tell(ConnectionReset);
    }

    /** The destructor: the writer is detached, and a parked handler told it was cancelled. */
    method DestroyStream() returns (told: Option<Code>)
      modifies this
      ensures Effect(View(), told) == Destroy(old(View()))
    {
      gone := true;
      told := Tell(Canceled);
    }

    /** The assertions of producer_callback() are about the stack, and so is the precondition. */
    method ProducerCallback(length: nat) returns (p: Produced, told: Option<Code>)
      requires closed || (!isDeferred && !eofSubmitted)
      requires writeHandler.Some? && writeBuffer == [] ==> eofRequested || closed
      modifies this
      ensures (Effect(View(), told), p) == Produce(old(View()), length)
    {
      told := None;
      if closed { return Failure, None; }
      if writeHandler.None? {
        isDeferred := true;
        return Deferred, None;
      }
      if writeBuffer == [] {
        eofSubmitted := true;
        told := Tell(Success);
        return Frame([], true), told;
      }
      var copied := Min(length, |writeBuffer|);
      var data, flag := writeBuffer[..copied], false;
      writeBuffer := writeBuffer[copied..];
      if writeBuffer == [] {
        if eofRequested {
          eofSubmitted := true;
          flag := true;
        }
        told := Tell(Success);
      }
      p := Frame(data, flag);
    }
  }
}
