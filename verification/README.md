# anyhttp, the byte streams under the Reader and Writer API

A Dafny model of the parts of anyhttp that move bytes and keep promises about them, and proofs of those
promises for every input, every run or every reachable state. `dafny verify dfyconfig.toml` checks all of it.

Where the source changes objects in place, the model has a class with the same fields whose methods are proved
against functions on values; the theorems are about those functions and about whole runs of them.

- **Outgoing QUIC body.** `QuicTx` is the outgoing half of a stream as a value, one function per operation, and
  `QuicStream.Stream` the object that refines it. `QuicTxInvariant` is the invariant, `QuicTxOffer` what an offer
  amounts to. `QuicRuns` adds the history (calls, accepted writes, bytes handed to the stack) and both drivers,
  plain streams and HTTP/3; `QuicTheorems` has the results over all runs, `QuicAnswers` what every call is told and
  `QuicEffects` what every other event comes to, in terms of the run.
- **Write scheduler.** `QuicApp` is the round-robin queue of plain streams and the packing loop as functions,
  `StreamApplication.Application` the object, with `WritePkt` and its termination measure. `QuicAppProofs` has the
  invariant over all interleavings; `QuicAppRuns` says whose turn it is, what blocks a stream and what lets it go, and
  that each stream of a connection lives as it would alone.
- **Incoming bodies.** `ReadQueue` says what a reader may be told, `ReadRuns` what follows over whole lives of a
  stream, and `QuicReader.Stream` and `H2Reader.Stream` are two read loops that both refine it, with handlers that
  come back for more from inside the loop. `ReadHistory` tells where a body stands, and what each read is told, from the
  history alone.
- **HTTP/2 writers.** `H2Body` is the history of a body: calls, accepted writes, bytes and end given to the stack.
  `H2Producer` has every step of the copying writer and its theorems over all runs, `H2v2Writer` and `H2v2Theorems`
  those of the by-reference writer; `H2ProducerAnswers` and `H2v2Answers` say what every call is told, by history;
  `H2ProducerStream.Stream` and `H2v2Stream.Stream` are the objects.
- **HTTP/1.1 client session.** `H1Client` has every step of the session, its requests and its responses, with reads
  and writes that begin in one step and end in another; `H1ClientInvariant` and `H1ClientTheorems` what holds on all
  runs; `H1Facts` gives each fact with all that can bring it about, and the answers in terms of those facts;
  `H1Session.ClientSession` is the object.
- **Alt-Svc.** `AltSvc` are the parser's steps as functions on what is left of the input, `AltSvcParser` the parser
  with its position, `AltSvcSplit` the decomposition, `AltSvcPrint` and `AltSvcTheorems` the way back;
  `AltSvcGrammar` and `AltSvcAccepts` say exactly which texts are accepted, and what they say.
- **Server shutdown** (`ServerShutdown`, `ServerImpl.Impl`) and the **file cache** (`FileCache`).

Some promises turn out not to hold as one would like. Each is given with its exact condition and a run on which it
fails.

- The Reader contract has data, the end, or a truncation, and a cancellation for the read it was asked for. A run tells a
  read something else if and only if, while a read waits, the stream closes without an error (success, no bytes), or is
  destroyed -- in QUIC always (`connection_reset`), in HTTP/2 once some of the body has been read (a truncation that
  counts those bytes) -- or another read is cancelled late. `ReadRuns.ContractBrokenExactly`; `ReadRuns.ContractBroken`,
  `ReadRuns.ContractBrokenByCount` and `ReadRuns.LateReadCancellationHappens` are the runs.
- A cancellation that comes late, for a write that has long been answered, does touch another one. In QUIC, if and only
  if that other one is a re-issued end of body that adopted the pending FIN (`QuicTheorems.LateCancellation`). In HTTP/2,
  where the callback carries no token, if and only if any call is parked, and, by reference, the stream has not been
  reset for it already (`H2Producer.LateCancellation`, `H2v2Theorems.LateCancellation`).
- A by-reference HTTP/2 write that nobody cancelled is told that it was, if and only if a late cancellation finds none
  of its bytes outstanding, or the stream closes after an earlier cancellation had reset it, or is destroyed
  (`H2v2Theorems.ToldCanceledUnasked`, `H2v2Theorems.ToldCanceledHappens`, `H2v2Theorems.DestructionCancels`). For the
  copying writer: a late cancellation, or destruction (`H2Producer.ToldCanceledUnasked`).
- The by-reference HTTP/2 writer parks work on a deferred source, with nobody left to wake it, if and only if it has
  bytes to give and is asked without room for any (`H2v2Theorems.StarvesExactly`, `H2v2Theorems.StarvesOnce`).

Where the code and its comments disagree, the model follows the code: an HTTP/2 reader that goes away is meant to drop
what it has not read, but the adapter has unset `reader` by then, so that the stream counts as read to its end and
keeps it all (`src/h2/stream.cpp:39-47`, `include/anyhttp/h2/stream.hpp:130`).

## Model

| member | source | states |
|---|---|---|
| QuicTheorems.StepKeepsInv | src/quic/stream.cpp:195-536 | Every step of either driver, every call, cancellation and teardown keeps the invariant: `acked <= offered <= queued`, `sent <= offered`, chunks that tile the body up to `queued`, handler and FIN bookkeeping; and acked, sent and what was handed over only grow. |
| QuicTheorems.RunKeepsInv | src/quic/stream.cpp:195-536 | The same over whole runs. |
| QuicTheorems.TransmitsTheBody | src/quic/stream.cpp:195-291 | On every run, the bytes handed to the stack are a beginning of the concatenation of what the accepted writes contributed, each a beginning of its buffer, and a write that succeeded contributed all of it. |
| QuicTheorems.OffersTheRest | src/quic/stream.cpp:378-439 | Whenever a live stream is asked, in both modes and for either driver, what was handed over before plus what is offered now is exactly the body; all slices lie inside the caller's buffer or a held chunk; the FIN is offered exactly when the active write ends the body and is all queued. |
| QuicTxOffer.PendingDataIsBody | src/quic/stream.cpp:378-439 | From any offset the stack may still need, the slices concatenate to the body from there to where the offer says it ends. |
| QuicTxOffer.GatherExact | src/quic/stream.cpp:414-427 | Gathering over contiguous chunks yields exactly the stretch of the body they cover, and stops short only for want of vector entries. |
| QuicTheorems.HandedOverForGood | src/quic/stream.cpp:441-507 | Bytes once handed over are never handed over differently, and acked and sent never go back, whatever happens later. |
| QuicTheorems.StagedHoldsUnacknowledged | src/quic/stream.cpp:392-399 | Every byte not yet acknowledged is in a held chunk, at its place, with its value. |
| QuicTheorems.BufferReleased | src/quic/stream.cpp:326-348 | Zero copy: once a write has been answered, and the stream lives, all of its bytes are acknowledged. |
| QuicTheorems.NothingOutstanding | src/quic/stream.cpp:482-536 | Zero copy: with no write active on a live stream, acked, offered and queued agree. |
| QuicTheorems.FinMarksTheEnd | src/quic/stream.cpp:430-456 | A FIN is handed over only for an accepted write that was to end the body; on a live stream it is the last one, and all of the body went with it. |
| QuicTheorems.FinFreezesTheBody | src/quic/stream.cpp:216-253 | After the FIN, a stream that lives on gets no other byte and no other write (section 4.5 of RFC 9000). |
| QuicTheorems.EndReportedIsEndSent | src/quic/stream.cpp:216-253 | A write_eof that reports success implies that the FIN was handed over, through cancels, roll-backs and adopted re-ends. |
| QuicTheorems.AnsweredExactlyOnce | src/quic/stream.cpp:195-374 | Every call is answered exactly once, unless its handler is the one that is parked; answers never change; a parked handler has an active write; the assertions of start_write() never fire under the one-write discipline. |
| QuicTheorems.DestructorAnswersTheRest | src/quic/stream.cpp:36-51 | The destructor answers the one call that is still parked, and no other. |
| QuicTheorems.LateCancellation | src/quic/stream.cpp:293-371 | When a cancellation for an answered call does anything: if and only if another call is parked under its token; that is then an adopted end of body, and only it is answered. |
| QuicTheorems.LateCancellationHappens | src/quic/stream.cpp:226-247 | A run on which it does. |
| QuicAnswers.WhatTheParkedCallIsTold | src/quic/stream.cpp:293-536 | What the parked call is told by each event of a run, exactly: success if and only if the stack is then done with its write -- zero copy, all of it acknowledged; staged, all of it sent; a bare end, its FIN given -- and otherwise its own cancellation, the code of an abort or a failure (a reset if there is none), or what its dropped writer means for either driver. |
| QuicAnswers.WhatACallIsTold | src/quic/stream.cpp:195-291 | What a new call is told on the spot, or that it is parked, by what has happened on the stream: data past an end breaks the pipe, a re-issued end succeeds exactly if the FIN was given, adopts it while that is pending, and is reset if it never will be; and exactly what an accepted write adds to the body. |
| QuicEffects.WhatIsHandedOver | src/quic/stream.cpp:378-456 | Every offer: a staged write is copied 16 KiB at a time, and only once all before it has been sent; HTTP/3 takes all there is, a plain stream what ngtcp2 wrote; the FIN goes exactly with the last byte of an ended body. |
| QuicEffects.WhatIsCounted | src/quic/stream.cpp:458-507 | A report moves its own counter as far as anything was handed over, and nothing else. |
| QuicEffects.WhatIsCancelled | src/quic/stream.cpp:293-371 | A cancellation does something exactly to the write of its token: a bare end only loses its handler; of a buffer, zero copy keeps what was handed over, staging what was copied. |
| QuicEffects.DiesExactly | src/quic/stream.cpp:326-348 | A live stream dies exactly by an abort, a failure, a writer that goes before the end of its body, or a cancellation that finds bytes of the caller's buffer in the stack's hands. |
| QuicEffects.NoLostWakeUp | src/quic/stream.cpp:458-480 | A step after which a live stream newly has bytes, a chunk or a FIN to hand over calls on_writable(). |
| QuicTxInvariant.CancelInv | src/quic/stream.cpp:293-371 | Resetting, detaching and rolling back all keep the invariant, for the body cut to what each mode leaves of the cancelled write. |
| QuicTxInvariant.OnAckedInv | src/quic/stream.cpp:482-507 | Dropping acknowledged chunks keeps the rest tiling the body. |
| QuicStream.Stream.StartWrite | src/quic/stream.cpp:195-291 | The new state, the answers and the wake-up are those of QuicTx.StartWrite; its precondition is the source's two assertions. |
| QuicStream.Stream.Cancel | src/quic/stream.cpp:293-371 | Likewise for a cancellation with its token. |
| QuicStream.Stream.PendingData | src/quic/stream.cpp:378-439 | Likewise; the loop over the chunks yields QuicTx.Gather. |
| QuicStream.Stream.OnOffered | src/quic/stream.cpp:441-456 | Likewise for QuicTx.OnOffered; a FIN that is handed over completes a bare end. |
| QuicStream.Stream.OnSent | src/quic/stream.cpp:458-480 | Likewise for QuicTx.OnSent; the last sent byte completes a staged write, any other one that empties what was copied asks for more. |
| QuicStream.Stream.OnAcked | src/quic/stream.cpp:482-507 | Likewise; the loop drops exactly the chunks that end at or before the acknowledged offset. |
| QuicStream.Stream.FinishActiveWrite | src/quic/stream.cpp:509-536 | Releases the buffer and tells the handler of success, once; when that is, is QuicAnswers.WhatTheParkedCallIsTold. |
| QuicStream.Stream.AbortWriting | src/quic/stream.cpp:667-682 | A write in progress is answered with the given code, the stream marked. |
| QuicStream.Stream.Fail | src/quic/stream.cpp:542-583 | A write in progress is answered as failed, also without an error code. |
| QuicStream.Stream.DeleteWriter | src/quic/stream.cpp:610-643 | A body that was never ended is reset, never ended silently. |
| QuicStream.Stream.DataReader | src/h3/stream.cpp:47-78 | What nghttp3 is given counts as offered at once, the FIN with it. |
| QuicStream.Stream.OnWriteOffered | src/h3/stream.cpp:91-104 | Packet bytes are translated to body bytes, never past what was offered. |
| QuicStream.Stream.OnWriteAcked | src/h3/stream.cpp:80-89 | Acknowledged body bytes advance `acked`. |
| QuicAppProofs.NoStreamForgotten | src/quic/streams.cpp:306-409 | On every interleaving of an open connection, a live unblocked stream with data or an unsent FIN is in the write queue exactly once. |
| QuicAppProofs.TurnComes | src/quic/streams.cpp:320-340 | Nothing is inserted ahead of a queued stream: position k is at the front after k removals. |
| QuicAppProofs.AppRunOk | src/quic/streams.cpp:306-409 | All events, packing passes among them, keep the scheduler's invariant, and the queue only loses at the front and gains at the end. |
| QuicAppProofs.PassOk | src/quic/session.cpp:223-317 | One pass of the packing loop keeps it, whatever ngtcp2 answers. |
| QuicAppRuns.TakesTurns | src/quic/session.cpp:223-317 | A pass deals with the first stream in the queue that is there, unblocked and has something to send; those before it leave the queue, and so does it unless nothing was said about it; having sent, it goes to the end. |
| QuicAppRuns.BlockedExactly | src/quic/streams.cpp:306-313 | Over all runs, a stream is blocked if and only if the last word about it was an answer that blocked it -- its window was used up, or it was not found -- and not the extension of its window. |
| QuicAppRuns.ExtensionLetsGo | src/quic/streams.cpp:306-313 | A stream of an open connection whose window reopens is not blocked, is otherwise as it was, and is in the queue exactly once if it has something to send; nobody else is touched. |
| QuicAppRuns.StreamsRunAlone | src/quic/streams.cpp:230-409 | Every stream of a connection, whatever happens to the others, is exactly where the events that are about it would have brought it alone; so all that is proved of single streams holds of it. |
| QuicAppRuns.ThereExactly | src/quic/streams.cpp:113-116 | A stream is there from when it comes up to when it is erased. |
| QuicAppRuns.ClosedExactly | src/quic/streams.cpp:118-133 | Exactly since the connection was closed, nothing is queued. |
| StreamApplication.Application.NextStreamData | src/quic/streams.cpp:342-372 | Finds the first stream with something to send, dropping the others; every pass pops or returns. |
| StreamApplication.Application.OnStreamDataWritten | src/quic/streams.cpp:374-391 | Rotates the stream to the back if it has more, a further staged chunk included. |
| StreamApplication.Application.OnStreamBlocked | src/quic/streams.cpp:393-400 | The stream is blocked and leaves the queue; that this lasts until its window reopens is QuicAppRuns.BlockedExactly. |
| StreamApplication.Application.ExtendMaxStreamData | src/quic/streams.cpp:306-313 | The stream is not blocked any more, and is scheduled. |
| StreamApplication.Application.OnStreamShutWr | src/quic/streams.cpp:402-409 | The stream leaves the queue and its write is answered. |
| StreamApplication.Application.WritePkt | src/quic/session.cpp:223-317 | Whatever ngtcp2 answers, the passes are those the answers ask for and keep the invariant; there are at most (room + 1) times (queue length + 1) of them, besides those whose answer is about no stream or takes no room, after which the loop goes on as the source does. |
| ReadRuns.RunKept | src/quic/stream.cpp:59-189 | Until the reader lets go, received bytes are delivered bytes followed by buffered ones, in order, under any re-entrant re-arming; credit granted equals bytes delivered; delivered bytes are always a beginning of what was received. |
| ReadHistory.HistoryTells | src/quic/stream.cpp:59-189 | After any run, bytes received, delivered and left, the end, the truncation, closing, the reader's presence and the read that waits are what the history of events and answers says, one by one. |
| ReadHistory.WhatAReadIsTold | src/quic/stream.cpp:92-189 | What each read is told is determined by the history up to its answer: truncated if the body was cut short, else the next bytes while some are left, else the end if there was one, else truncated if the stream is closed; and the word of a stream that dies, for the read that waits then. |
| ReadHistory.WaitsExactly | src/quic/stream.cpp:92-104 | A read waits in the QUIC loop only while nothing is left, the body has neither ended nor been cut short, and the stream is open: nothing waits in vain. |
| ReadHistory.ResetCuts | src/quic/stream.cpp:651-665 | A reset by the peer ends a body that has not ended: aborted, with nothing buffered; one that has ended keeps its bytes. |
| ReadHistory.ResetTells | src/quic/stream.cpp:651-665 | It tells the read that waits, and every other its handler then issues, of the truncation at once, and nobody else. |
| ReadHistory.LaterReadsTruncated | src/quic/stream.cpp:160-178 | From then on, whatever a reader asks for, the loop tells it of the truncation. |
| ReadRuns.BackPressure | src/quic/stream.cpp:181-189 | A peer that honours its limit never makes more than the initial window be buffered (section 4.1 of RFC 9000). |
| ReadRuns.WindowReopens | src/quic/session.cpp:109-115 | Once all is delivered, the peer has its whole window again. |
| ReadRuns.EndIsTheEnd | src/quic/stream.cpp:160-178 | Whatever happens, a stream that dies included: a read is told the end only when the peer ended the body and every byte was delivered; data only if it is the very next; a truncation only without an end. |
| ReadRuns.LastWordsExactly | src/quic/stream.cpp:542-561 | Anything but data, the end or a truncation is told exactly to the read that waits while the stream dies, is destroyed, or a cancellation comes, and is the word of that: nothing if there is no error, the error itself only after the end. |
| ReadRuns.ContractBrokenExactly | src/quic/stream.cpp:36-51 | A run tells a read something the Reader contract does not have if and only if, while a read waits, the stream closes without an error, or is destroyed with another word than an uncounted truncation, or a cancellation of another read takes it. |
| ReadRuns.ContractBroken | src/h3/application.cpp:304-306 | Two runs on which that happens in QUIC: a stream that closes cleanly, and one that is destroyed. |
| ReadRuns.ContractBrokenByCount | src/h2/stream.cpp:618-622 | One on which it happens in HTTP/2: a destroyed stream counts a byte that was read before. |
| ReadRuns.EveryReadOnce | include/anyhttp/quic/stream.hpp:259-293 | Every read, those issued from handlers included, is answered exactly once, except the one that waits, which is the last. |
| ReadRuns.LateReadCancellation | include/anyhttp/quic/stream.hpp:283-287 | A cancellation of an answered read does something if and only if another read waits: that one is told it was cancelled. |
| ReadRuns.LateReadCancellationHappens | src/h2/stream.cpp:125-131 | A run on which it does. |
| QuicReader.Stream.CallReadHandler | src/quic/stream.cpp:92-189 | The loop with its re-entrant handlers tells only what ReadQueue allows; a read still pending afterwards has nothing buffered, no end, no close, no abort; a nested call only re-arms; credit grows by what was delivered. |
| QuicReader.Stream.CopyQueued | src/quic/stream.cpp:129-142 | Takes the longest beginning of the parked chunks that fits. |
| QuicReader.Stream.OnDataChunk | src/quic/stream.cpp:59-84 | A chunk goes to the reader first, what is left of it behind the parked ones. |
| QuicReader.Stream.OnEof | src/quic/stream.cpp:86-90 | The end is recorded and reported once nothing is buffered. |
| QuicReader.Stream.AsyncReadSome | include/anyhttp/quic/stream.hpp:259-293 | A read for nothing is answered at once; any other in its turn; without the stream, from what was latched. |
| QuicReader.Stream.CancelRead | include/anyhttp/quic/stream.hpp:283-287 | Takes whichever read is there, and tells it so. |
| QuicReader.Stream.DetachAll | src/quic/stream.cpp:36-51 | The adapter latches whether the body was read to its end; a waiting read is told of a reset connection, however that stood, and what its handler reads then is answered from the latch. |
| QuicReader.Stream.AbortReading | src/quic/stream.cpp:651-665 | Drops what is buffered and reports the truncation, unless the body is complete. |
| QuicReader.Stream.Fail | src/quic/stream.cpp:542-561 | A waiting read is told, and reads its handler issues are answered. |
| QuicReader.Stream.DeleteReader | src/quic/stream.cpp:585-608 | Drops what is buffered, and sends STOP_SENDING exactly if the body is neither complete, closed nor aborted. |
| H2Reader.Stream.CallReadHandler | src/h2/stream.cpp:378-571 | The view-swapping loop refines the same queue, with handlers that come back for more or drop the reader; a read left pending on a closed stream means that this very call told a truncation last. |
| H2Reader.Stream.DeleteReader | src/h2/stream.cpp:919-942 | A reader that goes away, from inside a handler too, leaves everything in the buffers: the branch that would drop them is never taken. |
| H2Reader.Stream.DropReader | src/h2/stream.cpp:39-47 | Likewise between calls, as one move of ReadRuns; a close that was put off for it happens now. |
| H2Reader.Stream.FinishDeferredClose | src/h2/stream.cpp:985-992 | A close that was put off happens exactly once the body has been read to its end, or the reader is gone, and no read waits: between calls it is owed only to a reader with bytes left. |
| H2Reader.Stream.CancelRead | src/h2/stream.cpp:125-131 | Takes whichever read is there, and tells it so. |
| H2Reader.Stream.Destroy | src/h2/stream.cpp:600-628 | The adapter latches whether the body was read to its end; a waiting read is told of a truncation, with the count of all bytes ever read. |
| H2Reader.Stream.Advance | src/h2/stream.cpp:466-475 | Moving on to the next buffer, or to the view, keeps the undelivered bytes. |
| H2Reader.Stream.Keep | src/h2/stream.cpp:502-513 | What the loop did not deliver of the view is kept, in order. |
| H2Reader.Stream.OnData | src/h2/stream.cpp:575-587 | One arrival is one move of ReadRuns. |
| H2Reader.Stream.OnEof | src/h2/stream.cpp:589-598 | Likewise for the end of the body. |
| H2Reader.Stream.AsyncReadSome | src/h2/stream.cpp:95-138 | Likewise for a read. |
| H2Reader.Stream.Close | src/h2/session.cpp:648-719 | One death of ReadRuns in all three cases: the stream kept for a response still to be asked for; closing put off exactly for a body that ended and has not been read; or the stream erased and a waiting read told itself. |
| H2Producer.SendsTheBody | src/h2/stream.cpp:755-822 | On every run, the payload of all frames is what the accepted writes contributed, each a beginning of its buffer, in order; a success means all of it. |
| H2Producer.EndWasAskedFor | src/h2/stream.cpp:779-819 | On every run, END_STREAM goes out only for a call that asked for it, with the last accepted write and all of that. |
| H2Producer.SuccessfulEndIsSent | src/h2/stream.cpp:634-675 | A write_eof that reports success, on the spot or later, means that END_STREAM has gone out, however many attempts were cancelled. |
| H2Producer.SentForGood | src/h2/stream.cpp:755-822 | What was sent stays sent, nothing follows the end, and an answer is final. |
| H2Producer.EachAnsweredOnce | src/h2/stream.cpp:634-721 | Every call is answered exactly once, unless its handler is the one that is parked. |
| H2ProducerAnswers.WhatTheParkedCallIsTold | src/h2/stream.cpp:755-822 | What the parked call is told by each event, exactly: success if and only if all of it has gone out, with the end if it was to have it; else its cancellation, the reset of a closed stream, or that it was cancelled with a destroyed one. |
| H2ProducerAnswers.WhatACallIsTold | src/h2/stream.cpp:634-721 | What a new call is told on the spot, or that it is parked, by what has been asked for and sent, with its stream open, closed or gone. |
| H2ProducerAnswers.WhatClosesAStream | src/h2/session.cpp:648-668 | A stream is closed, or gone, exactly since it was. |
| H2Producer.NeverParkedDeferred | src/h2/stream.cpp:707-721 | No write is ever parked while the source is deferred, so no wake-up is lost; the assertion about empty writes holds. |
| H2Producer.AskedFor | src/h2/stream.cpp:755-822 | What the stack gets: a failure exactly from a closed stream, a deferral exactly without a parked write, else the next bytes, with the end exactly on the last of a write that asked for it; the write succeeds exactly then. |
| H2Producer.LateCancellation | src/h2/stream.cpp:695-700 | When a cancellation for an answered call does anything: if and only if another call is parked, which is then told it was cancelled. |
| H2Producer.LateCancellationHappens | src/h2/stream.cpp:695-700 | A run on which it does. |
| H2Producer.DestructorAnswersTheRest | src/h2/stream.cpp:600-630 | The destructor answers the one call that is still parked, as cancelled, and no other. |
| H2Producer.ToldCanceledUnasked | src/h2/stream.cpp:623-627 | A parked call that nobody cancelled is told that it was, if and only if another is cancelled late, or the stream is destroyed. |
| H2Producer.DestructionCancels | src/h2/stream.cpp:623-627 | A state in which it is destroyed under a call nobody cancelled. |
| H2ProducerStream.Stream.AsyncWrite | src/h2/stream.cpp:634-721 | The whole new state and the answer are those of the entry ladder; the precondition is the source's assertion. |
| H2ProducerStream.Stream.ProducerCallback | src/h2/stream.cpp:755-822 | The whole new state, the frame and the answer are those of H2Producer.Produce. |
| H2ProducerStream.Stream.CancelWrite | src/h2/stream.cpp:695-700 | Takes the parked handler away, and nothing else. |
| H2ProducerStream.Stream.CloseStream | src/h2/session.cpp:648-668 | Closes, and tells a parked handler of the reset. |
| H2ProducerStream.Stream.DestroyStream | src/h2/stream.cpp:600-630 | Detaches the writer, and tells a parked handler it was cancelled. |
| H2ProducerStream.Stream.AnswerDetached | src/h2/stream.cpp:317-342 | Without its stream, the writer answers from whether the body had been ended. |
| H2v2Theorems.SendsTheBody | src/h2v2/stream.cpp:754-855 | On every run, what the stack was given is what the accepted writes contributed, in order; a success means all of it. |
| H2v2Theorems.EndWasAskedFor | src/h2v2/stream.cpp:754-855 | On every run, the end is given only for a call that asked for it, with the last accepted write and all of that. |
| H2v2Theorems.SuccessfulEndIsSent | src/h2v2/stream.cpp:606-646 | A write_eof that reports success means that the end has been given. |
| H2v2Theorems.SentForGood | src/h2v2/stream.cpp:754-855 | What was given stays given, nothing follows the end, and an answer is final. |
| H2v2Theorems.EachAnsweredOnce | src/h2v2/stream.cpp:606-697 | Every call is answered exactly once, unless its handler is the one that is parked. |
| H2v2Answers.WhatTheParkedCallIsTold | src/h2v2/stream.cpp:754-882 | What the parked call is told by each event, exactly: success if and only if the stack is done with its write -- a bare end given, a copy given, the caller's own memory all in frames -- and else what befell its stream; a cancellation while the stack still reads is not answered before the reset. |
| H2v2Answers.WhatACallIsTold | src/h2v2/stream.cpp:606-697 | What a new call is told on the spot, or that it is parked, by what has been asked for and given. |
| H2v2Answers.WhatClosesAStream | src/h2v2/stream.cpp:663-697 | A stream is closed, gone or reset exactly since it was, a reset being a cancellation that finds it being read. |
| H2v2Theorems.BufferReleased | src/h2v2/stream.cpp:663-697 | Zero copy: once a call is answered on a stream the stack still has, everything it was given of that buffer has been reported as framed. |
| H2v2Theorems.SuccessIsFramed | src/h2v2/stream.cpp:857-882 | Zero copy: a write that succeeded has been framed, all of it. |
| H2v2Theorems.CompletesWhenFramed | src/h2v2/stream.cpp:857-882 | Zero copy: a report completes the parked write if and only if all of that was given and nothing is left to frame. |
| H2v2Theorems.EmptyReport | src/h2v2/stream.cpp:857-882 | A report of no bytes would complete a write if and only if that is a bare end of body, whose end has not been given. |
| H2v2Theorems.EmptyReportHappens | src/h2v2/stream.cpp:857-882 | A state in which it would. |
| H2v2Theorems.AskedFor | src/h2v2/stream.cpp:754-855 | What a stack with room gets: nothing exactly if there is nothing to give, else all that is left or a chunk, with the end exactly on the last bytes of a write that asked for it. |
| H2v2Theorems.StarvesExactly | src/h2v2/stream.cpp:806-814 | Asked for more, the writer parks work on a deferred source if and only if it has bytes to give and there was no room. |
| H2v2Theorems.StarvedStays | src/h2v2/stream.cpp:704-717 | Then no report, no further call and nothing else from the stack wakes it. |
| H2v2Theorems.RoomNeverStarves | src/h2v2/stream.cpp:754-855 | With room whenever it is asked, no run leaves work parked on a deferred source. |
| H2v2Theorems.StarvesOnce | src/h2v2/stream.cpp:806-814 | A run on which it happens without. |
| H2v2Theorems.LateCancellation | src/h2v2/stream.cpp:663-693 | When a cancellation for an answered call does anything: if and only if another call is parked and the stream not reset for it already; that one is told, or the stream reset. |
| H2v2Theorems.LateCancellationHappens | src/h2v2/stream.cpp:663-693 | A run on which it does. |
| H2v2Theorems.ToldCanceledUnasked | src/h2v2/session.cpp:583-595 | A parked call that nobody cancelled is told that it was, if and only if a late cancellation finds none of its bytes outstanding, or the stream closes with a reset asked for before, on whatever account, or the stream is destroyed. |
| H2v2Theorems.DestructorAnswersTheRest | src/h2v2/stream.cpp:572-602 | The destructor answers the one call that is still parked, as cancelled, and no other. |
| H2v2Theorems.DestructionCancels | src/h2v2/stream.cpp:595-599 | A state in which that is a call nobody cancelled. |
| H2v2Theorems.ToldCanceledHappens | src/h2v2/stream.cpp:652-661 | A run on which the write that asked for the reset succeeds, and the next one is told it was cancelled. |
| H2v2Stream.Stream.AsyncWrite | src/h2v2/stream.cpp:606-697 | The whole new state and the answer are those of the entry ladder; the precondition is the source's assertion. |
| H2v2Stream.Stream.CancelWrite | src/h2v2/stream.cpp:663-693 | With bytes outstanding only the reset is noted; otherwise the parked handler is told. |
| H2v2Stream.Stream.ReadData | src/h2v2/stream.cpp:754-855 | The whole new state, what is given and the answer are those of H2v2Writer.DataReader. |
| H2v2Stream.Stream.ReportOffset | src/h2v2/stream.cpp:857-882 | Counts exactly the bytes reported, and answers a write they complete. |
| H2v2Stream.Stream.CloseStream | src/h2v2/session.cpp:564-595 | Closes; a parked handler is told it was cancelled if a reset was ever asked for, else of the reset. |
| H2v2Stream.Stream.DestroyStream | src/h2v2/stream.cpp:572-602 | Detaches the writer, and tells a parked handler it was cancelled. |
| H2v2Stream.Stream.AnswerDetached | src/h2v2/stream.cpp:335-362 | Without its stream, the writer answers from whether the body had been ended. |
| H1ClientTheorems.RunInv | src/h1/session.cpp:1303-1401 | The invariant of the session over all runs. |
| H1ClientTheorems.SendingMeansIncomplete | src/h1/session.cpp:317-451 | An attached request is being sent if and only if it is neither ended nor cancelled. |
| H1ClientTheorems.CompletesWhileSending | src/h1/session.cpp:1356-1362 | The assertion in request_complete() never fails. |
| H1ClientTheorems.NoInterleaving | src/h1/session.cpp:1303-1352 | Bytes of different requests never interleave, and an earlier request is complete before a later one begins. |
| H1ClientTheorems.EarlierComplete | src/h1/session.cpp:1312-1324 | At the moment bytes of a request go out, all earlier ones are complete and it is not. |
| H1ClientTheorems.FailureStopsSending | src/h1/session.cpp:1364-1389 | Once a request failed, nothing is ever sent again. |
| H1ClientTheorems.ResponseIsOwn | src/h1/session.cpp:709-801 | Whatever was cancelled, retried or released, a reader that got anything got the message of its request. |
| H1ClientTheorems.OneInsideAMessage | src/h1/session.cpp:92-131 | At most one reader is inside a message, and while receiving has not failed it is the one whose turn it is. |
| H1ClientTheorems.ResponsesInOrder | src/h1/session.cpp:733-743 | A response is asked for only with all earlier ones off the connection and nobody reading. |
| H1ClientTheorems.ResumesWhenIdle | include/anyhttp/h1/session.hpp:27-55 | A waiting shutdown can go on exactly when no read or write is on the stream. |
| H1ClientTheorems.NothingStarts | src/h1/session.cpp:1250-1279 | From a shutdown on, no operation starts. |
| H1ClientTheorems.QuietAfterShutdown | src/h1/session.cpp:1250-1279 | After it has gone on, nothing is pending or moves on the connection, ever. |
| H1Facts.WhatBecomesOfRequests | src/h1/session.cpp:317-451 | Each fact about a request -- ended, cancelled, released, attached, a write in progress and what it ends, its response asked for -- with all the events that can bring it about. |
| H1Facts.WhatBecomesOfResponses | src/h1/session.cpp:92-215 | Each fact about a response likewise: its message, whether it is done, finished, attached, released or being read. |
| H1Facts.FailedExactly | src/h1/session.cpp:1364-1389 | On every run, sending has failed if and only if a request has -- a write of it failed, or it went away before it was sent -- or the session was shut down. |
| H1Facts.WhatFailsReceiving | src/h1/session.cpp:109-126 | Receiving fails exactly by a response given up before it is done, a request that goes away without asking for its response, or a shutdown. |
| H1Facts.VerdictIs | src/h1/session.cpp:1250-1279 | A shutdown of an open session finds it intact if and only if no request has failed and no write is in progress, and waits if and only if something is still on the stream. |
| H1Facts.VerdictStands | src/h1/session.cpp:1250-1279 | That verdict never changes afterwards. |
| H1Facts.SubmitTold | src/h1/session.cpp:1303-1352 | A request begins if and only if the session is open, no request has failed and all have been sent; else it is told that it never may, or has to wait. |
| H1Facts.WriteTold | src/h1/session.cpp:317-350 | What a write is told, by the history of its request: data past the end breaks the pipe, another end is fine, and only an attached, unfinished, uncancelled request begins one. |
| H1Facts.GetResponseTold | src/h1/session.cpp:709-743 | A response is read if and only if it has not been asked for, receiving has not failed, and it is the next on the connection. |
| H1Facts.ReadSomeTold | src/h1/session.cpp:150-168 | Past the end there is the end, session or no session; before it, a session that is gone means a truncation. |
| H1Facts.WhatIsSeen | src/h1/session.cpp:1303-1401 | What a bystander sees of each event: bytes, messages taken, and who writes. |
| H1Session.ClientSession.Submit | src/h1/session.cpp:1303-1352 | The step of H1Client, the ladder's answer, the invariant kept. |
| H1Session.ClientSession.Write | src/h1/session.cpp:317-350 | Likewise for a write. |
| H1Session.ClientSession.WriteEnds | src/h1/session.cpp:380-451 | Likewise for its end, where the session's assertion holds. |
| H1Session.ClientSession.GetResponse | src/h1/session.cpp:709-757 | Likewise for asking for a response. |
| H1Session.ClientSession.ReadEnds | src/h1/session.cpp:757-801 | Likewise for the end of a read, cancel-and-retry included. |
| H1Session.ClientSession.ReleaseRequest | src/h1/session.cpp:1372-1389 | Likewise for a request that goes away. |
| H1Session.ClientSession.ReleaseReader | src/h1/session.cpp:109-126 | Likewise for a response that goes away. |
| H1Session.ClientSession.Shutdown | src/h1/session.cpp:1250-1279 | Likewise for the shutdown; what `intact` means is H1Facts.VerdictIs. |
| H1Session.ClientSession.End | include/anyhttp/h1/session.hpp:46-51 | The last operation sets the idle event. |
| AltSvcSplit.Decomposition | src/alt_svc.cpp:262-292 | For every field value, the list is the concatenation of parsing each element of the quote-aware comma split on its own. |
| AltSvcSplit.OthersUnaffected | src/alt_svc.cpp:262-292 | Whatever stands in one place of a list, the alternatives in the others come out the same. |
| AltSvcSplit.AltValueLocal | src/alt_svc.cpp:187-231 | Reading an alternative, well formed or not, never leaves its element and stops outside quotes. |
| AltSvcSplit.JoinSplit | src/alt_svc.cpp:156-177 | Joining the split gives the value back. |
| AltSvcSplit.SplitJoin | src/alt_svc.cpp:156-177 | Splitting a joined list of closed elements gives the elements back. |
| AltSvcPrint.RoundTrip | src/alt_svc.cpp:187-231 | Writing any list of services and parsing gives it back, in order. |
| AltSvcPrint.AuthorityRead | src/alt_svc.cpp:62-91 | Splitting a written authority gives host and port back, for every host an authority can name. |
| AltSvcPrint.AuthorityYields | src/alt_svc.cpp:62-91 | Only such hosts, and only digits for a port, ever come out. |
| AltSvcPrint.RepeatedIgnored | src/alt_svc.cpp:206-228 | A repeated parameter counts only the first time, also if that one was no number. |
| AltSvcPrint.UnknownIgnored | src/alt_svc.cpp:206-228 | A parameter of another name changes nothing. |
| AltSvcPrint.PctRead | src/alt_svc.cpp:35-54 | Percent-encoding makes a token and decodes to what it was. |
| AltSvcPrint.UnquoteRead | src/alt_svc.cpp:127-143 | An escaped quoted string reads back. |
| AltSvcTheorems.ListWritable | src/alt_svc.cpp:187-293 | Every alternative any field value yields is one that can be written. |
| AltSvcTheorems.Normalises | src/alt_svc.cpp:248-293 | So writing what was read and reading it again changes nothing. |
| AltSvcTheorems.ParseRoundTrip | src/alt_svc.cpp:248-293 | A written value is read as its list, never as "clear". |
| AltSvcTheorems.AdvertisementRead | src/server_impl.cpp:78-78 | The server's own field value parses to exactly one service: h3, this host, this port, this age. |
| AltSvcTheorems.ClearListsNothing | src/alt_svc.cpp:248-261 | A value that clears would list nothing anyway. |
| AltSvcGrammar.ClearExactly | src/alt_svc.cpp:248-261 | A field value clears if and only if it is the word "clear" with nothing but blanks around it; any other is a list. |
| AltSvcGrammar.TokenCharacters | src/alt_svc.cpp:16-24 | Token characters are the visible ones that are no delimiter (section 5.6.2 of RFC 9110). |
| AltSvcGrammar.PctOctet | src/alt_svc.cpp:35-54 | Two hex digits behind a "%", in either case, are one octet. |
| AltSvcGrammar.PctItself | src/alt_svc.cpp:35-54 | Any other "%", and any other character, stands for itself. |
| AltSvcGrammar.SplitExactly | src/alt_svc.cpp:62-91 | An authority splits into a host and a port if and only if it names them: the last colon, or for a literal the first behind its first bracket, and digits from there on. |
| AltSvcAccepts.AcceptsExactly | src/alt_svc.cpp:187-231 | The parser accepts the texts of alternatives and nothing else -- a token, a quoted authority, parameters with blanks around their semicolons and values in either form -- and reads off them what they say: the first `ma` that is a 64-bit number, else a day; persistent if the first `persist` is "1". |
| AltSvcAccepts.ElementExactly | src/alt_svc.cpp:262-292 | An element of a list yields an alternative if and only if its text stands at the front of it, behind blanks. |
| AltSvcParser.ParseAltSvc | src/alt_svc.cpp:248-293 | The whole parser computes AltSvc.Parse. |
| AltSvcParser.Parser.ReadToQuote | src/alt_svc.cpp:127-143 | The loop over a quoted string computes AltSvc.Unquote. |
| AltSvcParser.Parser.Resynchronise | src/alt_svc.cpp:156-177 | Moves past the next comma outside quotes. |
| AltSvcParser.Parser.ReadAltValue | src/alt_svc.cpp:187-231 | Reads one alternative with its parameters. |
| AltSvcParser.DecodePct | src/alt_svc.cpp:35-54 | The decoding loop computes AltSvc.PctDecode. |
| FileCache.Cache.Lookup | src/file_handler.cpp:268-276 | A hit is the file last inserted under the key, now the most recently used; the order stays a beginning of the order of last use over the whole history. |
| FileCache.Cache.Insert | src/file_handler.cpp:278-304 | The new entry is kept in front, followed by the longest run of the order of last use that fits both budgets; one more entry would not fit; the byte count is the exact sum. |
| FileCache.Cache.Shrink | src/file_handler.cpp:297-303 | Evicts a suffix, and the shortest that will do. |
| FileCache.InsertedUnique | src/file_handler.cpp:278-304 | The specification of an insertion leaves no choice. |
| FileCache.InsertedBudgets | src/file_handler.cpp:278-304 | 256 files and 64 MiB, or the new file alone; and one more of the others would be over one of the two. |
| FileCache.RecencyIsByLastUse | src/file_handler.cpp:268-304 | The reference order lists each used key once, by descending last use. |
| ServerShutdown.JoinsAll | src/server_impl.cpp:352-390 | The accept loop returns only when every connection it accepted is over. |
| ServerShutdown.NeverWaitsInVain | src/server_impl.cpp:352-390 | It never waits without a signal pending or a connection left to send one. |
| ServerShutdown.NobodyForgotten | src/server_impl.cpp:136-140 | Once the server is destroyed, every session that runs has been asked to go. |
| ServerShutdown.LateOnesAreRefused | src/server_impl.cpp:275-283 | A connection that is no session yet by then never becomes one, and a refused one leaves only by being destroyed. |
| ServerShutdown.SweepAsksAll | src/server_impl.cpp:375-390 | After a sweep of the waiting accept loop, every running session has been asked to go, whenever it registered. |
| ServerShutdown.WhatBecomesOfConnections | src/server_impl.cpp:136-170 | Phase, registration and having been asked to go, each with all that can bring it about. |
| ServerShutdown.WhatNudges | src/server_impl.cpp:358-390 | The nudge comes with the end of a counted connection and lasts until the loop wakes; the loop is done exactly when none is open. |
| ServerShutdown.RunInv | src/server_impl.cpp:157-170 | Counter and registry agree with the connections under all interleavings, QUIC sessions included. |
| ServerImpl.Impl.AddSession | src/server_impl.cpp:157-164 | Refuses exactly once destroyed. |
| ServerImpl.Impl.RemoveSession | src/server_impl.cpp:166-170 | Takes the session out. |
| ServerImpl.Impl.Destroy | src/server_impl.cpp:136-141 | Asks every registered session to go, in the same step that closes the registry. |
| ServerImpl.Impl.CheckCounter | src/server_impl.cpp:375-390 | Done at zero, else a sweep and a wait. |
| ServerImpl.Impl.CountOut | src/server_impl.cpp:358-362 | The counter never underflows, and a nudge is pending. |

## Left out

- ngtcp2, nghttp2, nghttp3, Beast and OpenSSL: an environment. Acknowledgements come in order and for offered bytes only, reports name the stream that was just found, at most what was offered is reported written, nothing arrives after a close, and incoming data is not fed from inside a read handler.
- StreamApplication.Application.WritePkt: plain streams only.
- StreamApplication.Application.OnStreamDataWritten: the application holds its streams as values, not as references to stream objects, so aliasing between the queue and the streams is not captured.
- H2v2Theorems.SuccessfulEndIsSent: runs have the stack report at least one byte and at most what it was given; see H2v2Theorems.EmptyReport for a report of none.
- H2v2Theorems.BufferReleased: that the stack reads no more of a buffer it has framed or forgotten is its promise; a chunk it may still be reading is not asked to be replaced. A stream that is destroyed tells its write at once, whatever is outstanding: its session goes with it.
- QuicStream.Stream.StartWrite: the caller's buffer is a value and slices say which part of it, or of which chunk, they point at; memory as such is not modelled. Handlers that are null are not modelled.
- QuicStream.Stream.OnWriteOffered: the header and body split of HTTP/3 packet bytes is the approximation the code makes, and connection-level credit is not modelled.
- QuicReader.Stream.CallReadHandler: credit is counted as granted whether or not the connection is still there; handlers are a script of replies, one for each time one runs, and a script that has run out means that the reader does not come back.
- H2Reader.Stream.Close: that a stream is erased is recorded; when its destructor runs then is up to who else holds on to it, so that is an event of its own.
- H1ClientTheorems.ResponseIsOwn: a response handed out together with an error is not read from.
- H1Session.ClientSession.Shutdown: the wait itself is not cancelled.
- AltSvcPrint.RoundTrip: what is written is one of the forms the parser takes; `ma` is a signed 64-bit count, wrapped as the code does, and its use with clocks is not modelled.
- FileCache.Cache.Insert: files are a content and a size; resolving, mapping and re-checking them, and the mutex, are not modelled.
- ServerShutdown.JoinsAll: steps are what happens under the mutex; executors, sockets and the destruction of the sessions themselves are not modelled.
- The QUIC writer that outlives its stream, and what it latches on detaching.
- The accept queue of incoming QUIC streams, coalesced wake-ups and connection-level flow control.
- HTTP/1.1 and HTTP/2 header handling, `has_body`, URLs, dates, formatting, the h2c upgrade and ALPN: short and next to foreign calls.
- The server side of HTTP/1.1.
