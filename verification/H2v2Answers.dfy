/** What calls of the second HTTP/2 backend's writer are told, by what has happened: on the spot, and while parked. */
module H2v2Answers {
  import opened Bytes
  import opened H2Body
  import opened H2v2Writer
  import opened H2v2Theorems

  /** The call is answered, or parked, by what has been asked for and given so far. */
  lemma WhatACallIsTold(w: World, data: seq<byte>, eof: bool)
    requires Reachable(w) && Enabled(w, Write(data, eof))
    ensures var v := Step(w, Write(data, eof));
      var told := Entry(w.b, data, eof, w.s.closed, w.s.gone);
      && Enters(w.b, data, eof, told, w.s.handler, v.b, v.s.handler)
      && (told == [] ==> v.s.buffer == data && !v.s.deferred)
  {
    ReachableInv(w);
    EntryIs(w, data, eof);
  }

  lemma EntryIs(w: World, data: seq<byte>, eof: bool)
    requires Inv(w)
    ensures Entry(w.b, data, eof, w.s.closed, w.s.gone)
      == match Answer(w.s, data, eof) case Some(code) => [code] case None => []
  {
  }

  /** The stack has been given all of the last write, with the end if it was to have it. */
  predicate AllGiven(b: Body)
  {
    HasWrites(b) && Last(b).taken == |Last(b).data| && (Last(b).eof ==> b.ended)
  }

  /** And is done with it: a bare end has been given, a copy has, and of the caller's own memory all is in frames. */
  predicate StackIsDone(w: World)
  {
    AllGiven(w.b) && (w.s.mode == ZeroCopy && Last(w.b).data != [] ==> w.framed == |w.b.out|)
  }

  /** The stack may still read from the caller's memory. */
  predicate StillReads(w: World) { w.s.mode == ZeroCopy && w.framed < |w.b.out| }

  /** What the parked call hears of an event, given whether the stack is done with its write by then. */
  function Verdict(w: World, e: Event, isDone: bool): seq<Code>
  {
    match e
    case Write(_, _) => []
    case CancelBy(_) => if StillReads(w) then [] else [Canceled]
    case Ask(_) => if isDone then [Success] else []
    case Report(_) => if isDone then [Success] else []
    case Shut => [if w.resets != {} then Canceled else ConnectionReset]
    case Vanish => [Canceled]
  }

  lemma CallStays(b: Body, h: nat, told: Option<Code>)
    requires h < |b.calls| && b.calls[h].outcomes == []
    ensures var c := Told(b, Some(h), told);
      && |c.calls| == |b.calls| && c.calls[h].outcomes == (if told.Some? then [told.value] else [])
      && c.writes == b.writes && c.ended == b.ended && c.out == b.out
  {
  }

  /** What a step does besides telling the parked handler. */
  predicate Tells(s: Writer, eff: Effect<Writer>, told: Option<Code>)
  {
    eff.told == told && eff.s.handler == if told.Some? then None else s.handler
  }

  lemma AskTold(w: World, veccnt: nat)
    requires Inv(w) && w.s.handler.Some?
    ensures var (eff, g) := DataReader(w.s, veccnt);
      && Tells(w.s, eff, if StackIsDone(w.(b := Handed(w, g))) then Some(Success) else None)
      && Handed(w, g).calls == w.b.calls && eff.s.mode == w.s.mode
  {
  }

  lemma ReportTold(w: World, len: nat)
    requires Inv(w) && w.s.handler.Some? && Enabled(w, Report(len))
    ensures Tells(w.s, OnWriteOffset(w.s, len),
                  if StackIsDone(w.(framed := w.framed + len)) then Some(Success) else None)
  {
  }

  lemma CancelTold(w: World)
    requires Inv(w) && w.s.handler.Some?
    ensures Tells(w.s, Cancel(w.s), if StillReads(w) then None else Some(Canceled))
  {
  }

  lemma AskHears(w: World, veccnt: nat)
    requires Inv(w) && Enabled(w, Ask(veccnt)) && w.s.handler.Some?
    ensures Hears(w, Ask(veccnt))
  {
    var h := w.s.handler.value;
    ParkedUnanswered(w.b, h);
    AskTold(w, veccnt);
    CallStays(Handed(w, DataReader(w.s, veccnt).1), h, DataReader(w.s, veccnt).0.told);
  }

  lemma ReportHears(w: World, len: nat)
    requires Inv(w) && Enabled(w, Report(len)) && w.s.handler.Some?
    ensures Hears(w, Report(len))
  {
    var h := w.s.handler.value;
    ParkedUnanswered(w.b, h);
    ReportTold(w, len);
    CallStays(w.b, h, OnWriteOffset(w.s, len).told);
  }

  predicate Hears(w: World, e: Event)
    requires Enabled(w, e)
  {
    w.s.handler.Some? &&
    var h, v := w.s.handler.value, Step(w, e);
    && h < |v.b.calls| && v.b.calls[h].outcomes == Verdict(w, e, StackIsDone(v))
    && (e.Write? || (v.s.handler == if v.b.calls[h].outcomes == [] then Some(h) else None))
  }

  /**
   * What the parked call is told by each event, exactly: success when, and only when, the stack is done with its
   * write; and otherwise what befell its stream. A cancellation while the stack still reads has to wait for the reset.
   */
  lemma WhatTheParkedCallIsTold(w: World, e: Event)
    requires Reachable(w) && Enabled(w, e) && w.s.handler.Some?
    ensures !StackIsDone(w) && Hears(w, e)
  {
    ReachableInv(w);
    var h := w.s.handler.value;
    ParkedUnanswered(w.b, h);
    match e
    case Write(_, _) =>
    case CancelBy(_) =>
      CancelTold(w);
      CallStays(w.b, h, Cancel(w.s).told);
    case Ask(veccnt) => AskHears(w, veccnt);
    case Report(len) => ReportHears(w, len);
    case Shut => CallStays(w.b, h, Close(w.s).told);
    case Vanish => CallStays(w.b, h, Destroy(w.s).told);
  }

  /** A stream is closed, or gone, exactly since it was, and reset exactly since a cancellation found it being read. */
  lemma WhatClosesAStream(w: World, e: Event)
    requires Reachable(w) && Enabled(w, e)
    ensures var v := Step(w, e);
      && (v.s.closed <==> w.s.closed || e.Shut?) && (v.s.gone <==> w.s.gone || e.Vanish?)
      && (v.resets != {} <==> w.resets != {} || (e.CancelBy? && w.s.handler.Some? && StillReads(w)))
      && (!e.Ask? && !e.Write? ==> v.b.out == w.b.out && v.b.ended == w.b.ended)
  {
    ReachableInv(w);
  }
}
