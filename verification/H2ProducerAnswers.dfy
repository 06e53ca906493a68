/** What calls of the first HTTP/2 backend's writer are told, by what has happened: on the spot, and while parked. */
module H2ProducerAnswers {
  import opened Bytes
  import opened H2Body
  import opened H2Producer

  /** The call is answered, or parked, by what has been asked for and sent so far. */
  lemma WhatACallIsTold(w: World, data: seq<byte>, eof: bool)
    requires Reachable(w) && Enabled(w, Write(data, eof))
    ensures var v := Step(w, Write(data, eof));
      var told := Entry(w.b, data, eof, w.s.closed, w.s.gone);
      && Enters(w.b, data, eof, told, w.s.handler, v.b, v.s.handler)
      && (told == [] ==> v.s.buffer == data && !v.s.deferred)
  {
    ReachableInv(w);
    EntryIs(w, data, eof);
  }

  lemma EntryIs(w: World, data: seq<byte>, eof: bool)
    requires Inv(w)
    ensures Entry(w.b, data, eof, w.s.closed, w.s.gone)
      == match Answer(w.s, data, eof) case Some(code) => [code] case None => []
  {
  }

  /** What the parked call hears of an event, given whether all of its buffer has gone out by then. */
  function Verdict(e: Event, sent: bool): seq<Code>
  {
    match e
    case Write(_, _) => []
    case CancelBy(_) => [Canceled]
    case Ask(_) => if sent then [Success] else []
    case Shut => [ConnectionReset]
    case Vanish => [Canceled]
  }

  /** All of the last write has gone out, with the end if it was to have it. */
  predicate AllSent(b: Body)
  {
    HasWrites(b) && Last(b).taken == |Last(b).data| && (Last(b).eof ==> b.ended)
  }

  lemma CallStays(b: Body, h: nat, told: Option<Code>)
    requires h < |b.calls| && b.calls[h].outcomes == []
    ensures var c := Told(b, Some(h), told);
      |c.calls| == |b.calls| && c.calls[h].outcomes == (if told.Some? then [told.value] else []) && c.writes == b.writes
  {
  }

  lemma AskTold(w: World, length: nat)
    requires Inv(w) && w.s.handler.Some? && !w.s.closed
    ensures var (eff, p) := Produce(w.s, length);
      && (eff.told == if AllSent(Framed(w, p)) then Some(Success) else None)
      && Framed(w, p).calls == w.b.calls && (eff.s.handler == if eff.told.Some? then None else w.s.handler)
  {
  }

  /**
   * What the parked call is told by each event, exactly: success when, and only when, all of it has gone out, with
   * the end if it was to have it; and otherwise what befell its stream.
   */
  lemma WhatTheParkedCallIsTold(w: World, e: Event)
    requires Reachable(w) && Enabled(w, e) && w.s.handler.Some?
    ensures var h, v := w.s.handler.value, Step(w, e);
      && h < |v.b.calls| && v.b.calls[h].outcomes == Verdict(e, AllSent(v.b))
      && (e.Write? || (v.s.handler == if v.b.calls[h].outcomes == [] then Some(h) else None))
    ensures !AllSent(w.b)
  {
    ReachableInv(w);
    var h := w.s.handler.value;
    ParkedUnanswered(w.b, h);
    match e
    case Write(_, _) =>
    case CancelBy(_) => CallStays(w.b, h, Cancel(w.s).told);
    case Ask(length) =>
      AskTold(w, length);
      CallStays(Framed(w, Produce(w.s, length).1), h, Produce(w.s, length).0.told);
    case Shut => CallStays(w.b, h, Close(w.s).told);
    case Vanish => CallStays(w.b, h, Destroy(w.s).told);
  }

  /** A stream is closed, or gone, exactly since it was; and nothing goes out unless the stack asks. */
  lemma WhatClosesAStream(w: World, e: Event)
    requires Reachable(w) && Enabled(w, e)
    ensures var v := Step(w, e);
      && (v.s.closed <==> w.s.closed || e.Shut?) && (v.s.gone <==> w.s.gone || e.Vanish?)
      && (!e.Ask? && !e.Write? ==> v.b.out == w.b.out && v.b.ended == w.b.ended)
  {
    ReachableInv(w);
  }
}
