/**
 * Where an incoming body stands, told from its history alone: from what happened and what was answered, in order.
 * With that, what each read is told, when a read waits, and what a reset by the peer comes to.
 */
module ReadHistory {
  import opened Bytes
  import opened ReadQueue
  import opened ReadRuns

  /** One thing that happened: an event, or a read that was answered, with its handler's reply. */
  datatype Mark = On(e: Event) | Said(t: Told, r: Reply)

  /** A move is its event, and then its answers. */
  function MarksOf(m: Move, told: seq<Told>): seq<Mark>
  {
    if told == [] then [On(m.event)]
    else
      var n := |told| - 1;
      MarksOf(m, told[..n]) + [Said(told[n], ReplyAt(m.script, n))]
  }

  function Marks(moves: seq<Move>): seq<Mark>
  {
    if moves == [] then []
    else
      var n := |moves| - 1;
      Marks(moves[..n]) + MarksOf(moves[n], moves[n].told)
  }

  // --- What a history says ---

  function Came(h: seq<Mark>): seq<byte>
  {
    if h == [] then []
    else
      var x := h[|h| - 1];
      Came(h[..|h| - 1]) + if x.On? && x.e.Arrived? then x.e.data else []
  }

  function Went(h: seq<Mark>): seq<byte>
  {
    if h == [] then []
    else
      var x := h[|h| - 1];
      Went(h[..|h| - 1]) + if x.Said? && x.t.Data? then x.t.bytes else []
  }

  /** The stream has been closed: it failed, was destroyed, or its reader closed it from inside a handler. */
  predicate Closes(h: seq<Mark>)
  {
    h != [] &&
    var x := h[|h| - 1];
    Closes(h[..|h| - 1]) || if x.On? then x.e.Died? || x.e.Destroyed? else x.r.Kill?
  }

  /** The peer has ended the body -- and, once the stream is gone, all of it had been read. */
  predicate Ends(h: seq<Mark>)
  {
    h != [] &&
    var p, x := h[..|h| - 1], h[|h| - 1];
    if x == On(Ended) then true
    else if x.On? && x.e.Destroyed? then Ends(p) && Came(p) == Went(p)
    else Ends(p)
  }

  /**
   * The body has been cut short: reset by the peer, or stopped by its reader on an open stream, before it had
   * ended; and, once the stream is gone, every body that had not been read to its end.
   */
  predicate Cut(h: seq<Mark>)
  {
    h != [] &&
    var p, x := h[..|h| - 1], h[|h| - 1];
    if x.On? && x.e.Destroyed? then !Ends(h)
    else Cut(p) || (!Ends(p) && (x == On(Aborted) || (x.Said? && x.r.Stop? && !Closes(p))))
  }

  /** The reader has gone away. */
  predicate LetsGo(h: seq<Mark>)
  {
    h != [] && (LetsGo(h[..|h| - 1]) || h[|h| - 1] == On(Dropped) || (h[|h| - 1].Said? && h[|h| - 1].r.Discard?))
  }

  /** The read a reply issues. */
  function ReadOf(r: Reply): Option<nat>
  {
    match r
    case Again(size) => if size > 0 then Some(size) else None
    case Stop(size) => if size > 0 then Some(size) else None
    case Kill(size) => if size > 0 then Some(size) else None
    case _ => None
  }

  /** The read that is waiting: the last one issued, unless it was answered. */
  function Pending(h: seq<Mark>): Option<nat>
  {
    if h == [] then None
    else
      var x := h[|h| - 1];
      if x.Said? then ReadOf(x.r)
      else if x.e.Asked? then if x.e.size > 0 then Some(x.e.size) else None
      else Pending(h[..|h| - 1])
  }

  /** What is left to deliver to a reader, if it is there to have it. */
  function Left(h: seq<Mark>): seq<byte>
  {
    if Cut(h) || |Went(h)| > |Came(h)| then [] else Came(h)[|Went(h)|..]
  }

  // --- It is all there is to it ---

  /** The stream stands where its history says. */
  predicate Fits(l: Life, h: seq<Mark>)
  {
    && l.received == Came(h) && l.delivered == Went(h)
    && (l.s.q.closed <==> Closes(h)) && (l.s.q.reader <==> !LetsGo(h)) && l.s.want == Pending(h)
    && (l.s.q.reader ==> (l.s.q.ended <==> Ends(h)) && (l.s.q.aborted <==> Cut(h)) && l.s.q.buffered == Left(h))
  }

  lemma Last(h: seq<Mark>, x: Mark)
    ensures (h + [x])[..|h|] == h && (h + [x])[|h|] == x
  {
  }

  lemma EventFits(l: Life, h: seq<Mark>, e: Event, kept: nat)
    requires Kept(l) && Possible(l, e) && Fits(l, h)
    ensures Fits(Touch(l, e, kept), h + [On(e)])
  {
    Last(h, On(e));
    TouchKept(l, e, kept);
    if l.s.q.reader {
      assert |l.delivered| <= |l.received|;
    }
  }

  lemma AnswerFits(l: Life, h: seq<Mark>, t: Told, r: Reply, kept: nat)
    requires Kept(l) && l.s.want.Some? && (Answers(l.s, t) || !t.Data?) && Fits(l, h)
    ensures Fits(Deliver(l, t, r, kept), h + [Said(t, r)])
  {
    Last(h, Said(t, r));
    DeliverKept(l, t, r, kept);
    var bytes := if t.Data? then t.bytes else [];
    assert l.delivered + bytes <= l.received;
  }

  /** The marks of the answers `told`, after those of `h`. */
  function Answered(h: seq<Mark>, script: seq<Reply>, told: seq<Told>): seq<Mark>
  {
    if told == [] then h
    else
      var n := |told| - 1;
      Answered(h, script, told[..n]) + [Said(told[n], ReplyAt(script, n))]
  }

  lemma {:induction false} ServedFits(l: Life, h: seq<Mark>, script: seq<Reply>, told: seq<Told>, kept: nat)
    requires Kept(l) && Fair(l.s, script, told, kept) && Fits(l, h)
    ensures Fits(Serve(l, script, told, kept), Answered(h, script, told))
  {
    if told == [] {
      assert l.delivered + [] == l.delivered;
    } else {
      var n := |told| - 1;
      ServedFits(l, h, script, told[..n], kept);
      ServeKept(l, script, told[..n], kept);
      ServeSnoc(l, script, told, kept);
      AnswerFits(Serve(l, script, told[..n], kept), Answered(h, script, told[..n]), told[n], ReplyAt(script, n), kept);
    }
  }

  lemma {:induction false} MarksAnswered(h: seq<Mark>, m: Move, told: seq<Told>)
    ensures h + MarksOf(m, told) == Answered(h + [On(m.event)], m.script, told)
  {
    if told != [] {
      var n := |told| - 1;
      MarksAnswered(h, m, told[..n]);
      Associates(h, MarksOf(m, told[..n]), [Said(told[n], ReplyAt(m.script, n))]);
    }
  }

  lemma {:induction false} AnsweredShift(h: seq<Mark>, script: seq<Reply>, told: seq<Told>)
    requires told != []
    ensures Answered(h, script, told) == Answered(h + [Said(told[0], ReplyAt(script, 0))], DropFirst(script), told[1..])
  {
    var n := |told| - 1;
    if n > 0 {
      AnsweredShift(h, script, told[..n]);
      assert told[..n][1..] == told[1..][..n - 1] && told[1..][n - 1] == told[n] && told[..n][0] == told[0];
      assert ReplyAt(DropFirst(script), n - 1) == ReplyAt(script, n);
    } else {
      assert told[..0] == [] && told[1..] == [];
    }
  }

  lemma MoveFits(l: Life, h: seq<Mark>, m: Move)
    requires Kept(l) && Possible(l, m.event) && ReadRuns.Answered(l, m) && Fits(l, h)
    ensures Fits(Step(l, m), h + MarksOf(m, m.told))
  {
    var mid := Touch(l, m.event, m.kept);
    var h' := h + [On(m.event)];
    TouchKept(l, m.event, m.kept);
    EventFits(l, h, m.event, m.kept);
    MarksAnswered(h, m, m.told);
    if TakesRead(l, m) {
      var t, r := m.told[0], ReplyAt(m.script, 0);
      AnswerFits(mid, h', t, r, m.kept);
      DeliverKept(mid, t, r, m.kept);
      AnsweredShift(h', m.script, m.told);
      ServedFits(Deliver(mid, t, r, m.kept), h' + [Said(t, r)], DropFirst(m.script), m.told[1..], m.kept);
    } else {
      ServedFits(mid, h', m.script, m.told, m.kept);
    }
  }

  /** Where a body stands is what its history says, after any run. */
  lemma {:induction false} HistoryTells(moves: seq<Move>)
    requires Legal(START, moves)
    ensures Fits(Run(START, moves), Marks(moves))
  {
    if moves != [] {
      var n := |moves| - 1;
      HistoryTells(moves[..n]);
      RunKept(moves[..n]);
      MoveFits(Run(START, moves[..n]), Marks(moves[..n]), moves[n]);
    }
  }

  // --- What a read is told ---

  /** What the read loop has to say to a read of `size` bytes, if anything: data while there is some. */
  predicate LoopSays(h: seq<Mark>, size: nat, t: Told)
  {
    if Cut(h) then t == Truncated
    else if Went(h) != Came(h) then t.Data? && t.bytes != [] && |t.bytes| <= size && Went(h) + t.bytes <= Came(h)
    else if Ends(h) then t == End
    else Closes(h) && t == Truncated
  }

  lemma AnswerSays(l: Life, h: seq<Mark>, t: Told)
    requires Kept(l) && Fits(l, h) && Answers(l.s, t)
    ensures Pending(h).Some? && LoopSays(h, Pending(h).value, t)
  {
    if !Cut(h) {
      assert l.received == l.delivered + l.s.q.buffered;
      if t.Data? { Associates(l.delivered, t.bytes, l.s.q.buffered[|t.bytes|..]); }
    }
  }

  /** The word a dying stream has for the read that waits. */
  predicate DeathSays(h: seq<Mark>, e: Event, t: Told)
  {
    match e
    case CancelledBy(_) => t == Canceled
    case Destroyed(word) => t == word
    case Died(None) => t == Nothing
    case Died(Some(ec)) => t == if Ends(h) then Failed(ec) else Truncated
    case _ => false
  }

  lemma ServedSays(l: Life, h: seq<Mark>, script: seq<Reply>, told: seq<Told>, kept: nat, i: nat)
    requires Kept(l) && Fair(l.s, script, told, kept) && Fits(l, h) && i < |told|
    ensures var h' := Answered(h, script, told[..i]);
      Pending(h').Some? && LoopSays(h', Pending(h').value, told[i])
  {
    FairPrefix(l.s, script, told, kept, i);
    ServedFits(l, h, script, told[..i], kept);
    ServeKept(l, script, told[..i], kept);
    AnswerSays(Serve(l, script, told[..i], kept), Answered(h, script, told[..i]), told[i]);
  }

  /**
   * What each read is told, by the history up to its answer: all that is left first, then the end, or that there
   * will be no more; and at once that the body was cut short, if it was. Only the read that waits while the stream
   * dies, or is cancelled, is told something else.
   */
  lemma WhatAReadIsTold(moves: seq<Move>, m: Move, i: nat)
    requires Legal(START, moves + [m]) && i < |m.told|
    ensures var h := Marks(moves) + MarksOf(m, m.told[..i]);
      && Pending(h).Some?
      && if i == 0 && Pending(Marks(moves)).Some? && (m.event.Died? || m.event.Destroyed? || m.event.CancelledBy?)
         then DeathSays(Marks(moves), m.event, m.told[i])
         else LoopSays(h, Pending(h).value, m.told[i])
  {
    assert (moves + [m])[..|moves|] == moves;
    HistoryTells(moves);
    RunKept(moves);
    MoveSays(Run(START, moves), Marks(moves), m, i);
  }

  lemma MoveSays(l: Life, g: seq<Mark>, m: Move, i: nat)
    requires Kept(l) && Possible(l, m.event) && ReadRuns.Answered(l, m) && Fits(l, g) && i < |m.told|
    ensures var h := g + MarksOf(m, m.told[..i]);
      && Pending(h).Some?
      && if i == 0 && Pending(g).Some? && (m.event.Died? || m.event.Destroyed? || m.event.CancelledBy?)
         then DeathSays(g, m.event, m.told[i])
         else LoopSays(h, Pending(h).value, m.told[i])
  {
    var mid := Touch(l, m.event, m.kept);
    var h' := g + [On(m.event)];
    TouchKept(l, m.event, m.kept);
    EventFits(l, g, m.event, m.kept);
    MarksAnswered(g, m, m.told[..i]);
    if !TakesRead(l, m) {
      ServedSays(mid, h', m.script, m.told, m.kept, i);
    } else if i > 0 {
      var t, r := m.told[0], ReplyAt(m.script, 0);
      AnswerFits(mid, h', t, r, m.kept);
      DeliverKept(mid, t, r, m.kept);
      AnsweredShift(h', m.script, m.told[..i]);
      assert m.told[..i][1..] == m.told[1..][..i - 1];
      ServedSays(Deliver(mid, t, r, m.kept), h' + [Said(t, r)], DropFirst(m.script), m.told[1..], m.kept, i - 1);
    } else {
      Last(g, On(m.event));
    }
  }

  // --- Reads that wait ---

  /** A read waits only while nothing is left, the body has neither ended nor been cut short, and the stream is open. */
  lemma WaitsExactly(moves: seq<Move>)
    requires Legal(START, moves)
    ensures var h := Marks(moves);
      Waits(Run(START, moves).s) <==>
        (Pending(h).Some? ==> Went(h) == Came(h) && !Ends(h) && !Cut(h) && !Closes(h))
  {
    HistoryTells(moves);
    RunKept(moves);
    var l := Run(START, moves);
    if l.s.want.Some? && !l.s.q.aborted {
      assert l.received == l.delivered + l.s.q.buffered;
      assert l.s.q.buffered == [] ==> l.received == l.delivered;
    }
  }

  // --- A body that is cut short ---

  lemma {:induction false} CutGoesOn(g: seq<Mark>, m: Move, told: seq<Told>)
    requires Cut(g + [On(m.event)])
    ensures Cut(g + MarksOf(m, told))
  {
    if told != [] {
      var n := |told| - 1;
      CutGoesOn(g, m, told[..n]);
      Last(g + MarksOf(m, told[..n]), Said(told[n], ReplyAt(m.script, n)));
      Associates(g, MarksOf(m, told[..n]), [Said(told[n], ReplyAt(m.script, n))]);
    }
  }

  lemma CutStays(g: seq<Mark>, e: Event)
    requires Cut(g) && !Ends(g)
    ensures Cut(g + [On(e)])
  {
    Last(g, On(e));
  }

  lemma CutNeverEnds(moves: seq<Move>)
    requires Legal(START, moves) && !LetsGo(Marks(moves)) && Cut(Marks(moves))
    ensures !Ends(Marks(moves))
  {
    HistoryTells(moves);
    RunKept(moves);
  }

  lemma {:induction false} ReaderWasThere(g: seq<Mark>, m: Move, told: seq<Told>)
    requires LetsGo(g)
    ensures LetsGo(g + MarksOf(m, told))
  {
    if told == [] {
      Last(g, On(m.event));
    } else {
      var n := |told| - 1;
      ReaderWasThere(g, m, told[..n]);
      Last(g + MarksOf(m, told[..n]), Said(told[n], ReplyAt(m.script, n)));
      Associates(g, MarksOf(m, told[..n]), [Said(told[n], ReplyAt(m.script, n))]);
    }
  }

  /** A body that was cut short stays so, for as long as there is a reader to be told. */
  lemma {:induction false} CutForGood(moves: seq<Move>, more: seq<Move>)
    requires Legal(START, moves + more) && Cut(Marks(moves)) && !LetsGo(Marks(moves + more))
    ensures Cut(Marks(moves + more))
    decreases |more|
  {
    if more == [] {
      assert moves + more == moves;
    } else {
      var n := |more| - 1;
      assert (moves + more)[..|moves| + n] == moves + more[..n] && (moves + more)[|moves| + n] == more[n];
      var g := Marks(moves + more[..n]);
      if LetsGo(g) { ReaderWasThere(g, more[n], more[n].told); }
      CutForGood(moves, more[..n]);
      CutNeverEnds(moves + more[..n]);
      CutStays(g, more[n].event);
      CutGoesOn(g, more[n], more[n].told);
    }
  }

  /** So whatever a reader asks for after that, it is told of the truncation, and nothing else by the loop. */
  lemma LaterReadsTruncated(moves: seq<Move>, more: seq<Move>, m: Move, i: nat)
    requires Legal(START, moves + more + [m]) && Cut(Marks(moves)) && !LetsGo(Marks(moves + more)) && i < |m.told|
    ensures m.told[i] == Truncated || (i == 0 && DeathSays(Marks(moves + more), m.event, m.told[0]))
  {
    assert (moves + more + [m])[..|moves + more|] == moves + more;
    CutForGood(moves, more);
    CutNeverEnds(moves + more);
    CutStays(Marks(moves + more), m.event);
    CutGoesOn(Marks(moves + more), m, m.told[..i]);
    WhatAReadIsTold(moves + more, m, i);
  }

  /**
   * A reset by the peer cuts a body short that has not ended, and drops what is left of it; a body that has ended
   * keeps its bytes.
   */
  lemma ResetCuts(moves: seq<Move>, m: Move)
    requires Legal(START, moves + [m]) && m.event == Aborted && Run(START, moves + [m]).s.q.reader
    ensures var v := Run(START, moves + [m]);
      && (v.s.q.aborted <==> Cut(Marks(moves + [m])))
      && (!Ends(Marks(moves)) ==> v.s.q.aborted && v.s.q.buffered == [])
      && (Ends(Marks(moves)) && m.told == [] ==> v == Run(START, moves))
  {
    var l, v := Run(START, moves), Run(START, moves + [m]);
    assert (moves + [m])[..|moves|] == moves;
    HistoryTells(moves);
    HistoryTells(moves + [m]);
    RunKept(moves + [m]);
    Last(Marks(moves), On(Aborted));
    if !Ends(Marks(moves)) {
      CutGoesOn(Marks(moves), m, m.told);
    } else if m.told == [] {
      assert l.delivered + [] == l.delivered;
      if LetsGo(Marks(moves)) { ReaderWasThere(Marks(moves), m, m.told); }
    }
  }

  /** The read that waits for more of it is told at once, and so is every other its handler issues; nobody else is. */
  lemma ResetTells(moves: seq<Move>, m: Move)
    requires Legal(START, moves + [m]) && m.event == Aborted
    requires Waits(Run(START, moves).s) && Waits(Run(START, moves + [m]).s)
    ensures m.told != [] <==> Pending(Marks(moves)).Some?
    ensures forall i :: 0 <= i < |m.told| ==> m.told[i] == Truncated
  {
    assert (moves + [m])[..|moves|] == moves;
    HistoryTells(moves);
    WaitsExactly(moves);
    WaitsExactly(moves + [m]);
    Last(Marks(moves), On(Aborted));
    if m.told != [] { WhatAReadIsTold(moves, m, 0); }
    forall i | 0 <= i < |m.told| ensures m.told[i] == Truncated {
      WhatAReadIsTold(moves, m, i);
      CutGoesOn(Marks(moves), m, m.told[..i]);
    }
  }
}
