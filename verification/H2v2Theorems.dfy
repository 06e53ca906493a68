/** What holds on every run of the by-reference HTTP/2 write path, and where it does not, exactly when. */
module H2v2Theorems {
  import opened Bytes
  import opened H2Body
  import opened H2v2Writer

  // --- The rest of the invariant ---

  lemma CountsKept(w: World, e: Event)
    requires Books(w.b, w.s.handler) && Tracks(w.s, w.b) && Counts(w) && Enabled(w, e)
    ensures Counts(Step(w, e))
  {
  }

  lemma ResetsKept(w: World, e: Event)
    requires Counts(w) && ResetsInv(w) && Books(w.b, w.s.handler) && Enabled(w, e)
    ensures ResetsInv(Step(w, e))
  {
    if w.s.handler.Some? { ParkedUnanswered(w.b, w.s.handler.value); }
    var v := Step(w, e);
    forall r <- v.resets ensures r < |v.b.calls| && v.b.calls[r].write.Some? {
    }
  }

  lemma SameWhere(a: seq<Issued>, b: seq<Issued>, k: nat)
    requires k < |a| && k < |b| && a[..k + 1] == b[..k + 1]
    ensures Where(a, k) == Where(b, k)
  {
  }

  /** Nothing changes for what had succeeded: other writes end where they did, and more has been framed. */
  lemma FramedStays(w: World, v: World, i: nat)
    requires Books(w.b, w.s.handler) && SuccessFramed(w) && w.s.mode == ZeroCopy
    requires i < |w.b.calls| && Succeeded(w.b.calls[i]) && w.b.calls[i].write.Some?
    requires w.framed <= v.framed && |w.b.writes| <= |v.b.writes|
    requires forall k :: 0 <= k < |w.b.writes| && !(k == |w.b.writes| - 1 && w.s.handler.Some?) ==>
      w.b.writes[k] == v.b.writes[k]
    ensures WriteFramed(w.b.calls[i].write.value, v)
  {
    var k := w.b.calls[i].write.value;
    assert WriteFramed(k, w) && LinksBack(i, w.b.calls[i], w.b.writes) && HasAnswers(i, w.b.calls[i], w.s.handler);
    assert forall j :: 0 <= j <= k ==> w.b.writes[j] == v.b.writes[j];
    SameWhere(w.b.writes, v.b.writes, k);
  }

  lemma StepWrites(w: World, e: Event)
    requires Books(w.b, w.s.handler) && Enabled(w, e)
    ensures var v := Step(w, e);
      && w.framed <= v.framed && |w.b.writes| <= |v.b.writes| && v.s.mode == w.s.mode
      && forall k :: 0 <= k < |w.b.writes| && !(k == |w.b.writes| - 1 && w.s.handler.Some?) ==>
           w.b.writes[k] == v.b.writes[k]
  {
  }

  /** A parked write whose call is told of its success ends where framing stands. */
  lemma AskSucceeds(w: World, veccnt: nat)
    requires Inv(w) && Enabled(w, Ask(veccnt)) && w.s.mode == ZeroCopy
    requires DataReader(w.s, veccnt).0.told.Some?
    ensures var v := Step(w, Ask(veccnt)); |v.b.writes| == |w.b.writes| && |v.b.out| == v.framed
  {
  }

  lemma ReportSucceeds(w: World, len: nat)
    requires Inv(w) && Enabled(w, Report(len)) && w.s.mode == ZeroCopy
    requires OnWriteOffset(w.s, len).told.Some?
    ensures var v := Step(w, Report(len)); v.b.writes == w.b.writes && |v.b.out| == v.framed
  {
  }

  lemma ToldWhat(b: Body, parked: nat, told: Option<Code>)
    requires parked < |b.calls| && b.calls[parked].outcomes == []
    ensures Succeeded(Told(b, Some(parked), told).calls[parked]) <==> told == Some(Success)
  {
    if told.Some? {
      var c := Told(b, Some(parked), told).calls[parked];
      assert c.outcomes == [told.value] && c.outcomes[0] == told.value;
    }
  }

  lemma SuccessAtFramed(w: World, e: Event)
    requires Inv(w) && Enabled(w, e) && w.s.mode == ZeroCopy && w.s.handler.Some? && !e.Write?
    requires w.s.handler.value < |Step(w, e).b.calls| && Succeeded(Step(w, e).b.calls[w.s.handler.value])
    ensures var v := Step(w, e); |v.b.writes| == |w.b.writes| && |v.b.out| == v.framed
  {
    var h := w.s.handler.value;
    ParkedUnanswered(w.b, h);
    match e
    case CancelBy(_) => ToldWhat(w.b, h, Cancel(w.s).told);
    case Ask(veccnt) =>
      var (eff, g) := DataReader(w.s, veccnt);
      ToldWhat(Handed(w, g), h, eff.told);
      AskSucceeds(w, veccnt);
    case Report(len) =>
      ToldWhat(w.b, h, OnWriteOffset(w.s, len).told);
      ReportSucceeds(w, len);
    case Shut => ToldWhat(w.b, h, Close(w.s).told);
    case Vanish => ToldWhat(w.b, h, Destroy(w.s).told);
  }

  lemma SuccessFramedKept(w: World, e: Event)
    requires Inv(w) && Enabled(w, e)
    requires var v := Step(w, e); Books(v.b, v.s.handler)
    ensures SuccessFramed(Step(w, e))
  {
    var v := Step(w, e);
    StepWrites(w, e);
    if v.s.mode == ZeroCopy {
      forall i | 0 <= i < |v.b.calls| && Succeeded(v.b.calls[i]) && v.b.calls[i].write.Some?
        ensures WriteFramed(v.b.calls[i].write.value, v)
      {
        SuccessFramedAt(w, e, i);
      }
    }
  }

  /** A call that is not parked keeps its answer; a new one is answered on the spot only without a write. */
  lemma OthersKept(w: World, e: Event, i: nat)
    requires Books(w.b, w.s.handler) && Enabled(w, e)
    requires i < |Step(w, e).b.calls| && (w.s.handler != Some(i) || e.Write?)
    ensures i < |w.b.calls| ==> Step(w, e).b.calls[i] == w.b.calls[i]
    ensures i >= |w.b.calls| && Succeeded(Step(w, e).b.calls[i]) ==> Step(w, e).b.calls[i].write.None?
  {
  }

  lemma SuccessFramedAt(w: World, e: Event, i: nat)
    requires Inv(w) && Enabled(w, e) && w.s.mode == ZeroCopy
    requires var v := Step(w, e);
      Books(v.b, v.s.handler) && i < |v.b.calls| && Succeeded(v.b.calls[i]) && v.b.calls[i].write.Some?
    ensures var v := Step(w, e); WriteFramed(v.b.calls[i].write.value, v)
  {
    var v := Step(w, e);
    if w.s.handler == Some(i) && !e.Write? {
      SuccessAtFramed(w, e);
      LastWhere(v, i, w.b);
    } else {
      OthersKept(w, e, i);
      StepWrites(w, e);
      FramedStays(w, v, i);
    }
  }

  lemma LastWhere(v: World, i: nat, was: Body)
    requires Linked(was) && AnsweredOnce(was, Some(i)) && Contents(v.b) && Linked(v.b)
    requires |v.b.writes| == |was.writes| && |v.b.out| == v.framed
    requires i < |v.b.calls| && v.b.calls[i].write.Some?
    requires was.calls != [] && i < |was.calls| && v.b.calls[i].write == was.calls[i].write
    ensures WriteFramed(v.b.calls[i].write.value, v)
  {
    ParkedUnanswered(was, i);
    assert v.b.writes[..|v.b.writes|] == v.b.writes;
  }

  lemma StepInv(w: World, e: Event)
    requires Inv(w) && Enabled(w, e)
    ensures Inv(Step(w, e))
  {
    StepBooks(w, e);
    CountsKept(w, e);
    ResetsKept(w, e);
    SuccessFramedKept(w, e);
  }

  lemma AfterGrown(w: World, eff: Effect<Writer>)
    requires Linked(w.b) && AnsweredOnce(w.b, w.s.handler)
    ensures Grown(w.b, After(w, eff).b)
  {
    if w.s.handler.Some? { ToldGrown(w.b, w.s.handler.value, eff.told); }
  }

  lemma AskGrown(w: World, veccnt: nat)
    requires Books(w.b, w.s.handler) && Tracks(w.s, w.b)
    ensures var (eff, g) := DataReader(w.s, veccnt); Grown(w.b, After(w.(b := Handed(w, g)), eff).b)
  {
    var (eff, g) := DataReader(w.s, veccnt);
    if w.s.handler.Some? && !g.WouldBlock? {
      var (data, end) := if g.Piece? then (g.data, g.end) else ([], true);
      SentGrown(w.b, data, end);
      SentLinked(w.b, data, end);
      AfterGrown(w.(b := Handed(w, g)), eff);
      GrownTransitive(w.b, Handed(w, g), After(w.(b := Handed(w, g)), eff).b);
    }
  }

  lemma StepGrows(w: World, e: Event)
    requires Inv(w) && Enabled(w, e)
    ensures Grown(w.b, Step(w, e).b)
  {
    match e
    case Write(data, eof) => CalledGrown(w.b, data, eof, Answer(w.s, data, eof));
    case CancelBy(_) => AfterGrown(w, Cancel(w.s));
    case Ask(veccnt) => AskGrown(w, veccnt);
    case Report(len) => AfterGrown(w, OnWriteOffset(w.s, len));
    case Shut => AfterGrown(w, Close(w.s));
    case Vanish => AfterGrown(w, Destroy(w.s));
  }

  lemma {:induction false} RunInv(w: World, events: seq<Event>)
    requires Inv(w) && Legal(w, events)
    ensures Inv(Run(w, events)) && Grown(w.b, Run(w, events).b)
    decreases |events|
  {
    if events != [] {
      var v := Step(w, events[0]);
      StepInv(w, events[0]);
      StepGrows(w, events[0]);
      RunInv(v, events[1..]);
      GrownTransitive(w.b, v.b, Run(v, events[1..]).b);
    }
  }

  lemma ReachableInv(w: World)
    requires Reachable(w)
    ensures Inv(w)
  {
    var mode: Mode, events: seq<Event> :| Legal(Start(mode), events) && Run(Start(mode), events) == w;
    RunInv(Start(mode), events);
  }

  // --- Contents, end and answers ---

  /** What the stack was given is what the accepted writes contributed, in order; a success means all of it. */
  lemma SendsTheBody(w: World)
    requires Reachable(w)
    ensures SaysWhatWasSent(w.b)
  {
    ReachableInv(w);
    BooksSaySent(w.b, w.s.handler);
  }

  /** The end is given only for a call that asked for it, with the last accepted write and all of that. */
  lemma EndWasAskedFor(w: World)
    requires Reachable(w)
    ensures SaysWhoEnded(w.b)
  {
    ReachableInv(w);
    BooksSayEnded(w.b, w.s.handler);
  }

  /** A write_eof that reports success, on the spot or later, means that the end has been given. */
  lemma SuccessfulEndIsSent(w: World, i: nat)
    requires Reachable(w) && i < |w.b.calls| && w.b.calls[i].eof && Succeeded(w.b.calls[i])
    ensures w.b.ended && w.s.eofSubmitted
  {
    ReachableInv(w);
    assert Earned(w.b, w.b.calls[i]);
  }

  /** What was given stays given, nothing follows the end, and an answer is final. */
  lemma {:induction false} SentForGood(w: World, events: seq<Event>)
    requires Reachable(w) && Legal(w, events)
    ensures Grown(w.b, Run(w, events).b)
  {
    ReachableInv(w);
    RunInv(w, events);
  }

  /** Every call is answered exactly once, unless its handler is the one that is parked. */
  lemma EachAnsweredOnce(w: World, i: nat)
    requires Reachable(w) && i < |w.b.calls|
    ensures |w.b.calls[i].outcomes| == if w.s.handler == Some(i) then 0 else 1
  {
    ReachableInv(w);
    assert HasAnswers(i, w.b.calls[i], w.s.handler);
  }

  // --- When the caller's buffer is free ---

  /** Zero copy: once a call is answered on a stream the stack still has, all that was given of its buffer is framed. */
  lemma BufferReleased(w: World, i: nat)
    requires Reachable(w) && w.s.mode == ZeroCopy && !w.s.closed && !w.s.gone
    requires i < |w.b.calls| && w.b.calls[i].outcomes != [] && w.b.calls[i].write.Some?
    ensures WriteFramed(w.b.calls[i].write.value, w)
  {
    ReachableInv(w);
    var k, n := w.b.calls[i].write.value, |w.b.writes|;
    assert LinksBack(i, w.b.calls[i], w.b.writes) && HasAnswers(i, w.b.calls[i], w.s.handler);
    if w.s.handler.Some? {
      WhereGrows(w.b.writes, k, n - 1);
    } else {
      WhereGrows(w.b.writes, k, n);
      assert w.b.writes[..n] == w.b.writes;
    }
  }

  /** Zero copy: a write that succeeded has been framed, all of it, whatever became of the stream since. */
  lemma SuccessIsFramed(w: World, i: nat)
    requires Reachable(w) && w.s.mode == ZeroCopy
    requires i < |w.b.calls| && Succeeded(w.b.calls[i]) && w.b.calls[i].write.Some?
    ensures WriteFramed(w.b.calls[i].write.value, w) && AllOf(i, w.b.calls[i], w.b.writes)
  {
    ReachableInv(w);
    BooksSaySent(w.b, w.s.handler);
  }

  /** Zero copy: a report completes the parked write exactly if that was given entirely and nothing is left to frame. */
  lemma CompletesWhenFramed(w: World, len: nat)
    requires Reachable(w) && w.s.mode == ZeroCopy && w.s.handler.Some? && Enabled(w, Report(len))
    ensures HasWrites(w.b)
    ensures OnWriteOffset(w.s, len).told == Some(Success) <==>
      Last(w.b).taken == |Last(w.b).data| && w.framed + len == |w.b.out|
  {
    ReachableInv(w);
  }

  /**
   * A report of no bytes, which no run here has, would complete a write if and only if that is a bare end
   * of body, and so report an end that has not been given.
   */
  lemma EmptyReport(w: World)
    requires Reachable(w)
    ensures OnWriteOffset(w.s, 0).told.Some? <==> w.s.mode == ZeroCopy && w.s.handler.Some? && w.s.buffer == []
    ensures OnWriteOffset(w.s, 0).told.Some? ==> !w.b.ended && HasWrites(w.b) && Last(w.b).eof && Last(w.b).data == []
  {
    ReachableInv(w);
  }

  lemma EmptyReportHappens() returns (w: World)
    ensures Reachable(w) && OnWriteOffset(w.s, 0).told == Some(Success) && !w.b.ended
  {
    w := Start(ZeroCopy);
    assert Legal(w, []) && Run(w, []) == w;
    w := Onward(w, Write([], true));
  }

  // --- What the stack gets, and who wakes it ---

  /** The parked write has bytes to give, or an end. */
  predicate HasWork(w: World)
  {
    w.s.handler.Some? && (w.s.offered < |w.s.buffer| || (w.s.eofRequested && !w.s.eofSubmitted))
  }

  /**
   * What a stack with room gets: nothing exactly if there is nothing to give; else the next bytes of the
   * parked write, all that is left of them or a chunk, with the end exactly if it asked for the end and
   * these are the last; and the end alone exactly if it has no bytes, or has long been given.
   */
  lemma AskedFor(w: World, veccnt: nat)
    requires Reachable(w) && Enabled(w, Ask(veccnt)) && veccnt > 0
    ensures var (eff, g) := DataReader(w.s, veccnt);
      && (g.WouldBlock? <==> !HasWork(w) && (w.s.handler.Some? || !w.b.ended))
      && (g.JustEnd? <==> if w.s.handler.Some? then w.s.buffer == [] else w.b.ended)
      && (g.Piece? ==>
            && HasWrites(w.b) && w.s.handler == Some(Last(w.b).call)
            && var last := Last(w.b);
               var to := last.taken + |g.data|;
               && last.taken < to <= |last.data| && g.data == last.data[last.taken..to]
               && |g.data| == (var left := |last.data| - last.taken;
                               if w.s.mode == ZeroCopy then left else Min(left, 16384))
               && (g.end <==> last.eof && to == |last.data|)
               && (eff.told == Some(Success) <==> w.s.mode == Staged && to == |last.data|))
  {
    ReachableInv(w);
  }

  /** Asked for more, the writer parks work on a deferred source if and only if there was no room for its bytes. */
  lemma StarvesExactly(w: World, veccnt: nat)
    requires Reachable(w) && Enabled(w, Ask(veccnt))
    ensures var v := Step(w, Ask(veccnt));
      v.s.deferred && HasWork(v) <==> w.s.handler.Some? && w.s.offered < |w.s.buffer| && veccnt == 0
  {
    ReachableInv(w);
  }

  /** Then nothing that comes from the stack, and no other call, wakes it: only a cancellation or the end does. */
  lemma StarvedStays(w: World, e: Event)
    requires Reachable(w) && w.s.deferred && HasWork(w) && Enabled(w, e) && (e.Write? || e.Report? || e.Ask?)
    ensures var v := Step(w, e); v.s.deferred && HasWork(v) && v.s.handler == w.s.handler && v.b.out == w.b.out
  {
    ReachableInv(w);
  }

  predicate AlwaysRoom(events: seq<Event>) { forall e <- events :: e.Ask? ==> e.veccnt > 0 }

  /** With room whenever it is asked, no run ever leaves work parked on a deferred source. */
  lemma RoomNeverStarves(mode: Mode, events: seq<Event>)
    requires Legal(Start(mode), events) && AlwaysRoom(events)
    ensures var v := Run(Start(mode), events); !(v.s.deferred && HasWork(v))
  {
    RoomStays(Start(mode), events);
  }

  lemma {:induction false} RoomStays(w: World, events: seq<Event>)
    requires Inv(w) && !(w.s.deferred && HasWork(w)) && Legal(w, events) && AlwaysRoom(events)
    ensures var v := Run(w, events); !(v.s.deferred && HasWork(v))
    decreases |events|
  {
    if events != [] {
      var v := Step(w, events[0]);
      StepInv(w, events[0]);
      assert events[0] in events;
      StepNeverStarves(w, events[0]);
      RoomStays(v, events[1..]);
    }
  }

  lemma StepNeverStarves(w: World, e: Event)
    requires Inv(w) && !(w.s.deferred && HasWork(w)) && Enabled(w, e) && (e.Ask? ==> e.veccnt > 0)
    ensures var v := Step(w, e); !(v.s.deferred && HasWork(v))
  {
  }

  /** It does happen: a write of one byte, and a stack that has no room. */
  lemma StarvesOnce(mode: Mode, x: byte) returns (w: World)
    ensures Reachable(w) && w.s.deferred && HasWork(w) && w.b.out == []
  {
    w := Start(mode);
    assert Legal(w, []) && Run(w, []) == w;
    w := Onward(w, Write([x], false));
    w := Onward(w, Ask(0));
  }

  // --- Cancellations ---

  /**
   * A cancellation that comes late, when its own call has been answered, does something if and only if
   * another call is parked, for which the stream has not been reset already: that one is told it was
   * cancelled, or, with bytes of it outstanding, the stream is reset on its account.
   */
  lemma LateCancellation(w: World, i: nat)
    requires Reachable(w) && Enabled(w, CancelBy(i)) && w.b.calls[i].outcomes != []
    ensures var v := Step(w, CancelBy(i));
      && (v.s != w.s <==> w.s.handler.Some? && (Resets(w.s) ==> !w.s.cancelled))
      && (w.s.handler.Some? ==>
            && w.s.handler.value < |w.b.calls| && w.s.handler.value != i
            && if Resets(w.s) then v.s == w.s.(cancelled := true) && v.b == w.b
               else v.s == w.s.(handler := None) && v.b.calls[w.s.handler.value].outcomes == [Canceled])
      && (w.s.handler.None? ==> v.b == w.b)
  {
    ReachableInv(w);
    if w.s.handler.Some? { ParkedUnanswered(w.b, w.s.handler.value); }
  }

  /**
   * A parked call that nobody cancelled is told that it was, if and only if a cancellation by another call
   * finds none of its bytes outstanding, or the stream closes after a cancellation had reset it, or is destroyed.
   */
  lemma ToldCanceledUnasked(w: World, e: Event)
    requires Reachable(w) && Enabled(w, e) && w.s.handler.Some?
    ensures w.s.handler.value < |Step(w, e).b.calls|
    ensures var h, v := w.s.handler.value, Step(w, e);
      h !in v.asked ==>
        (v.b.calls[h].outcomes == [Canceled] <==>
         (e.CancelBy? && !Resets(w.s)) || (e.Shut? && w.s.cancelled) || e.Vanish?)
    ensures w.s.cancelled <==> w.resets != {}
  {
    ReachableInv(w);
    var h := w.s.handler.value;
    ParkedUnanswered(w.b, h);
    match e
    case Write(_, _) =>
    case CancelBy(_) => ToldCode(w.b, h, Cancel(w.s).told);
    case Ask(veccnt) =>
      var (eff, g) := DataReader(w.s, veccnt);
      ToldCode(Handed(w, g), h, eff.told);
    case Report(len) => ToldCode(w.b, h, OnWriteOffset(w.s, len).told);
    case Shut => ToldCode(w.b, h, Close(w.s).told);
    case Vanish => ToldCode(w.b, h, Destroy(w.s).told);
  }

  /** The destructor answers the one call that is still parked, and no other; then every call has its answer. */
  lemma DestructorAnswersTheRest(w: World, i: nat)
    requires Reachable(w) && Enabled(w, Vanish) && i < |w.b.calls|
    ensures var v := Step(w, Vanish);
      && |v.b.calls| == |w.b.calls| && |v.b.calls[i].outcomes| == 1
      && v.b.calls[i].outcomes == if w.s.handler == Some(i) then [Canceled] else w.b.calls[i].outcomes
  {
    ReachableInv(w);
    assert HasAnswers(i, w.b.calls[i], w.s.handler);
    if w.s.handler.Some? { ParkedUnanswered(w.b, w.s.handler.value); }
  }

  /** It does happen when a stream is destroyed, to the only write there ever was. */
  lemma DestructionCancels(mode: Mode, x: byte) returns (w: World)
    ensures Reachable(w) && w.asked == {} == w.resets && !w.s.closed && w.s.handler == Some(0) && Enabled(w, Vanish)
    ensures var v := Step(w, Vanish); |v.b.calls| == 1 && v.b.calls[0].outcomes == [Canceled]
  {
    w := Start(mode);
    assert Legal(w, []) && Run(w, []) == w;
    w := Onward(w, Write([x], false));
  }

  /** It does happen: the write that had the stream reset succeeds after all, and the next one is told. */
  lemma ToldCanceledHappens(x: byte) returns (w: World)
    ensures Reachable(w) && w.s.handler == Some(1) && |w.b.calls| == 2
    ensures 1 !in w.asked && w.b.calls[0].outcomes == [Success]
    ensures Enabled(w, Shut) && Step(w, Shut).b.calls[1].outcomes == [Canceled]
  {
    w := Start(ZeroCopy);
    assert Legal(w, []) && Run(w, []) == w;
    w := Onward(w, Write([x], false));
    w := Onward(w, Ask(1));
    w := Onward(w, CancelBy(0));
    assert w.s == Writer(ZeroCopy, [x], 1, 0, Some(0), false, false, false, true, false, false);
    w := Onward(w, Report(1));
    assert w.b.calls[0].outcomes == [Success] && w.s.handler.None? && w.asked == {0};
    w := Onward(w, Write([x], false));
  }

  /** And so does the other case: a cancellation that comes late, on a write that has not been given yet. */
  lemma LateCancellationHappens(x: byte) returns (w: World)
    ensures Reachable(w) && w.s.handler == Some(1) && Enabled(w, CancelBy(0)) && w.b.calls[0].outcomes == [Success]
    ensures var v := Step(w, CancelBy(0)); |v.b.calls| == 2 && 1 !in v.asked && v.b.calls[1].outcomes == [Canceled]
  {
    w := Start(Staged);
    assert Legal(w, []) && Run(w, []) == w;
    w := Onward(w, Write([x], false));
    w := Onward(w, Ask(1));
    assert w.b.calls[0].outcomes == [Success];
    w := Onward(w, Write([x], false));
  }

  lemma Onward(w: World, e: Event) returns (v: World)
    requires Reachable(w) && Enabled(w, e)
    ensures Reachable(v) && v == Step(w, e)
  {
    var mode: Mode, events: seq<Event> :| Legal(Start(mode), events) && Run(Start(mode), events) == w;
    RunSnoc(Start(mode), events, e);
    v := Step(w, e);
  }

  lemma {:induction false} RunSnoc(w: World, events: seq<Event>, e: Event)
    requires Legal(w, events) && Enabled(Run(w, events), e)
    ensures Legal(w, events + [e]) && Run(w, events + [e]) == Step(Run(w, events), e)
    decreases |events|
  {
    var more := events + [e];
    if events == [] {
      assert more[1..] == [] && more[0] == e;
    } else {
      RunSnoc(Step(w, events[0]), events[1..], e);
      assert more[1..] == events[1..] + [e] && more[0] == events[0];
    }
  }
}
