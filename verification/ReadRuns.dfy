/**
 * Whole lives of an incoming body: what the peer sends, what the stack reports and what the reader does,
 * in any order, with every read answered as ReadQueue allows. The history sits beside the queue.
 */
module ReadRuns {
  import opened Bytes
  import opened ReadQueue

  /** A queue, all that ever arrived and was delivered, and the send credit granted for it. */
  datatype Life = Life(s: State, received: seq<byte>, delivered: seq<byte>, credit: nat)

  /**
   * `Died` is fail() with its error code, if any; `Destroyed` is the stream's destructor and the word it has
   * for a read that waits. A cancellation comes from the slot of some read; the callback does not know which.
   */
  datatype Event = Arrived(data: seq<byte>) | Ended | Asked(size: nat) | Aborted | Died(ec: Option<Error>)
                 | Destroyed(word: Told) | Dropped | CancelledBy(i: nat)

  /**
   * An event, what the reader does in its handlers meanwhile, what its reads are told, and how much it
   * leaves behind if it goes away.
   */
  datatype Move = Move(event: Event, script: seq<Reply>, told: seq<Told>, kept: nat)

  const START := Life(State(Queue([], false, false, false, true, 0), None), [], [], 0)

  /** What the event itself changes, before any read is answered. */
  function Touch(l: Life, e: Event, kept: nat): Life
  {
    var q := l.s.q;
    match e
    case Arrived(data) => l.(s := l.s.(q := q.(buffered := q.buffered + data)), received := l.received + data)
    case Ended => l.(s := l.s.(q := q.(ended := true)))
    case Asked(size) => l.(s := Asks(q, size))
    case Aborted => l.(s := l.s.(q := Abort(q)))
    case Died(_) => l.(s := l.s.(q := q.(closed := true)))
    case Destroyed(_) => l.(s := l.s.(q := Latched(q)))
    case Dropped => l.(s := Dropping(q, kept))
    case CancelledBy(_) => l
  }

  /** What is left for the adapter of a stream that is gone: whether the body had been read to its end. */
  function Latched(q: Queue): Queue
  {
    var finished := q.ended && q.buffered == [];
    q.(buffered := [], ended := finished, closed := true, aborted := !finished)
  }

  /** One read told `t`, and the reader's reply. */
  function Deliver(l: Life, t: Told, r: Reply, kept: nat): Life
  {
    var bytes := if t.Data? then t.bytes else [];
    l.(s := Replied(Taken(l.s.q, t), r, kept), delivered := l.delivered + bytes, credit := l.credit + |bytes|)
  }

  /** All of `told`, in order. */
  function Serve(l: Life, script: seq<Reply>, told: seq<Told>, kept: nat): Life
  {
    l.(s := Replay(l.s, script, told, kept),
       delivered := l.delivered + Delivered(told),
       credit := l.credit + |Delivered(told)|)
  }

  /** One more answer. */
  lemma ServeMore(l: Life, script: seq<Reply>, told: seq<Told>, kept: nat, t: Told)
    requires Fair(l.s, script, told, kept) && Answers(Serve(l, script, told, kept).s, t)
    ensures Fair(l.s, script, told + [t], kept)
    ensures Serve(l, script, told + [t], kept)
      == Deliver(Serve(l, script, told, kept), t, ReplyAt(script, |told|), kept)
    ensures |Delivered(told + [t])| == |Delivered(told)| + if t.Data? then |t.bytes| else 0
  {
    Snoc(l.s, script, told, kept, t);
    Associates(l.delivered, Delivered(told), if t.Data? then t.bytes else []);
  }

  /** Likewise, when it is only now known how much the reader leaves behind. */
  lemma ServeOn(l: Life, script: seq<Reply>, told: seq<Told>, before: nat, kept: nat, t: Told)
    requires Fair(l.s, script, told, before) && Answers(Serve(l, script, told, before).s, t)
    requires Serve(l, script, told, before).s.q.reader
    ensures Fair(l.s, script, told + [t], kept)
    ensures Serve(l, script, told + [t], kept)
      == Deliver(Serve(l, script, told, before), t, ReplyAt(script, |told|), kept)
    ensures |Delivered(told + [t])| == |Delivered(told)| + if t.Data? then |t.bytes| else 0
  {
    KeptLater(l.s, script, told, before, kept);
    ServeMore(l, script, told, kept, t);
  }

  /** A stream that dies, or a cancellation, takes the waiting read and tells it itself; others are answered then. */
  predicate TakesRead(l: Life, m: Move)
  {
    Speaks(m.event) && l.s.want.Some?
  }

  predicate Speaks(e: Event) { e.Died? || e.Destroyed? || e.CancelledBy? }

  /** What it tells it: fail() hides an error from a reader that still misses some of the body. */
  function LastWord(q: Queue, e: Event): Told
    requires Speaks(e)
  {
    match e
    case Destroyed(word) => word
    case CancelledBy(_) => Canceled
    case Died(ec) => FailsWith(ec, q.ended)
  }

  function FailsWith(ec: Option<Error>, ended: bool): Told
  {
    match ec
    case None => Nothing
    case Some(e) => if ended then Failed(e) else Truncated
  }

  function Step(l: Life, m: Move): Life
  {
    var mid := Touch(l, m.event, m.kept);
    if TakesRead(l, m) && m.told != [] then
      Serve(Deliver(mid, m.told[0], ReplyAt(m.script, 0), m.kept), DropFirst(m.script), m.told[1..], m.kept)
    else Serve(mid, m.script, m.told, m.kept)
  }

  /** A move in which no read is told anything. */
  lemma SilentMove(l: Life, e: Event, kept: nat)
    requires !Speaks(e) || l.s.want.None?
    ensures var m := Move(e, [], [], kept); Answered(l, m) && Step(l, m) == Touch(l, e, kept)
  {
    assert Touch(l, e, kept).delivered + [] == Touch(l, e, kept).delivered;
  }

  /** The peer and the stack: data only while more may come, one end. The reader: one read, and only its own. */
  predicate Possible(l: Life, e: Event)
  {
    var q := l.s.q;
    match e
    case Arrived(_) => !q.ended && !q.Dead()
    case Ended => !q.ended && !q.Dead()
    case Asked(_) => q.reader && l.s.want.None?
    case Dropped => q.reader && l.s.want.None?
    case Destroyed(word) => word.Failed? || (word.CutShort? && word.count == |l.delivered|)
    case CancelledBy(i) => i < q.asked
    case _ => true
  }

  /** The reads were told what they may be told. */
  predicate Answered(l: Life, m: Move)
  {
    var mid := Touch(l, m.event, m.kept);
    if TakesRead(l, m) then
      && m.told != []
      && m.told[0] == LastWord(l.s.q, m.event)
      && Fair(Deliver(mid, m.told[0], ReplyAt(m.script, 0), m.kept).s, DropFirst(m.script), m.told[1..], m.kept)
    else Fair(mid.s, m.script, m.told, m.kept)
  }

  function Run(l: Life, moves: seq<Move>): Life
  {
    if moves == [] then l else Step(Run(l, moves[..|moves| - 1]), moves[|moves| - 1])
  }

  predicate Legal(l: Life, moves: seq<Move>)
  {
    moves == [] ||
    var n := |moves| - 1;
    var at := Run(l, moves[..n]);
    Legal(l, moves[..n]) && Possible(at, moves[n].event) && Answered(at, moves[n])
  }

  /** What holds at every point, inside the handlers too. */
  predicate Kept(l: Life)
  {
    && l.delivered <= l.received
    && l.credit == |l.delivered|
    && |l.delivered| + |l.s.q.buffered| <= |l.received|
    && (l.s.q.reader && !l.s.q.aborted ==> l.received == l.delivered + l.s.q.buffered)
    && (l.s.want.Some? ==> l.s.q.reader)
    && (l.s.q.aborted ==> l.s.q.buffered == [] && !l.s.q.ended)
  }

  lemma TouchKept(l: Life, e: Event, kept: nat)
    requires Kept(l) && Possible(l, e)
    ensures Kept(Touch(l, e, kept))
  {
    var q := l.s.q;
    match e
    case Arrived(data) =>
      assert l.received <= l.received + data;
      Associates(l.delivered, q.buffered, data);
    case Ended =>
    case Asked(size) =>
    case Aborted =>
    case Died(_) =>
    case Destroyed(_) =>
      assert q.buffered == [] ==> l.delivered + q.buffered == l.delivered + [];
    case Dropped =>
    case CancelledBy(_) =>
  }

  lemma RepliedKept(l: Life, r: Reply, kept: nat)
    requires Kept(l) && l.s.q.reader
    ensures Kept(l.(s := Replied(l.s.q, r, kept)))
  {
  }

  /** One answer moves bytes from the queue to the reader, and grants as many. */
  lemma DeliverKept(l: Life, t: Told, r: Reply, kept: nat)
    requires Kept(l) && l.s.want.Some?
    requires Answers(l.s, t) || !t.Data?
    ensures Kept(Deliver(l, t, r, kept))
  {
    var q := l.s.q;
    var bytes := if t.Data? then t.bytes else [];
    var rest := q.buffered[|bytes|..];
    assert q.buffered == bytes + rest;
    Associates(l.delivered, bytes, rest);
    var taken := l.(s := State(Taken(q, t), None), delivered := l.delivered + bytes, credit := l.credit + |bytes|);
    assert Taken(q, t) == q.(buffered := rest);
    RepliedKept(taken, r, kept);
  }

  lemma ServeSnoc(l: Life, script: seq<Reply>, told: seq<Told>, kept: nat)
    requires told != []
    ensures var n := |told| - 1;
      Serve(l, script, told, kept) == Deliver(Serve(l, script, told[..n], kept), told[n], ReplyAt(script, n), kept)
  {
    var n := |told| - 1;
    Associates(l.delivered, Delivered(told[..n]), if told[n].Data? then told[n].bytes else []);
  }

  lemma {:induction false} ServeKept(l: Life, script: seq<Reply>, told: seq<Told>, kept: nat)
    requires Kept(l) && Fair(l.s, script, told, kept)
    ensures Kept(Serve(l, script, told, kept))
  {
    if told == [] {
      assert l.delivered + [] == l.delivered;
    } else {
      var n := |told| - 1;
      ServeKept(l, script, told[..n], kept);
      ServeSnoc(l, script, told, kept);
      DeliverKept(Serve(l, script, told[..n], kept), told[n], ReplyAt(script, n), kept);
    }
  }

  lemma StepKept(l: Life, m: Move)
    requires Kept(l) && Possible(l, m.event) && Answered(l, m)
    ensures Kept(Step(l, m))
  {
    TouchKept(l, m.event, m.kept);
    var mid := Touch(l, m.event, m.kept);
    if TakesRead(l, m) {
      DeliverKept(mid, m.told[0], ReplyAt(m.script, 0), m.kept);
      ServeKept(Deliver(mid, m.told[0], ReplyAt(m.script, 0), m.kept), DropFirst(m.script), m.told[1..], m.kept);
    } else {
      ServeKept(mid, m.script, m.told, m.kept);
    }
  }

  /**
   * Whatever peer, stack and reader do: what was delivered is a beginning of what was received, credit is
   * exactly the bytes delivered, and until the reader lets go the rest is in the queue, in order.
   */
  lemma {:induction false} RunKept(moves: seq<Move>)
    requires Legal(START, moves)
    ensures Kept(Run(START, moves))
  {
    if moves != [] {
      var n := |moves| - 1;
      RunKept(moves[..n]);
      StepKept(Run(START, moves[..n]), moves[n]);
    }
  }

  /** The peer sends only what it has been granted, beyond the window it started with. */
  predicate Honours(window: nat, moves: seq<Move>)
  {
    moves == [] ||
    var n := |moves| - 1;
    var at := Run(START, moves[..n]);
    && Honours(window, moves[..n])
    && (moves[n].event.Arrived? ==> |at.received| + |moves[n].event.data| <= window + at.credit)
  }

  lemma {:induction false} CreditCovers(window: nat, moves: seq<Move>)
    requires Legal(START, moves) && Honours(window, moves)
    ensures |Run(START, moves).received| <= window + Run(START, moves).credit
  {
    if moves != [] {
      CreditCovers(window, moves[..|moves| - 1]);
    }
  }

  /** A peer that honours its limit never makes more than the initial window be buffered. */
  lemma {:induction false} BackPressure(window: nat, moves: seq<Move>)
    requires Legal(START, moves) && Honours(window, moves)
    ensures |Run(START, moves).s.q.buffered| <= window
  {
    RunKept(moves);
    CreditCovers(window, moves);
  }

  /** And nothing is withheld: once all is delivered, the peer has its whole window again. */
  lemma {:induction false} WindowReopens(moves: seq<Move>)
    requires Legal(START, moves)
    requires var q := Run(START, moves).s.q; q.reader && !q.aborted && q.buffered == []
    ensures |Run(START, moves).received| == Run(START, moves).credit
  {
    RunKept(moves);
  }

  /** What a read that is served may be told, in terms of all that arrived. */
  predicate ToldRight(received: seq<byte>, ended: bool, had: seq<byte>, t: Told)
  {
    && (t.End? ==> ended && had == received)
    && (t.Data? ==> t.bytes != [] && had + t.bytes <= received)
    && (t.Truncated? ==> !ended)
  }

  lemma ServedRight(l: Life, script: seq<Reply>, told: seq<Told>, kept: nat, i: nat)
    requires Kept(l) && Fair(l.s, script, told, kept) && i < |told|
    ensures ToldRight(l.received, l.s.q.ended, l.delivered + Delivered(told[..i]), told[i]) && InLoop(told[i])
  {
    FairPrefix(l.s, script, told, kept, i);
    ServeKept(l, script, told[..i], kept);
    EndedStays(l.s, script, told[..i], kept);
    var now := Serve(l, script, told[..i], kept);
    if told[i].Data? {
      var bytes := told[i].bytes;
      assert now.s.q.buffered == bytes + now.s.q.buffered[|bytes|..];
      if !now.s.q.aborted {
        Associates(now.delivered, bytes, now.s.q.buffered[|bytes|..]);
      }
    }
  }

  lemma {:induction false} DeliveredShift(told: seq<Told>)
    requires told != [] && !told[0].Data?
    ensures Delivered(told) == Delivered(told[1..])
  {
    var n := |told| - 1;
    if n > 0 {
      DeliveredShift(told[..n]);
      assert told[..n][1..] == told[1..][..n - 1];
    } else {
      assert told[..0] == [];
    }
  }

  /** An answer that is no data, and the others from there. */
  lemma ServeShift(l: Life, script: seq<Reply>, told: seq<Told>, kept: nat)
    requires told != [] && !told[0].Data?
    ensures var next := Deliver(l, told[0], ReplyAt(script, 0), kept);
      && Serve(next, DropFirst(script), told[1..], kept) == Serve(l, script, told, kept)
      && (Fair(l.s, script, told, kept)
          <==> Answers(l.s, told[0]) && Fair(next.s, DropFirst(script), told[1..], kept))
  {
    ReplayShift(l.s, script, told, kept);
    DeliveredShift(told);
    assert l.delivered + [] == l.delivered;
  }

  /**
   * Whatever the last move, a death included: a read is told the end only if the peer had ended the body and
   * every byte that ever arrived had been delivered; data only if that is the very next of it; and that the
   * body was cut short only if it had not ended.
   */
  lemma {:induction false} EndIsTheEnd(moves: seq<Move>, m: Move, i: nat)
    requires Legal(START, moves + [m]) && i < |m.told|
    ensures var mid := Touch(Run(START, moves), m.event, m.kept);
      ToldRight(mid.received, mid.s.q.ended, mid.delivered + Delivered(m.told[..i]), m.told[i])
  {
    var l := Run(START, moves);
    var mid := Touch(l, m.event, m.kept);
    assert (moves + [m])[..|moves|] == moves;
    RunKept(moves);
    TouchKept(l, m.event, m.kept);
    if !TakesRead(l, m) {
      ServedRight(mid, m.script, m.told, m.kept, i);
    } else if i > 0 {
      ServedAfterDeath(mid, m.script, m.told, m.kept, i);
    } else {
      assert Delivered(m.told[..0]) == [];
    }
  }

  lemma ServedAfterDeath(mid: Life, script: seq<Reply>, told: seq<Told>, kept: nat, i: nat)
    requires Kept(mid) && mid.s.want.Some? && 0 < i < |told|
    requires !told[0].Data?
    requires Fair(Deliver(mid, told[0], ReplyAt(script, 0), kept).s, DropFirst(script), told[1..], kept)
    ensures ToldRight(mid.received, mid.s.q.ended, mid.delivered + Delivered(told[..i]), told[i]) && InLoop(told[i])
  {
    var next := Deliver(mid, told[0], ReplyAt(script, 0), kept);
    DeliverKept(mid, told[0], ReplyAt(script, 0), kept);
    ServedRight(next, DropFirst(script), told[1..], kept, i - 1);
    DeliveredShift(told[..i]);
    assert told[..i][1..] == told[1..][..i - 1] && mid.delivered + [] == mid.delivered;
    assert next.delivered == mid.delivered && next.received == mid.received;
    assert next.s.q.ended == mid.s.q.ended;
  }

  /** What the read loop has to say. */
  predicate InLoop(t: Told) { t.Data? || t.End? || t.Truncated? }

  /** Anything else is told exactly to the read that waits while the stream dies, and is the last word of that. */
  lemma {:induction false} LastWordsExactly(moves: seq<Move>, m: Move, i: nat)
    requires Legal(START, moves + [m]) && i < |m.told|
    ensures var l := Run(START, moves);
      !InLoop(m.told[i]) <==> i == 0 && TakesRead(l, m) && !InLoop(LastWord(l.s.q, m.event))
    ensures !InLoop(m.told[i]) ==> m.told[i] == LastWord(Run(START, moves).s.q, m.event)
  {
    var l := Run(START, moves);
    var mid := Touch(l, m.event, m.kept);
    assert (moves + [m])[..|moves|] == moves;
    RunKept(moves);
    TouchKept(l, m.event, m.kept);
    if !TakesRead(l, m) {
      ServedRight(mid, m.script, m.told, m.kept, i);
    } else if i > 0 {
      ServedAfterDeath(mid, m.script, m.told, m.kept, i);
    }
  }

  // --- The Reader contract ---

  /**
   * Data, the end, or that the body was cut short, the latter two without a byte; and that it was cancelled, to
   * the read whose cancellation was asked for, which is the last one if it is told so.
   */
  predicate InContract(t: Told, l: Life, e: Event)
  {
    || InLoop(t) || t == CutShort(0) || t == Failed(PartialMessage)
    || (t == Canceled && e.CancelledBy? && e.i + 1 == l.s.q.asked)
  }

  /** After every move, a read that waits still misses something of the body. */
  predicate Settles(moves: seq<Move>)
  {
    moves == [] || (Settles(moves[..|moves| - 1]) && StillOpen(Run(START, moves).s))
  }

  /** Both read loops leave it so: the QUIC one leaves nothing waiting that it could tell anything. */
  predicate StillOpen(s: State) { s.want.Some? ==> !s.q.ended }

  /**
   * What is bad for a read that waits: the stream closes without an error, or is destroyed, and then has
   * another word for it than a truncation -- or counts bytes, if some had been read; or the cancellation of
   * another read takes it.
   */
  predicate EndsBadly(l: Life, e: Event)
  {
    && l.s.want.Some?
    && match e
       case Died(ec) => ec.None?
       case Destroyed(Failed(ec)) => ec != PartialMessage
       case Destroyed(_) => l.delivered != []
       case CancelledBy(i) => i + 1 != l.s.q.asked
       case _ => false
  }

  predicate SomeEndsBadly(moves: seq<Move>)
  {
    moves != [] &&
    var n := |moves| - 1;
    SomeEndsBadly(moves[..n]) || EndsBadly(Run(START, moves[..n]), moves[n].event)
  }

  predicate MoveBreaks(l: Life, m: Move)
  {
    exists i :: 0 <= i < |m.told| && !InContract(m.told[i], l, m.event)
  }

  /** Some read was told what the Reader contract does not have. */
  predicate BreaksContract(moves: seq<Move>)
  {
    moves != [] &&
    var n := |moves| - 1;
    BreaksContract(moves[..n]) || MoveBreaks(Run(START, moves[..n]), moves[n])
  }

  lemma SettlesOpen(moves: seq<Move>)
    requires Settles(moves)
    ensures StillOpen(Run(START, moves).s)
  {
  }

  lemma BadWord(l: Life, e: Event)
    requires StillOpen(l.s) && Possible(l, e)
    ensures EndsBadly(l, e) <==> l.s.want.Some? && Speaks(e) && !InContract(LastWord(l.s.q, e), l, e)
  {
  }

  lemma AnswersBadly(moves: seq<Move>, m: Move, i: nat)
    requires Legal(START, moves + [m]) && StillOpen(Run(START, moves).s) && i < |m.told|
    ensures var l := Run(START, moves);
      !InContract(m.told[i], l, m.event) ==> i == 0 && EndsBadly(l, m.event)
  {
    assert (moves + [m])[..|moves|] == moves;
    LastWordsExactly(moves, m, i);
    BadWord(Run(START, moves), m.event);
  }

  lemma MoveBreaksExactly(moves: seq<Move>, m: Move)
    requires Legal(START, moves + [m]) && StillOpen(Run(START, moves).s)
    ensures MoveBreaks(Run(START, moves), m) <==> EndsBadly(Run(START, moves), m.event)
  {
    var l := Run(START, moves);
    assert (moves + [m])[..|moves|] == moves;
    forall i | 0 <= i < |m.told| ensures !InContract(m.told[i], l, m.event) ==> EndsBadly(l, m.event) {
      AnswersBadly(moves, m, i);
    }
    EndsToldBadly(l, m);
  }

  lemma EndsToldBadly(l: Life, m: Move)
    requires StillOpen(l.s) && Possible(l, m.event) && Answered(l, m)
    ensures EndsBadly(l, m.event) ==> MoveBreaks(l, m)
  {
    BadWord(l, m.event);
    if EndsBadly(l, m.event) {
      assert TakesRead(l, m) && m.told[0] == LastWord(l.s.q, m.event);
      assert !InContract(m.told[0], l, m.event);
    }
  }

  lemma BrokenSnoc(moves: seq<Move>, m: Move)
    ensures var l := Run(START, moves);
      && (BreaksContract(moves + [m]) <==> BreaksContract(moves) || MoveBreaks(l, m))
      && (SomeEndsBadly(moves + [m]) <==> SomeEndsBadly(moves) || EndsBadly(l, m.event))
  {
    assert (moves + [m])[..|moves|] == moves;
  }

  lemma Shorter(moves: seq<Move>)
    requires moves != [] && Legal(START, moves)
    ensures Legal(START, moves[..|moves| - 1])
  {
  }

  lemma SettlesShorter(moves: seq<Move>)
    requires moves != [] && Settles(moves)
    ensures Settles(moves[..|moves| - 1]) && StillOpen(Run(START, moves[..|moves| - 1]).s)
  {
    SettlesOpen(moves[..|moves| - 1]);
  }

  lemma FrontAndLast<T>(s: seq<T>)
    requires s != []
    ensures s[..|s| - 1] + [s[|s| - 1]] == s
  {
  }

  /** So a run keeps the contract exactly if nothing of that happens to a read that waits. */
  lemma {:induction false} ContractBrokenExactly(moves: seq<Move>)
    requires Legal(START, moves) && Settles(moves)
    ensures BreaksContract(moves) <==> SomeEndsBadly(moves)
    decreases |moves|
  {
    if moves != [] {
      var p, m := moves[..|moves| - 1], moves[|moves| - 1];
      FrontAndLast(moves);
      Shorter(moves);
      SettlesShorter(moves);
      ContractBrokenExactly(p);
      MoveBreaksExactly(p, m);
      BrokenSnoc(p, m);
    }
  }

  lemma OneMore(moves: seq<Move>, m: Move)
    requires Legal(START, moves) && Settles(moves)
    requires var l := Run(START, moves); Possible(l, m.event) && Answered(l, m) && StillOpen(Step(l, m).s)
    ensures Legal(START, moves + [m]) && Settles(moves + [m]) && Run(START, moves + [m]) == Step(Run(START, moves), m)
  {
    assert (moves + [m])[..|moves|] == moves;
  }

  /** It does happen, in QUIC: one read, and a stream that closes cleanly or is destroyed under it. */
  lemma ContractBroken(e: Event) returns (moves: seq<Move>)
    requires e == Died(None) || e == Destroyed(Failed(ConnectionReset))
    ensures Legal(START, moves) && Settles(moves) && BreaksContract(moves)
    ensures |moves| == 2 && moves[1].event == e && moves[1].told == [LastWord(Run(START, moves[..1]).s.q, e)]
  {
    var ask := Move(Asked(1), [], [], 0);
    assert Legal(START, []) && Settles([]) && Run(START, []) == START;
    OneMore([], ask);
    moves := [] + [ask];
    var l := Run(START, moves);
    var die := Move(e, [], [LastWord(l.s.q, e)], 0);
    assert die.told[1..] == [];
    OneMore(moves, die);
    assert (moves + [die])[..1] == moves;
    moves := moves + [die];
    ContractBrokenExactly(moves);
  }

  /** And in HTTP/2: a stream that is destroyed under a read tells it of a byte that was read long before. */
  lemma ContractBrokenByCount(x: byte) returns (moves: seq<Move>)
    ensures Legal(START, moves) && Settles(moves) && BreaksContract(moves)
    ensures |moves| == 3 && moves[2].event == Destroyed(CutShort(1)) && moves[2].told == [CutShort(1)]
  {
    var come := Move(Arrived([x]), [], [], 0);
    var ask := Move(Asked(1), [Again(1)], [Data([x])], 0);
    var die := Move(Destroyed(CutShort(1)), [], [CutShort(1)], 0);
    assert Legal(START, []) && Settles([]) && Run(START, []) == START;
    OneMore([], come);
    var l := Run(START, [] + [come]);
    assert l.s.q.buffered == [x];
    assert ask.told[..0] == [] && Delivered(ask.told) == [x];
    OneMore([] + [come], ask);
    moves := [] + [come] + [ask];
    assert Run(START, moves).s.want == Some(1) && Run(START, moves).delivered == [x];
    assert die.told[1..] == [];
    OneMore(moves, die);
    moves := moves + [die];
    ContractBrokenExactly(moves);
  }

  // --- Reads and cancellations ---

  /** How many reads these moves have answered. */
  function Settled(moves: seq<Move>): nat
  {
    if moves == [] then 0
    else
      var n := |moves| - 1;
      Settled(moves[..n]) + |moves[n].told|
  }

  lemma MoveAnswers(l: Life, m: Move)
    requires Possible(l, m.event) && Answered(l, m)
    ensures var v := Step(l, m);
      v.s.q.asked + Waiting(l.s) == l.s.q.asked + |m.told| + Waiting(v.s)
  {
    var mid := Touch(l, m.event, m.kept);
    if TakesRead(l, m) {
      var next := Deliver(mid, m.told[0], ReplyAt(m.script, 0), m.kept);
      ReplyAsks(Taken(mid.s.q, m.told[0]), ReplyAt(m.script, 0), m.kept);
      OneAnswerEach(next.s, DropFirst(m.script), m.told[1..], m.kept);
    } else {
      OneAnswerEach(mid.s, m.script, m.told, m.kept);
    }
  }

  /** Every read is answered exactly once, except the one that waits, which is the last. */
  lemma {:induction false} EveryReadOnce(moves: seq<Move>)
    requires Legal(START, moves)
    ensures Run(START, moves).s.q.asked == Settled(moves) + Waiting(Run(START, moves).s)
  {
    if moves != [] {
      var n := |moves| - 1;
      EveryReadOnce(moves[..n]);
      MoveAnswers(Run(START, moves[..n]), moves[n]);
    }
  }

  /**
   * A cancellation of read `i` that comes late, when that has been answered, does something if and only if
   * another read waits: that one is told it was cancelled, and what its handler does then follows.
   */
  lemma LateReadCancellation(moves: seq<Move>, i: nat, m: Move)
    requires Legal(START, moves + [m]) && m.event == CancelledBy(i)
    requires var s := Run(START, moves).s; s.want.None? || i + 1 < s.q.asked // read `i` has been answered
    ensures var l := Run(START, moves);
      && (m.told != [] <==> l.s.want.Some?)
      && (l.s.want.None? ==> Step(l, m) == l)
      && (l.s.want.Some? ==> m.told[0] == Canceled && i < Settled(moves) == l.s.q.asked - 1)
  {
    var l := Run(START, moves);
    assert (moves + [m])[..|moves|] == moves;
    EveryReadOnce(moves);
    assert l.delivered + [] == l.delivered;
    if l.s.want.None? && m.told != [] {
      FairPrefix(l.s, m.script, m.told, m.kept, 0);
    }
  }

  /** A byte arrives, a read gets it and is issued again, and only then the cancellation of the first one comes. */
  function LateRun(x: byte): seq<Move>
  {
    [Move(Arrived([x]), [], [], 0)]
    + [Move(Asked(1), [Again(1)], [Data([x])], 0)]
    + [Move(CancelledBy(0), [], [Canceled], 0)]
  }

  /** It does happen: the second read is taken by a cancellation of the first. */
  lemma LateReadCancellationHappens(x: byte)
    ensures var moves := LateRun(x);
      Legal(START, moves) && Settles(moves) && BreaksContract(moves) && Settled(moves) == 2
  {
    var come := Move(Arrived([x]), [], [], 0);
    var ask := Move(Asked(1), [Again(1)], [Data([x])], 0);
    var late := Move(CancelledBy(0), [], [Canceled], 0);
    assert Legal(START, []) && Settles([]) && Run(START, []) == START;
    OneMore([], come);
    assert [] + [come] == [come];
    assert Run(START, [come]).s.q.buffered == [x];
    assert ask.told[..0] == [] && Delivered(ask.told) == [x];
    OneMore([come], ask);
    var two := [come] + [ask];
    assert Run(START, two).s.q.asked == 2 && Run(START, two).s.want == Some(1);
    assert late.told[1..] == [];
    OneMore(two, late);
    ContractBrokenExactly(two + [late]);
    BrokenSnoc(two, late);
    EveryReadOnce(two + [late]);
  }

  lemma ReplyEnds(q: Queue, t: Told, r: Reply, kept: nat)
    ensures Replied(Taken(q, t), r, kept).q.ended == q.ended
  {
  }

  lemma {:induction false} EndedStays(s: State, script: seq<Reply>, told: seq<Told>, kept: nat)
    requires Fair(s, script, told, kept)
    ensures Replay(s, script, told, kept).q.ended == s.q.ended
  {
    if told != [] {
      var n := |told| - 1;
      EndedStays(s, script, told[..n], kept);
      ReplyEnds(Replay(s, script, told[..n], kept).q, told[n], ReplyAt(script, n), kept);
    }
  }
}
