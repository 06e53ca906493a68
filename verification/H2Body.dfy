/**
 * What an HTTP/2 stream has sent and whom it has answered, whichever of the two write paths it has. This is
 * history alone: it records what a writer does, and nothing in it keeps a writer from doing wrong.
 */
module H2Body {
  import opened Bytes

  datatype Code = Success | BrokenPipe | ConnectionReset | Canceled | ConnectionAborted

  /** A write that was accepted, by which call, and how many bytes have gone out for it. */
  datatype Issued = Issued(call: nat, data: seq<byte>, eof: bool, taken: nat)

  /** A call of async_write(), the write it became unless it was answered on the spot, and its answers. */
  datatype Call = Call(data: seq<byte>, eof: bool, write: Option<nat>, outcomes: seq<Code>)

  /** All the bytes the stack was given, whether END_STREAM was, the accepted writes and all calls. */
  datatype Body = Body(out: seq<byte>, ended: bool, writes: seq<Issued>, calls: seq<Call>)

  const NO_BODY := Body([], false, [], [])

  /** What a writer does in one step, and what it then tells the parked handler. */
  datatype Effect<+S> = Effect(s: S, told: Option<Code>)

  /** How a call is answered on the spot, in the order both write paths have; None if it is parked. */
  function Ladder(data: seq<byte>, eof: bool, requested: bool, submitted: bool, closed: bool): Option<Code>
  {
    if data == [] && !eof then Some(Success)
    else if requested && data != [] then Some(BrokenPipe)
    else if requested && submitted then Some(Success)
    else if closed then Some(ConnectionReset)
    else None
  }

  /** How the writer answers once its stream is gone, from whether the body had been ended. */
  function Detached(data: seq<byte>, eof: bool, submitted: bool): Code
  {
    if data == [] && !eof then Success
    else if submitted then if data == [] then Success else BrokenPipe
    else ConnectionAborted
  }

  predicate HasWrites(b: Body) { b.writes != [] }

  function Last(b: Body): Issued
    requires HasWrites(b)
  {
    b.writes[|b.writes| - 1]
  }

  predicate EndRequested(b: Body) { HasWrites(b) && Last(b).eof }

  // --- How history goes on ---

  function Called(b: Body, data: seq<byte>, eof: bool, answer: Option<Code>): Body
  {
    match answer
    case Some(code) => b.(calls := b.calls + [Call(data, eof, None, [code])])
    case None =>
      b.(writes := b.writes + [Issued(|b.calls|, data, eof, 0)],
         calls := b.calls + [Call(data, eof, Some(|b.writes|), [])])
  }

  /** Bytes go out, perhaps with the end of the body, on account of the write accepted last. */
  function Sent(b: Body, data: seq<byte>, end: bool): Body
    requires HasWrites(b)
  {
    var n := |b.writes| - 1;
    b.(out := b.out + data, ended := b.ended || end,
       writes := b.writes[n := Last(b).(taken := Last(b).taken + |data|)])
  }

  function Told(b: Body, id: Option<nat>, code: Option<Code>): Body
  {
    if id.Some? && code.Some? && id.value < |b.calls| then
      var c := b.calls[id.value];
      b.(calls := b.calls[id.value := c.(outcomes := c.outcomes + [code.value])])
    else b
  }

  // --- What the books should say ---

  /** What a write has contributed: a beginning of its buffer. */
  function Contribution(w: Issued): seq<byte> { w.data[..Min(w.taken, |w.data|)] }

  function Payload(writes: seq<Issued>): seq<byte>
  {
    if writes == [] then []
    else Payload(writes[..|writes| - 1]) + Contribution(writes[|writes| - 1])
  }

  predicate Contents(b: Body)
  {
    && b.out == Payload(b.writes)
    && (forall k :: 0 <= k < |b.writes| ==> b.writes[k].taken <= |b.writes[k].data|)
    && (b.ended ==> EndRequested(b) && Last(b).taken == |Last(b).data|)
  }

  predicate Links(k: nat, w: Issued, calls: seq<Call>)
  {
    w.call < |calls| && calls[w.call].write == Some(k)
  }

  predicate LinksBack(i: nat, c: Call, writes: seq<Issued>)
  {
    match c.write
    case None => true
    case Some(k) => k < |writes| && writes[k].call == i && writes[k].data == c.data && writes[k].eof == c.eof
  }

  /** Calls and writes refer to each other. */
  predicate Linked(b: Body)
  {
    && (forall k :: 0 <= k < |b.writes| ==> Links(k, b.writes[k], b.calls))
    && (forall i :: 0 <= i < |b.calls| ==> LinksBack(i, b.calls[i], b.writes))
  }

  predicate HasAnswers(i: nat, c: Call, parked: Option<nat>)
  {
    |c.outcomes| == if parked == Some(i) then 0 else 1
  }

  /** Every call is answered once, except the one that is parked, which is that of the last write. */
  predicate AnsweredOnce(b: Body, parked: Option<nat>)
  {
    && (parked.Some? ==> HasWrites(b) && Last(b).call == parked.value)
    && forall i :: 0 <= i < |b.calls| ==> HasAnswers(i, b.calls[i], parked)
  }

  predicate Succeeded(c: Call) { c.outcomes == [Success] }

  /** What a success stands for. */
  predicate Earned(b: Body, c: Call)
  {
    && (c.eof ==> b.ended)
    && match c.write
       case None => c.data == []
       case Some(k) => k < |b.writes| && b.writes[k].taken == |c.data|
  }

  predicate Truthful(b: Body)
  {
    forall i :: 0 <= i < |b.calls| && Succeeded(b.calls[i]) ==> Earned(b, b.calls[i])
  }

  predicate Books(b: Body, parked: Option<nat>)
  {
    Contents(b) && Linked(b) && AnsweredOnce(b, parked) && Truthful(b)
  }

  // --- When they keep saying it ---

  lemma PayloadSnoc(writes: seq<Issued>, w: Issued)
    ensures Payload(writes + [w]) == Payload(writes) + Contribution(w)
  {
    assert (writes + [w])[..|writes|] == writes;
  }

  lemma AnsweredBooks(b: Body, parked: Option<nat>, data: seq<byte>, eof: bool, code: Code)
    requires Books(b, parked)
    requires code == Success ==> data == [] && (eof ==> b.ended)
    ensures Books(Called(b, data, eof, Some(code)), parked)
  {
    CalledLinked(b, data, eof, Some(code));
    CalledAnswers(b, parked, data, eof, Some(code));
    CalledTruthful(b, data, eof, Some(code));
  }

  lemma ParkedBooks(b: Body, data: seq<byte>, eof: bool)
    requires Books(b, None) && !b.ended
    ensures Books(Called(b, data, eof, None), Some(|b.calls|))
  {
    CalledLinked(b, data, eof, None);
    CalledAnswers(b, None, data, eof, None);
    CalledTruthful(b, data, eof, None);
    ParkedContents(b, data, eof);
  }

  lemma ParkedContents(b: Body, data: seq<byte>, eof: bool)
    requires Contents(b) && !b.ended
    ensures Contents(Called(b, data, eof, None))
  {
    PayloadSnoc(b.writes, Issued(|b.calls|, data, eof, 0));
  }

  lemma CalledLinked(b: Body, data: seq<byte>, eof: bool, answer: Option<Code>)
    requires Linked(b)
    ensures Linked(Called(b, data, eof, answer))
  {
    var c := Called(b, data, eof, answer);
    forall k | 0 <= k < |c.writes| ensures Links(k, c.writes[k], c.calls) {
      if k < |b.writes| { assert Links(k, b.writes[k], b.calls); }
    }
    forall i | 0 <= i < |c.calls| ensures LinksBack(i, c.calls[i], c.writes) {
      if i < |b.calls| { assert LinksBack(i, b.calls[i], b.writes); }
    }
  }

  lemma CalledAnswers(b: Body, parked: Option<nat>, data: seq<byte>, eof: bool, answer: Option<Code>)
    requires Linked(b) && AnsweredOnce(b, parked) && (answer.None? ==> parked.None?)
    ensures AnsweredOnce(Called(b, data, eof, answer), if answer.Some? then parked else Some(|b.calls|))
  {
    var c := Called(b, data, eof, answer);
    var now := if answer.Some? then parked else Some(|b.calls|);
    if parked.Some? { assert Links(|b.writes| - 1, Last(b), b.calls); }
    forall i | 0 <= i < |c.calls| ensures HasAnswers(i, c.calls[i], now) {
      if i < |b.calls| { assert HasAnswers(i, b.calls[i], parked); }
    }
  }

  lemma CalledTruthful(b: Body, data: seq<byte>, eof: bool, answer: Option<Code>)
    requires Truthful(b)
    requires answer == Some(Success) ==> data == [] && (eof ==> b.ended)
    ensures Truthful(Called(b, data, eof, answer))
  {
    var c := Called(b, data, eof, answer);
    forall i | 0 <= i < |c.calls| && Succeeded(c.calls[i]) ensures Earned(c, c.calls[i]) {
      if i < |b.calls| { assert Earned(b, b.calls[i]); }
    }
  }

  lemma SentContents(b: Body, data: seq<byte>, end: bool)
    requires Contents(b) && HasWrites(b) && !b.ended
    requires var w := Last(b); w.taken + |data| <= |w.data| && data == w.data[w.taken..w.taken + |data|]
    requires end ==> Last(b).eof && Last(b).taken + |data| == |Last(b).data|
    ensures Contents(Sent(b, data, end))
  {
    var n, w := |b.writes| - 1, Last(b);
    var to := w.taken + |data|;
    var c := Sent(b, data, end);
    assert c.writes[..n] == b.writes[..n];
    assert w.data[..to] == w.data[..w.taken] + data;
    Associates(Payload(b.writes[..n]), w.data[..w.taken], data);
  }

  lemma SentBooks(b: Body, parked: nat, data: seq<byte>, end: bool)
    requires Books(b, Some(parked)) && !b.ended
    requires var w := Last(b); w.taken + |data| <= |w.data| && data == w.data[w.taken..w.taken + |data|]
    requires end ==> Last(b).eof && Last(b).taken + |data| == |Last(b).data|
    ensures Books(Sent(b, data, end), Some(parked))
  {
    SentContents(b, data, end);
    SentLinked(b, data, end);
    SentTruthful(b, parked, data, end);
  }

  lemma SentLinked(b: Body, data: seq<byte>, end: bool)
    requires Linked(b) && HasWrites(b)
    ensures Linked(Sent(b, data, end))
  {
    var c := Sent(b, data, end);
    forall k | 0 <= k < |c.writes| ensures Links(k, c.writes[k], c.calls) {
      assert Links(k, b.writes[k], b.calls);
    }
    forall i | 0 <= i < |c.calls| ensures LinksBack(i, c.calls[i], c.writes) {
      assert LinksBack(i, b.calls[i], b.writes);
    }
  }

  lemma SentTruthful(b: Body, parked: nat, data: seq<byte>, end: bool)
    requires Linked(b) && AnsweredOnce(b, Some(parked)) && Truthful(b)
    ensures Truthful(Sent(b, data, end))
  {
    var c := Sent(b, data, end);
    forall i | 0 <= i < |c.calls| && Succeeded(c.calls[i]) ensures Earned(c, c.calls[i]) {
      assert Earned(b, b.calls[i]) && LinksBack(i, b.calls[i], b.writes) && HasAnswers(i, b.calls[i], Some(parked));
    }
  }

  lemma ToldBooks(b: Body, parked: nat, code: Code)
    requires Books(b, Some(parked))
    requires code == Success ==> Last(b).taken == |Last(b).data| && (Last(b).eof ==> b.ended)
    ensures Books(Told(b, Some(parked), Some(code)), None)
  {
    assert Links(|b.writes| - 1, Last(b), b.calls);
    ToldLinked(b, parked, code);
    var c := Told(b, Some(parked), Some(code));
    forall i | 0 <= i < |c.calls| ensures HasAnswers(i, c.calls[i], None) {
      assert HasAnswers(i, b.calls[i], Some(parked));
    }
    ToldTruthful(b, parked, code);
  }

  lemma ParkedUnanswered(b: Body, parked: nat)
    requires Linked(b) && AnsweredOnce(b, Some(parked))
    ensures parked < |b.calls| && b.calls[parked].outcomes == [] && b.calls[parked].write == Some(|b.writes| - 1)
    ensures b.calls[parked].data == Last(b).data && b.calls[parked].eof == Last(b).eof
  {
    assert Links(|b.writes| - 1, Last(b), b.calls);
    assert HasAnswers(parked, b.calls[parked], Some(parked)) && LinksBack(parked, b.calls[parked], b.writes);
  }

  lemma ToldCode(b: Body, parked: nat, told: Option<Code>)
    requires parked < |b.calls| && b.calls[parked].outcomes == []
    ensures Told(b, Some(parked), told).calls[parked].outcomes == if told.Some? then [told.value] else []
  {
  }

  lemma ToldLinked(b: Body, parked: nat, code: Code)
    requires Linked(b) && parked < |b.calls|
    ensures Linked(Told(b, Some(parked), Some(code)))
  {
    var c := Told(b, Some(parked), Some(code));
    forall k | 0 <= k < |c.writes| ensures Links(k, c.writes[k], c.calls) {
      assert Links(k, b.writes[k], b.calls);
    }
    forall i | 0 <= i < |c.calls| ensures LinksBack(i, c.calls[i], c.writes) {
      assert LinksBack(i, b.calls[i], b.writes);
    }
  }

  lemma ToldTruthful(b: Body, parked: nat, code: Code)
    requires Linked(b) && AnsweredOnce(b, Some(parked)) && Truthful(b) && parked < |b.calls|
    requires code == Success ==> Last(b).taken == |Last(b).data| && (Last(b).eof ==> b.ended)
    ensures Truthful(Told(b, Some(parked), Some(code)))
  {
    var c := Told(b, Some(parked), Some(code));
    var k := |b.writes| - 1;
    assert Links(k, b.writes[k], b.calls) && LinksBack(parked, b.calls[parked], b.writes);
    assert HasAnswers(parked, b.calls[parked], Some(parked));
    assert c.calls[parked].outcomes == [code] && c.calls[parked].outcomes[0] == code;
    forall i | 0 <= i < |c.calls| && Succeeded(c.calls[i]) ensures Earned(c, c.calls[i]) {
      if i != parked { assert Earned(b, b.calls[i]); }
    }
  }

  // --- Nothing is taken back ---

  /** What was sent stays sent, the end is the end, and an answer is final. */
  predicate Grown(b: Body, c: Body)
  {
    && b.out <= c.out
    && (b.ended ==> c.ended && c.out == b.out)
    && |b.calls| <= |c.calls|
    && forall i :: 0 <= i < |b.calls| && b.calls[i].outcomes != [] ==> c.calls[i] == b.calls[i]
  }

  lemma GrownTransitive(a: Body, b: Body, c: Body)
    requires Grown(a, b) && Grown(b, c)
    ensures Grown(a, c)
  {
    forall i | 0 <= i < |a.calls| && a.calls[i].outcomes != [] ensures c.calls[i] == a.calls[i] {
      assert b.calls[i] == a.calls[i];
    }
  }

  lemma CalledGrown(b: Body, data: seq<byte>, eof: bool, answer: Option<Code>)
    ensures Grown(b, Called(b, data, eof, answer))
  {
  }

  lemma SentGrown(b: Body, data: seq<byte>, end: bool)
    requires HasWrites(b) && !b.ended
    ensures Grown(b, Sent(b, data, end))
  {
  }

  lemma ToldGrown(b: Body, parked: nat, code: Option<Code>)
    requires Linked(b) && AnsweredOnce(b, Some(parked))
    ensures Grown(b, Told(b, Some(parked), code))
  {
    ParkedUnanswered(b, parked);
  }

  /** Where the contribution of write `k` ends in the body. */
  function Where(writes: seq<Issued>, k: nat): nat
    requires k < |writes|
  {
    |Payload(writes[..k + 1])|
  }

  lemma {:induction false} WhereGrows(writes: seq<Issued>, k: nat, n: nat)
    requires k < n <= |writes|
    ensures Where(writes, k) <= |Payload(writes[..n])|
  {
    if k + 1 < n {
      WhereGrows(writes, k, n - 1);
      assert writes[..n][..n - 1] == writes[..n - 1];
    }
  }

  // --- What the books say ---

  /** What was sent is what the accepted writes contributed, in order, and a success means all of its write. */
  predicate SaysWhatWasSent(b: Body)
  {
    && b.out == Payload(b.writes)
    && forall i :: 0 <= i < |b.calls| && Succeeded(b.calls[i]) ==> AllOf(i, b.calls[i], b.writes)
  }

  predicate AllOf(i: nat, c: Call, writes: seq<Issued>)
  {
    match c.write
    case None => c.data == []
    case Some(k) => k < |writes| && writes[k].call == i && Contribution(writes[k]) == c.data
  }

  lemma BooksSaySent(b: Body, parked: Option<nat>)
    requires Books(b, parked)
    ensures SaysWhatWasSent(b)
  {
    forall i | 0 <= i < |b.calls| && Succeeded(b.calls[i]) ensures AllOf(i, b.calls[i], b.writes) {
      assert LinksBack(i, b.calls[i], b.writes) && Earned(b, b.calls[i]);
    }
  }

  /** The end was asked for by the call of the last accepted write, all of which has gone out. */
  predicate SaysWhoEnded(b: Body)
  {
    b.ended ==>
      && HasWrites(b) && Contribution(Last(b)) == Last(b).data
      && Last(b).call < |b.calls| && b.calls[Last(b).call].eof && b.calls[Last(b).call].data == Last(b).data
  }

  lemma BooksSayEnded(b: Body, parked: Option<nat>)
    requires Books(b, parked)
    ensures SaysWhoEnded(b)
  {
    if b.ended {
      assert Links(|b.writes| - 1, Last(b), b.calls);
      assert LinksBack(Last(b).call, b.calls[Last(b).call], b.writes);
    }
  }

  // --- What a call is told, by history ---

  /**
   * What a call is told on the spot, nothing if it is parked: writing past an end that was asked for breaks the pipe,
   * asking for the end again is fine once that has gone out, and a stream that has been closed, or is gone, says so.
   */
  function Entry(b: Body, data: seq<byte>, eof: bool, closed: bool, gone: bool): seq<Code>
  {
    if data == [] && !eof then [Success]
    else if (if gone then b.ended else EndRequested(b)) && data != [] then [BrokenPipe]
    else if b.ended then [Success]
    else if gone then [ConnectionAborted]
    else if closed then [ConnectionReset]
    else []
  }

  /** The books after the call, and whose handler is parked then. */
  predicate Enters(b: Body, data: seq<byte>, eof: bool, told: seq<Code>, parked: Option<nat>, c: Body, now: Option<nat>)
  {
    var id := |b.calls|;
    && |c.calls| == id + 1 && c.calls[..id] == b.calls
    && c.calls[id].data == data && c.calls[id].eof == eof && c.calls[id].outcomes == told
    && c.writes == b.writes + (if told == [] then [Issued(id, data, eof, 0)] else [])
    && c.out == b.out && c.ended == b.ended
    && now == if told == [] then Some(id) else parked
  }
}
