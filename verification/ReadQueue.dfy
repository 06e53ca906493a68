/**
 * What a reader of a body sees, whichever protocol it came over: a queue of bytes that ends, or dies,
 * and reads that are answered one at a time. The QUIC and the HTTP/2 read loops both refine this.
 */
module ReadQueue {
  import opened Bytes

  /** The body as far as it has arrived and has not been delivered; `asked` is how many reads there have been. */
  datatype Queue = Queue(buffered: seq<byte>, ended: bool, closed: bool, aborted: bool, reader: bool, asked: nat) {
    predicate Dead() { closed || aborted }
  }

  /** The queue and the one read that may be waiting, with the size of its buffer. */
  datatype State = State(q: Queue, want: Option<nat>)

  datatype Error = PartialMessage | ConnectionReset | Other(code: int)

  /**
   * What a read is completed with. `Nothing`, `Failed` and `CutShort` are told by a stream that dies: success
   * without a byte, an error as it stands, and a truncation that counts bytes that were read before.
   */
  datatype Told = Data(bytes: seq<byte>) | End | Truncated | Nothing | Failed(ec: Error) | CutShort(count: nat)
                | Canceled

  /** What the reader does from inside its handler; the last two stop the body, or close the stream, and read on. */
  datatype Reply = Leave | Again(size: nat) | Discard | Stop(again: nat) | Kill(again: nat)

  /** A read of `size` bytes; one for nothing is no read, and answered on the spot. */
  function Reading(size: nat): Option<nat> { if size == 0 then None else Some(size) }

  function Asks(q: Queue, size: nat): State
  {
    State(if size == 0 then q else q.(asked := q.asked + 1), Reading(size))
  }

  /** What one read may be told: a beginning of what there is, else the end, else that it was cut short. */
  predicate Answers(s: State, t: Told)
  {
    && s.want.Some?
    && match t
       case Data(bytes) => bytes != [] && |bytes| <= s.want.value && bytes <= s.q.buffered
       case End => s.q.buffered == [] && s.q.ended
       case Truncated => s.q.buffered == [] && !s.q.ended && s.q.Dead()
       case _ => false
  }

  /** A read that waits has nothing it could be told. */
  predicate Waits(s: State)
  {
    s.want.Some? ==> s.q.buffered == [] && !s.q.ended && !s.q.Dead()
  }

  /** The rest of the body will not be read; one that has arrived in full is not affected. */
  function Abort(q: Queue): Queue
  {
    if q.ended || q.aborted then q else q.(aborted := true, buffered := [])
  }

  function Dropping(q: Queue, kept: nat): State
  {
    State(q.(buffered := Tail(q.buffered, kept), reader := false), None)
  }

  /** The last `n` bytes, if there are as many. */
  function Tail(s: seq<byte>, n: nat): seq<byte> { if n <= |s| then s[|s| - n..] else s }

  /** The queue after the reader's reply. Of what is buffered, a reader that goes away leaves the last `kept` bytes. */
  function Replied(q: Queue, r: Reply, kept: nat): State
  {
    match r
    case Leave => State(q, None)
    case Again(size) => Asks(q, size)
    case Discard => Dropping(q, kept)
    case Stop(again) => Asks(if q.Dead() then q else Abort(q), again)
    case Kill(again) => Asks(q.(closed := true), again)
  }

  function Taken(q: Queue, t: Told): Queue
  {
    if t.Data? && |t.bytes| <= |q.buffered| then q.(buffered := q.buffered[|t.bytes|..]) else q
  }

  function ReplyAt(script: seq<Reply>, i: nat): Reply { if i < |script| then script[i] else Leave }

  /** The state after the reads told `told` and the replies to them. */
  function Replay(s: State, script: seq<Reply>, told: seq<Told>, kept: nat): State
  {
    if told == [] then s
    else
      var n := |told| - 1;
      Replied(Taken(Replay(s, script, told[..n], kept).q, told[n]), ReplyAt(script, n), kept)
  }

  /** Every read was told something it may be told, at its turn. */
  predicate Fair(s: State, script: seq<Reply>, told: seq<Told>, kept: nat)
  {
    told == [] ||
    var n := |told| - 1;
    Fair(s, script, told[..n], kept) && Answers(Replay(s, script, told[..n], kept), told[n])
  }

  /** The bytes among what was told. */
  function Delivered(told: seq<Told>): seq<byte>
  {
    if told == [] then []
    else
      var n := |told| - 1;
      Delivered(told[..n]) + if told[n].Data? then told[n].bytes else []
  }

  lemma Snoc(s: State, script: seq<Reply>, told: seq<Told>, kept: nat, t: Told)
    requires Fair(s, script, told, kept) && Answers(Replay(s, script, told, kept), t)
    ensures Fair(s, script, told + [t], kept)
    ensures Replay(s, script, told + [t], kept)
      == Replied(Taken(Replay(s, script, told, kept).q, t), ReplyAt(script, |told|), kept)
    ensures Delivered(told + [t]) == Delivered(told) + if t.Data? then t.bytes else []
  {
    assert (told + [t])[..|told|] == told;
  }

  /** How much a reader leaves behind when it goes makes no difference while it is there. */
  lemma {:induction false} KeptLater(s: State, script: seq<Reply>, told: seq<Told>, j: nat, k: nat)
    requires Replay(s, script, told, j).q.reader && Fair(s, script, told, j)
    ensures Replay(s, script, told, k) == Replay(s, script, told, j) && Fair(s, script, told, k)
  {
    if told != [] {
      KeptLater(s, script, told[..|told| - 1], j, k);
    }
  }

  /** A reader that has no way of stopping the body, or closing the stream, from inside a handler. */
  predicate NeverStops(script: seq<Reply>)
  {
    forall i :: 0 <= i < |script| ==> !script[i].Stop? && !script[i].Kill?
  }

  lemma NeverStopsAt(script: seq<Reply>, i: nat)
    requires NeverStops(script)
    ensures !ReplyAt(script, i).Stop? && !ReplyAt(script, i).Kill?
  {
  }

  lemma {:induction false} FairPrefix(s: State, script: seq<Reply>, told: seq<Told>, kept: nat, i: nat)
    requires Fair(s, script, told, kept) && i < |told|
    ensures Fair(s, script, told[..i], kept) && Answers(Replay(s, script, told[..i], kept), told[i])
  {
    var n := |told| - 1;
    if i < n {
      FairPrefix(s, script, told[..n], kept, i);
      assert told[..n][..i] == told[..i];
    }
  }

  /** The first answer, and the others from there. */
  lemma {:induction false} ReplayShift(s: State, script: seq<Reply>, told: seq<Told>, kept: nat)
    requires told != []
    ensures var next := Replied(Taken(s.q, told[0]), ReplyAt(script, 0), kept);
      && Replay(next, DropFirst(script), told[1..], kept) == Replay(s, script, told, kept)
      && (Fair(s, script, told, kept) <==> Answers(s, told[0]) && Fair(next, DropFirst(script), told[1..], kept))
  {
    var n := |told| - 1;
    if n > 0 {
      ReplayShift(s, script, told[..n], kept);
      assert told[..n][1..] == told[1..][..n - 1] && told[1..][n - 1] == told[n] && told[..n][0] == told[0];
      assert ReplyAt(DropFirst(script), n - 1) == ReplyAt(script, n);
    } else {
      assert told[..0] == [] && told[1..] == [];
    }
  }

  function DropFirst(script: seq<Reply>): seq<Reply> { if script == [] then [] else script[1..] }

  /** Each answer settles one read. */
  lemma {:induction false} OneAnswerEach(s: State, script: seq<Reply>, told: seq<Told>, kept: nat)
    requires Fair(s, script, told, kept)
    ensures var t := Replay(s, script, told, kept);
      t.q.asked + Waiting(s) == s.q.asked + |told| + Waiting(t)
  {
    if told != [] {
      var n := |told| - 1;
      OneAnswerEach(s, script, told[..n], kept);
      ReplyAsks(Taken(Replay(s, script, told[..n], kept).q, told[n]), ReplyAt(script, n), kept);
    }
  }

  lemma ReplyAsks(q: Queue, r: Reply, kept: nat)
    ensures Replied(q, r, kept).q.asked == q.asked + Waiting(Replied(q, r, kept))
  {
  }

  function Waiting(s: State): nat { if s.want.Some? then 1 else 0 }

  /** No chunk that is kept is empty. */
  predicate Filled(chunks: seq<seq<byte>>) { chunks == [] || (chunks[0] != [] && Filled(chunks[1..])) }

  lemma {:induction false} FilledSnoc(chunks: seq<seq<byte>>, c: seq<byte>)
    requires Filled(chunks) && c != []
    ensures Filled(chunks + [c])
  {
    if chunks == [] {
      assert (chunks + [c])[1..] == [];
    } else {
      FilledSnoc(chunks[1..], c);
      assert (chunks + [c])[1..] == chunks[1..] + [c];
    }
  }
}
