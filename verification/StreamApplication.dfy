/**
 * Class StreamApplication (src/quic/streams.cpp) and the packing loop of QuicSession
 * (src/quic/session.cpp), the way they are written: a queue and flags changed in place.
 */
module StreamApplication {
  import opened Bytes
  import opened QuicTx
  import opened QuicApp
  import opened QuicAppProofs

  /** What ngtcp2 and the connection answer, one call after the other. */
  datatype Answer = Answer(gone: bool, credit: bool, outcome: Outcome)

  /**
   * What ngtcp2_conn_writev_stream() answers when it says anything about a stream only to a call that names
   * one, and asks for more data only after it has used room in the packet.
   */
  predicate Sensible(o: Outcome, named: bool, space: nat)
  {
    && (o.DataBlocked? || o.StreamShut? ==> named)
    && (o.WriteMore? ==> named && 0 < o.used <= space)
  }

  /** What write_pkt() returns; the loop is still running when there are no more answers. */
  datatype Packed = Nothing | Failure | Packet | Running

  /** The passes of the loop, one after the other. */
  function Passes(a: App, trace: seq<(bool, Outcome)>): App
  {
    if trace == [] then a
    else
      var n := |trace| - 1;
      Pass(Passes(a, trace[..n]), trace[n].0, trace[n].1)
  }

  lemma {:induction false} PassesOk(a: App, trace: seq<(bool, Outcome)>)
    requires AppInv(a)
    ensures AppInv(Passes(a, trace)) && Rotated(a, Passes(a, trace))
  {
    RotatedSelf(a);
    if trace != [] {
      var n := |trace| - 1;
      var b := Passes(a, trace[..n]);
      PassesOk(a, trace[..n]);
      PassOk(b, trace[n].0, trace[n].1);
      RotatedTransitive(a, b, Passes(a, trace));
    }
  }

  /** The passes are those the answers ask for; a stream that is still not found at the end goes unreported. */
  predicate Follows(trace: seq<(bool, Outcome)>, answers: seq<Answer>)
  {
    && |trace| <= |answers|
    && forall i :: 0 <= i < |trace| ==>
         trace[i].0 == answers[i].credit && !answers[i].gone &&
         (trace[i].1 == answers[i].outcome ||
          (i == |trace| - 1 && answers[i].outcome == NotFound && trace[i].1 == Done(None)))
  }

  lemma FollowsSnoc(trace: seq<(bool, Outcome)>, answers: seq<Answer>, o: Outcome)
    requires Follows(trace, answers) && |trace| < |answers| && !answers[|trace|].gone
    requires |trace| == 0 || trace[|trace| - 1].1 == answers[|trace| - 1].outcome
    requires var a := answers[|trace|]; o == a.outcome || (a.outcome == NotFound && o == Done(None))
    ensures Follows(trace + [(answers[|trace|].credit, o)], answers)
  {
  }

  /** The connection is gone, or the stream that is not found has been reported before. */
  predicate Gives(trace: seq<(bool, Outcome)>, answers: seq<Answer>)
  {
    if |trace| < |answers| && answers[|trace|].gone then true
    else trace != [] && |trace| <= |answers| && answers[|trace| - 1].outcome == NotFound
  }

  /** The room left in the packet after these passes. */
  function Space(destlen: nat, trace: seq<(bool, Outcome)>): nat
  {
    if trace == [] then destlen
    else
      var n := |trace| - 1;
      var space := Space(destlen, trace[..n]);
      if trace[n].1.WriteMore? then space - Min(trace[n].1.used, space) else space
  }

  /** How many of them ended in an answer that was not sensible. */
  function Idle(a: App, destlen: nat, trace: seq<(bool, Outcome)>): nat
  {
    if trace == [] then 0
    else
      var n := |trace| - 1;
      var named := Found(Passes(a, trace[..n]), trace[n].0).1.Some?;
      Idle(a, destlen, trace[..n]) + if Sensible(trace[n].1, named, Space(destlen, trace[..n])) then 0 else 1
  }

  lemma TraceSnoc(a: App, destlen: nat, trace: seq<(bool, Outcome)>, credit: bool, o: Outcome)
    ensures var t := trace + [(credit, o)];
      && Passes(a, t) == Pass(Passes(a, trace), credit, o)
      && Space(destlen, t) == Space(destlen, trace) - (if o.WriteMore? then Min(o.used, Space(destlen, trace)) else 0)
      && Idle(a, destlen, t) == Idle(a, destlen, trace)
           + if Sensible(o, Found(Passes(a, trace), credit).1.Some?, Space(destlen, trace)) then 0 else 1
  {
    assert (trace + [(credit, o)])[..|trace|] == trace;
  }

  /** Where the loop stands after these passes; `queued` streams are queued, and there were never more than `most`. */
  predicate Going(a: App, destlen: nat, answers: seq<Answer>, trace: seq<(bool, Outcome)>, space: nat, queued: nat,
                  most: nat)
  {
    && Follows(trace, answers) && (trace != [] ==> trace[|trace| - 1].1 == answers[|trace| - 1].outcome)
    && space == Space(destlen, trace) && queued <= most
    && |trace| + Measure(space, queued, most) <= Idle(a, destlen, trace) + Measure(destlen, most, most)
  }

  lemma GoingOn(a: App, destlen: nat, answers: seq<Answer>, trace: seq<(bool, Outcome)>, space: nat, queued: nat,
                most: nat, o: Outcome, left: nat, queued': nat)
    requires Going(a, destlen, answers, trace, space, queued, most)
    requires |trace| < |answers| && !answers[|trace|].gone && queued' <= queued
    requires var x := answers[|trace|]; o == x.outcome || (x.outcome == NotFound && o == Done(None))
    requires left == space - (if o.WriteMore? then Min(o.used, space) else 0)
    requires Measure(left, queued', most) <= Measure(space, queued, most)
    requires var named := Found(Passes(a, trace), answers[|trace|].credit).1.Some?;
      Sensible(o, named, space) && !o.Done? && o != Fatal ==>
        Measure(left, queued', most) < Measure(space, queued, most)
    ensures var x := answers[|trace|];
      var t := trace + [(x.credit, o)];
      && Passes(a, t) == Pass(Passes(a, trace), x.credit, o) && Follows(t, answers)
      && |t| <= Idle(a, destlen, t) + Measure(destlen, most, most) + 1
      && (!o.Done? && o != Fatal ==> Going(a, destlen, answers, t, left, queued', most))
  {
    TraceSnoc(a, destlen, trace, answers[|trace|].credit, o);
    FollowsSnoc(trace, answers, o);
  }

  /** How much longer the loop can go on: room in the packet first, then streams in the queue. */
  function Measure(space: nat, queued: nat, most: nat): nat { space * (most + 1) + queued }

  lemma MeasureDrops(space: nat, used: nat, before: nat, after: nat, most: nat)
    requires after <= most
    ensures 0 < used <= space ==> Measure(space - used, after, most) < Measure(space, before, most)
    ensures after <= before ==> Measure(space - Min(used, space), after, most) <= Measure(space, before, most)
  {
    if used <= space {
      assert (space - used) * (most + 1) == space * (most + 1) - used * (most + 1);
      assert used > 0 ==> used * (most + 1) >= most + 1;
    }
  }

  class Application {
    var streams: map<nat, PlainStream>
    var writeQueue: seq<nat>
    var closed: bool
    ghost var ever: set<nat>
    ghost var removed: nat

    ghost function View(): App
      reads this
    {
      App(streams, writeQueue, closed, ever, removed)
    }

    constructor ()
      ensures View() == NO_STREAMS
    {
      streams, writeQueue, closed, ever, removed := map[], [], false, {}, 0;
    }

    method Schedule(id: nat)
      requires id in streams
      modifies this`streams, this`writeQueue
      ensures View() == QuicApp.Schedule(old(View()), id)
    {
      if streams[id].scheduled || streams[id].blocked || closed {
        return;
      }
      streams := streams[id := streams[id].(scheduled := true)];
      writeQueue := writeQueue + [id];
    }

    method UnscheduleFront(id: nat)
      requires id in streams
      modifies this`streams, this`writeQueue, this`removed
      ensures View() == QuicApp.UnscheduleFront(old(View()), id)
    {
      if |writeQueue| > 0 && writeQueue[0] == id {
        writeQueue := writeQueue[1..];
        removed := removed + 1;
      }
      streams := streams[id := streams[id].(scheduled := false)];
    }

    /** Every pass of the loop takes an entry off the queue, or returns. */
    method NextStreamData() returns (found: Option<(nat, Offer)>)
      modifies this`streams, this`writeQueue, this`removed
      ensures (View(), found) == Next(old(View()))
    {
      while |writeQueue| > 0
        invariant Next(View()) == Next(old(View()))
        decreases |writeQueue|
      {
        var id := writeQueue[0];
        if id !in streams {
          writeQueue := writeQueue[1..];
          removed := removed + 1;
          continue;
        }
        if streams[id].blocked {
          UnscheduleFront(id);
          continue;
        }
        var p := streams[id];
        streams := streams[id := Asked(p)];
        if NothingToSend(p) {
          UnscheduleFront(id);
          continue;
        }
        return Some((id, Look(p)));
      }
      found := None;
    }

    method OnStreamDataWritten(id: nat, n: nat, fin: bool)
      modifies this`streams, this`writeQueue, this`removed
      ensures View() == if id in old(streams) then Written(old(View()), id, n, fin) else old(View())
    {
      if id !in streams {
        return;
      }
      UnscheduleFront(id);
      var eff := PlainWritten(streams[id].tx, n, fin);
      streams := streams[id := streams[id].(tx := eff.tx)];
      if eff.writable {
        Schedule(id);
      }
      Schedule(id);
    }

    method OnStreamBlocked(id: nat)
      modifies this`streams, this`writeQueue, this`removed
      ensures View() == if id in old(streams) then Blocked(old(View()), id) else old(View())
    {
      if id in streams {
        streams := streams[id := streams[id].(blocked := true)];
        UnscheduleFront(id);
      }
    }

    /** The window of the stream has been extended: it is blocked no longer, and gets its turn. */
    method ExtendMaxStreamData(id: nat)
      modifies this`streams, this`writeQueue
      ensures View() == if id in old(streams) then AppStep(old(View()), Extend(id)) else old(View())
      ensures id in streams ==> !streams[id].blocked
    {
      if id in streams {
        streams := streams[id := streams[id].(blocked := false)];
        Schedule(id);
      }
    }

    method OnStreamShutWr(id: nat)
      modifies this`streams, this`writeQueue, this`removed
      ensures View() == if id in old(streams) then ShutWr(old(View()), id) else old(View())
    {
      if id in streams {
        UnscheduleFront(id);
        streams := streams[id := streams[id].(tx := AbortWriting(streams[id].tx, ConnectionReset).tx)];
      }
    }

    method ReportWritten(found: Option<(nat, Offer)>, n: Option<nat>)
      requires found.Some? ==> found.value.0 in streams
      modifies this`streams, this`writeQueue, this`removed
      ensures View() == Report(old(View()), found, n)
    {
      if found.Some? && n.Some? {
        var (id, o) := found.value;
        var all := |Gathered(o.tx, o.slices)|;
        OnStreamDataWritten(id, Min(n.value, all), o.fin && n.value >= all);
      }
    }

    /**
     * write_pkt(): packs one packet of `destlen` bytes, with what ngtcp2 and the connection answer along the
     * way. A sensible answer uses up room in the packet, or takes a stream off the queue, or ends the loop;
     * after any other the loop goes on all the same. `trace` are its passes.
     */
    method WritePkt(answers: seq<Answer>, destlen: nat) returns (r: Packed, ghost trace: seq<(bool, Outcome)>)
      requires AppInv(View())
      modifies this`streams, this`writeQueue, this`removed
      ensures View() == Passes(old(View()), trace)
      ensures AppInv(View()) && Rotated(old(View()), View())
      ensures r == Packet ==> trace != [] && trace[|trace| - 1].1.Done?
      ensures r == Failure ==> trace != [] && trace[|trace| - 1].1 == Fatal
      ensures r == Running ==> |trace| == |answers|
      ensures r == Nothing ==> Gives(trace, answers)
      ensures Follows(trace, answers)
      ensures |trace| <= Idle(old(View()), destlen, trace) + Measure(destlen, |old(writeQueue)|, |old(writeQueue)|) + 1
    {
      r, trace := Pack(answers, destlen);
      PassesOk(old(View()), trace);
    }

    method Pack(answers: seq<Answer>, destlen: nat) returns (r: Packed, ghost trace: seq<(bool, Outcome)>)
      modifies this`streams, this`writeQueue, this`removed
      ensures View() == Passes(old(View()), trace) && Follows(trace, answers)
      ensures r == Packet ==> trace != [] && trace[|trace| - 1].1.Done?
      ensures r == Failure ==> trace != [] && trace[|trace| - 1].1 == Fatal
      ensures r == Running ==> |trace| == |answers|
      ensures r == Nothing ==> Gives(trace, answers)
      ensures |trace| <= Idle(old(View()), destlen, trace) + Measure(destlen, |old(writeQueue)|, |old(writeQueue)|) + 1
    {
      var space, shutDown, call := destlen, None, 0;
      ghost var most := |writeQueue|;
      r, trace := Running, [];
      while call < |answers|
        invariant call == |trace| && r == Running && View() == Passes(old(View()), trace)
        invariant Going(old(View()), destlen, answers, trace, space, |writeQueue|, most)
        decreases |answers| - call
      {
        var a := answers[call];
        if a.gone {
          r := Nothing;
          break;
        }
        ghost var o, had, queued := Fatal, space, |writeQueue|;
        r, space, shutDown, o := OnePass(a, space, shutDown, most);
        GoingOn(old(View()), destlen, answers, trace, had, queued, most, o, space, |writeQueue|);
        trace := trace + [(a.credit, o)];
        call := call + 1;
        if r != Running { break; }
      }
    }

    /** One pass of the loop, given what is answered in it; `o` is what comes of that for the streams. */
    method OnePass(a: Answer, space: nat, shutDown: Option<nat>, ghost most: nat)
      returns (r: Packed, left: nat, shut: Option<nat>, ghost o: Outcome)
      requires !a.gone && |writeQueue| <= most
      modifies this`streams, this`writeQueue, this`removed
      ensures View() == Pass(old(View()), a.credit, o)
      ensures o == a.outcome || (r == Nothing && a.outcome == NotFound && o == Done(None))
      ensures r == if o == Fatal then Failure
                   else if !o.Done? then Running
                   else if a.outcome == NotFound then Nothing else Packet
      ensures left == space - (if o.WriteMore? then Min(o.used, space) else 0)
      ensures |writeQueue| <= |old(writeQueue)|
      ensures Measure(left, |writeQueue|, most) <= Measure(space, |old(writeQueue)|, most)
      ensures r == Running && Sensible(o, Found(old(View()), a.credit).1.Some?, space) ==>
        Measure(left, |writeQueue|, most) < Measure(space, |old(writeQueue)|, most)
    {
      var found: Option<(nat, Offer)> := None;
      if a.credit {
        found := NextStreamData();
      }
      left, shut, o := space, shutDown, a.outcome;
      if a.outcome == NotFound && (found.None? || shutDown == Some(found.value.0)) {
        // nothing is reported back to the stream: this pass ends with what was found
        o := Done(None);
        return Nothing, left, shut, o;
      }
      Act(found, a.outcome);
      match a.outcome
      case NotFound => r, shut := Running, Some(found.value.0);
      case WriteMore(_, used) =>
        MeasureDrops(space, used, |old(writeQueue)|, |writeQueue|, most);
        r, left := Running, space - Min(used, space);
      case Fatal => r := Failure;
      case Done(_) => r := Packet;
      case _ => r := Running;
    }

    /** What an answer means for the stream that was named; one that cannot send on leaves the queue. */
    method Act(found: Option<(nat, Offer)>, o: Outcome)
      requires found.Some? ==> found.value.0 in streams
      requires found.Some? ==> writeQueue != [] && writeQueue[0] == found.value.0
      modifies this`streams, this`writeQueue, this`removed
      ensures View() == Acted(old(View()), found, o)
      ensures |writeQueue| <= |old(writeQueue)|
      ensures found.Some? && (o.DataBlocked? || o.StreamShut? || o.NotFound?) ==> |writeQueue| < |old(writeQueue)|
    {
      match o
      case DataBlocked =>
        if found.Some? {
          OnStreamBlocked(found.value.0);
        }
      case StreamShut =>
        if found.Some? {
          OnStreamShutWr(found.value.0);
        }
      case NotFound =>
        if found.Some? {
          OnStreamShutWr(found.value.0);
          OnStreamBlocked(found.value.0);
        }
      case WriteMore(n, used) =>
        ReportWritten(found, n);
      case Fatal =>
      case Done(n) =>
        ReportWritten(found, n);
    }
  }
}
