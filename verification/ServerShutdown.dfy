/**
 * How the server goes down: connections register and finish on threads of their own, the server is destroyed
 * on another, and the accept loop joins them all. The steps are what happens under the session mutex, and
 * they interleave in any way.
 */
module ServerShutdown {

  /** A connection, from being accepted to the callback that counts it out. A refused one is its caller's to destroy. */
  datatype Phase = Connecting | Refused | Running | Leaving | Ended

  /** TCP connections are counted and joined by the accept loop; QUIC sessions only register. */
  datatype Conn = Conn(tcp: bool, phase: Phase)

  /** The accept loop: about to look at the counter, waiting for a nudge, or gone. */
  datatype Loop = Accepting | Checking | Waiting | Done

  datatype Server = Server(conns: seq<Conn>, sessions: set<nat>, asked: set<nat>, destroyed: bool, counter: nat,
                           nudge: bool, loop: Loop)

  const START := Server([], {}, {}, false, 0, false, Accepting)

  datatype Event =
    | Accept // the accept loop takes a connection and counts it
    | Arrive // a QUIC session comes up
    | AcceptFails
    | Register(c: nat)
    | DestroyRefused(c: nat)
    | GiveUp(c: nat) // a connection that ends before it has become a session
    | Unregister(c: nat)
    | Throw(c: nat) // a session that ends without getting to unregister
    | CountOut(c: nat)
    | Destroy
    | Check
    | Wake

  predicate In(s: Server, c: nat, phase: Phase) { c < |s.conns| && s.conns[c].phase == phase }

  function To(s: Server, c: nat, phase: Phase): Server
    requires c < |s.conns|
  {
    s.(conns := s.conns[c := s.conns[c].(phase := phase)])
  }

  /** Registration is refused once the server is being destroyed. */
  function AddSession(s: Server, c: nat): Server
    requires c < |s.conns|
  {
    if s.destroyed then To(s, c, Refused) else To(s, c, Running).(sessions := s.sessions + {c})
  }

  function RemoveSession(s: Server, c: nat): Server { s.(sessions := s.sessions - {c}) }

  /** Everything registered is asked to go. */
  function DestroyAll(s: Server): Server { s.(asked := s.asked + s.sessions) }

  predicate Enabled(s: Server, e: Event)
  {
    match e
    case Accept => s.loop == Accepting
    case Arrive => true
    case AcceptFails => s.loop == Accepting
    case Register(c) => In(s, c, Connecting)
    case DestroyRefused(c) => In(s, c, Refused)
    case GiveUp(c) => In(s, c, Connecting)
    case Unregister(c) => In(s, c, Running)
    case Throw(c) => In(s, c, Running)
    case CountOut(c) => In(s, c, Leaving)
    case Destroy => true
    case Check => s.loop == Checking
    case Wake => s.loop == Waiting && s.nudge
  }

  function Step(s: Server, e: Event): Server
    requires Enabled(s, e)
  {
    match e
    case Accept => s.(conns := s.conns + [Conn(true, Connecting)], counter := s.counter + 1)
    case Arrive => s.(conns := s.conns + [Conn(false, Connecting)])
    case AcceptFails => s.(loop := Checking)
    case Register(c) => AddSession(s, c)
    case DestroyRefused(c) => To(s, c, Leaving).(asked := s.asked + {c})
    case GiveUp(c) => To(s, c, Leaving)
    case Unregister(c) => To(RemoveSession(s, c), c, Leaving)
    case Throw(c) => To(s, c, Leaving)
    case CountOut(c) =>
      var s1 := To(s, c, Ended);
      if s.conns[c].tcp && s.counter > 0 then s1.(counter := s.counter - 1, nudge := true) else s1
    case Destroy => DestroyAll(s).(destroyed := true)
    case Check => if s.counter == 0 then s.(loop := Done) else DestroyAll(s).(sessions := {}, loop := Waiting)
    case Wake => s.(nudge := false, loop := Checking)
  }

  // --- What every step keeps ---

  /** How many connections the accept loop still has to wait for. */
  function Open(conns: seq<Conn>): nat
  {
    if conns == [] then 0
    else Open(conns[..|conns| - 1]) + if conns[|conns| - 1].tcp && conns[|conns| - 1].phase != Ended then 1 else 0
  }

  lemma {:induction false} OpenUpdate(conns: seq<Conn>, c: nat, to: Conn)
    requires c < |conns|
    ensures Open(conns[c := to])
      == Open(conns) - (if conns[c].tcp && conns[c].phase != Ended then 1 else 0)
         + (if to.tcp && to.phase != Ended then 1 else 0)
  {
    var n := |conns| - 1;
    if c < n {
      OpenUpdate(conns[..n], c, to);
      assert conns[c := to][..n] == conns[..n][c := to];
    } else {
      assert conns[c := to][..n] == conns[..n];
    }
  }

  lemma OpenSnoc(conns: seq<Conn>, x: Conn)
    ensures Open(conns + [x]) == Open(conns) + if x.tcp && x.phase != Ended then 1 else 0
  {
    assert (conns + [x])[..|conns|] == conns;
  }

  lemma {:induction false} OpenNone(conns: seq<Conn>, c: nat)
    requires Open(conns) == 0 && c < |conns| && conns[c].tcp
    ensures conns[c].phase == Ended
  {
    var n := |conns| - 1;
    if c < n {
      OpenNone(conns[..n], c);
    }
  }

  /** The counter is exact, and the waiting loop has a nudge coming if there is nobody left to give one. */
  predicate JoinInv(s: Server)
  {
    && s.counter == Open(s.conns)
    && (s.loop == Waiting && s.counter == 0 ==> s.nudge)
    && (s.loop == Done ==> s.counter == 0)
  }

  /** A running session is registered or has been asked to go; once the server is destroyed, it has been asked. */
  ghost predicate AskedInv(s: Server)
  {
    && (forall c :: In(s, c, Running) ==> c in s.sessions || c in s.asked)
    && (s.destroyed ==> s.sessions <= s.asked)
    && (forall c :: In(s, c, Refused) ==> s.destroyed)
  }

  ghost predicate Inv(s: Server) { JoinInv(s) && AskedInv(s) }

  lemma JoinKept(s: Server, e: Event)
    requires JoinInv(s) && Enabled(s, e)
    ensures JoinInv(Step(s, e))
  {
    match e
    case Accept => OpenSnoc(s.conns, Conn(true, Connecting));
    case Arrive => OpenSnoc(s.conns, Conn(false, Connecting));
    case Register(c) => OpenUpdate(s.conns, c, Step(s, e).conns[c]);
    case DestroyRefused(c) => OpenUpdate(s.conns, c, Step(s, e).conns[c]);
    case GiveUp(c) => OpenUpdate(s.conns, c, Step(s, e).conns[c]);
    case Unregister(c) => OpenUpdate(s.conns, c, Step(s, e).conns[c]);
    case Throw(c) => OpenUpdate(s.conns, c, Step(s, e).conns[c]);
    case CountOut(c) => OpenUpdate(s.conns, c, Step(s, e).conns[c]);
    case _ =>
  }

  lemma AskedKept(s: Server, e: Event)
    requires AskedInv(s) && Enabled(s, e)
    ensures AskedInv(Step(s, e))
  {
    var t := Step(s, e);
    forall c | In(t, c, Running) ensures c in t.sessions || c in t.asked {
      if In(s, c, Running) {}
    }
    forall c | In(t, c, Refused) ensures t.destroyed {
      if In(s, c, Refused) {}
    }
  }

  predicate Legal(s: Server, events: seq<Event>)
    decreases |events|
  {
    events == [] || (Enabled(s, events[0]) && Legal(Step(s, events[0]), events[1..]))
  }

  function Run(s: Server, events: seq<Event>): Server
    requires Legal(s, events)
    decreases |events|
  {
    if events == [] then s else Run(Step(s, events[0]), events[1..])
  }

  lemma {:induction false} RunInv(s: Server, events: seq<Event>)
    requires Inv(s) && Legal(s, events)
    ensures Inv(Run(s, events))
    decreases |events|
  {
    if events != [] {
      JoinKept(s, events[0]);
      AskedKept(s, events[0]);
      RunInv(Step(s, events[0]), events[1..]);
    }
  }

  // --- What that means, for every interleaving ---

  /** The accept loop returns only when every connection it ever accepted is over. */
  lemma JoinsAll(events: seq<Event>, c: nat)
    requires Legal(START, events) && Run(START, events).loop == Done
    requires c < |Run(START, events).conns| && Run(START, events).conns[c].tcp
    ensures Run(START, events).conns[c].phase == Ended
  {
    RunInv(START, events);
    OpenNone(Run(START, events).conns, c);
  }

  /** And it never waits for a nudge that nobody is left to give. */
  lemma NeverWaitsInVain(events: seq<Event>)
    requires Legal(START, events) && Run(START, events).loop == Waiting
    ensures var s := Run(START, events);
      Enabled(s, Wake) || exists c: nat :: c < |s.conns| && s.conns[c].tcp && s.conns[c].phase != Ended
  {
    RunInv(START, events);
    var s := Run(START, events);
    if !s.nudge {
      OpenSome(s.conns);
    }
  }

  lemma {:induction false} OpenSome(conns: seq<Conn>)
    requires Open(conns) > 0
    ensures exists c: nat :: c < |conns| && conns[c].tcp && conns[c].phase != Ended
  {
    var n := |conns| - 1;
    if !(conns[n].tcp && conns[n].phase != Ended) {
      OpenSome(conns[..n]);
      var c: nat :| c < |conns[..n]| && conns[..n][c].tcp && conns[..n][c].phase != Ended;
      assert conns[c] == conns[..n][c];
    }
  }

  /** Once the server is destroyed, no session runs on that has not been asked to go. */
  lemma NobodyForgotten(events: seq<Event>, c: nat)
    requires Legal(START, events) && Run(START, events).destroyed && In(Run(START, events), c, Running)
    ensures c in Run(START, events).asked
  {
    RunInv(START, events);
  }

  /**
   * A connection that is no session yet when the server is destroyed never becomes one: it is refused, and
   * a refused one leaves only by being destroyed by whoever brought it.
   */
  lemma {:induction false} LateOnesAreRefused(s: Server, events: seq<Event>, c: nat)
    requires Legal(s, events) && s.destroyed && c < |s.conns| && s.conns[c].phase != Running
    ensures var t := Run(s, events);
      && t.destroyed && c < |t.conns|
      && t.conns[c].phase != Running && (c in t.sessions ==> c in s.sessions)
      && (s.conns[c].phase == Refused && t.conns[c].phase != Refused ==> c in t.asked)
      && s.asked <= t.asked
    decreases |events|
  {
    if events != [] {
      LateOnesAreRefused(Step(s, events[0]), events[1..], c);
    }
  }

  /** After a sweep, every session that runs has been asked to go, whenever it registered. */
  lemma SweepAsksAll(events: seq<Event>, c: nat)
    requires Legal(START, events) && Enabled(Run(START, events), Check)
    requires In(Run(START, events), c, Running)
    ensures var s := Run(START, events);
      var t := Step(s, Check);
      s.counter > 0 ==> c in t.asked && t.sessions == {} && t.loop == Waiting
  {
    RunInv(START, events);
  }

  // --- Each fact, by all that can make it so ---

  predicate Sweeps(s: Server, e: Event) { e == Check && s.counter > 0 }

  /** What becomes of connection `c`, its place in the registry, and whether it has been asked to go. */
  predicate Goes(s: Server, e: Event, c: nat, t: Server)
    requires c < |s.conns|
  {
    && c < |t.conns| && t.conns[c].tcp == s.conns[c].tcp
    && t.conns[c].phase == (if e == Register(c) then if s.destroyed then Refused else Running
                            else if e in {DestroyRefused(c), GiveUp(c), Unregister(c), Throw(c)} then Leaving
                            else if e == CountOut(c) then Ended
                            else s.conns[c].phase)
    && (c in t.sessions <==>
          (c in s.sessions && e != Unregister(c) && !Sweeps(s, e)) || (e == Register(c) && !s.destroyed))
    && (c in t.asked <==>
          c in s.asked || e == DestroyRefused(c) || (c in s.sessions && (e == Destroy || Sweeps(s, e))))
  }

  lemma WhatBecomesOfConnections(s: Server, e: Event, c: nat)
    requires Enabled(s, e) && c < |s.conns|
    ensures Goes(s, e, c, Step(s, e))
  {
  }

  /** The nudge comes with the end of a connection that is counted, and lasts until the loop wakes up. */
  lemma WhatNudges(s: Server, e: Event)
    requires Inv(s) && Enabled(s, e)
    ensures var t := Step(s, e);
      && (t.nudge <==> (s.nudge && e != Wake) || (e.CountOut? && s.conns[e.c].tcp))
      && (t.destroyed <==> s.destroyed || e == Destroy)
      && t.loop == (match e
                    case AcceptFails => Checking
                    case Wake => Checking
                    case Check => if Open(s.conns) == 0 then Done else Waiting
                    case _ => s.loop)
  {
    if e.CountOut? && s.conns[e.c].tcp && s.counter == 0 {
      OpenNone(s.conns, e.c);
      assert false;
    }
  }
}
