/** The server's registry of sessions and the accept loop's counter, changed in place under the session mutex. */
module ServerImpl {
  import opened ServerShutdown

  class Impl {
    var conns: seq<Conn>
    var sessions: set<nat>
    var asked: set<nat> // those destroy() has been called on
    var destroyed: bool
    var sessionCounter: nat
    var sessionDone: bool // the signal holds a nudge
    var loop: Loop

    ghost function View(): Server
      reads this
    {
      Server(conns, sessions, asked, destroyed, sessionCounter, sessionDone, loop)
    }

    ghost predicate Valid()
      reads this
    {
      Inv(View())
    }

    constructor ()
      ensures Valid() && View() == START
    {
      conns, sessions, asked := [], {}, {};
      destroyed, sessionCounter, sessionDone, loop := false, 0, false, Accepting;
    }

    method AddSession(c: nat) returns (ok: bool)
      requires Valid() && Enabled(View(), Register(c))
      modifies this
      ensures Valid() && View() == Step(old(View()), Register(c)) && ok == !destroyed
    {
      JoinKept(View(), Register(c));
      AskedKept(View(), Register(c));
      if destroyed {
        conns := conns[c := conns[c].(phase := Refused)];
        return false;
      }
      conns := conns[c := conns[c].(phase := Running)];
      sessions := sessions + {c};
      ok := true;
    }

    method RemoveSession(c: nat)
      requires Valid() && Enabled(View(), Unregister(c))
      modifies this
      ensures Valid() && View() == Step(old(View()), Unregister(c))
    {
      JoinKept(View(), Unregister(c));
      AskedKept(View(), Unregister(c));
      sessions := sessions - {c};
      conns := conns[c := conns[c].(phase := Leaving)];
    }

    method DestroySessions()
      modifies this`asked
      ensures asked == old(asked) + sessions
    {
      asked := asked + sessions;
    }

    method Destroy()
      requires Valid()
      modifies this
      ensures Valid() && View() == Step(old(View()), ServerShutdown.Destroy)
    {
      JoinKept(View(), ServerShutdown.Destroy);
      AskedKept(View(), ServerShutdown.Destroy);
      destroyed := true;
      DestroySessions();
    }

    /** The callback of a connection that is over: one less to wait for, and a nudge, dropped if one is there. */
    method CountOut(c: nat)
      requires Valid() && Enabled(View(), ServerShutdown.CountOut(c)) && conns[c].tcp
      modifies this
      ensures Valid() && View() == Step(old(View()), ServerShutdown.CountOut(c))
      ensures sessionCounter == old(sessionCounter) - 1
    {
      JoinKept(View(), ServerShutdown.CountOut(c));
      AskedKept(View(), ServerShutdown.CountOut(c));
      OpenUpdate(conns, c, conns[c].(phase := Ended));
      conns := conns[c := conns[c].(phase := Ended)];
      sessionCounter := sessionCounter - 1;
      sessionDone := true;
    }

    /** One round of the join: done at zero, else sweep the registry and wait. */
    method CheckCounter() returns (done: bool)
      requires Valid() && Enabled(View(), Check)
      modifies this
      ensures Valid() && View() == Step(old(View()), Check) && (done <==> loop == Done)
    {
      JoinKept(View(), Check);
      AskedKept(View(), Check);
      done := sessionCounter == 0;
      if done {
        loop := Done;
      } else {
        DestroySessions();
        sessions, loop := {}, Waiting;
      }
    }
  }
}
