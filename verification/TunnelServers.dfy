/** The tunnel's server: it accepts connections, and the executor runs the handlers of the
    operations of all sessions one at a time.  Proved against the tunnel as a value. */
module TunnelServers {
  import opened Tunnel
  import opened TunnelObjects
  import TunnelSystem

  /** The sessions are what the values say they are. */
  ghost predicate Shows(accepted: seq<TunnelSession>, s: seq<Session>, manager: SessionManager)
    reads manager, set i, o | 0 <= i < |accepted| && o in accepted[i].Footprint() :: o
  {
    && |accepted| == |s|
    && forall i {:trigger Same(accepted, s, manager, i)} :: 0 <= i < |s| ==> Same(accepted, s, manager, i)
  }

  ghost predicate Same(accepted: seq<TunnelSession>, s: seq<Session>, manager: SessionManager, i: nat)
    requires i < |accepted| == |s|
    reads manager, accepted[i].Footprint()
  {
    var ses := accepted[i];
    ses.manager == manager && ses.Valid() && ses.View() == s[i]
  }

  ghost predicate Apart(accepted: seq<TunnelSession>, i: nat, j: nat)
    requires i < |accepted| && j < |accepted|
  {
    accepted[i].Footprint() !! accepted[j].Footprint()
  }

  /** No two sessions share an object. */
  ghost predicate Separated(accepted: seq<TunnelSession>) {
    forall i, j {:trigger Apart(accepted, i, j)} | 0 <= i < |accepted| && 0 <= j < |accepted| && i != j ::
      Apart(accepted, i, j)
  }

  lemma SeparatedGrows(accepted: seq<TunnelSession>, ses: TunnelSession)
    requires Separated(accepted)
    requires forall i :: 0 <= i < |accepted| ==> accepted[i].Footprint() !! ses.Footprint()
    ensures Separated(accepted + [ses])
  {
    var grown := accepted + [ses];
    forall i, j | 0 <= i < |grown| && 0 <= j < |grown| && i != j
      ensures Apart(grown, i, j)
    {
      assert i < |accepted| && j < |accepted| ==> Apart(accepted, i, j);
    }
  }

  lemma NextAt(s: seq<Session>, i: nat, e: Event, t: Session)
    requires TunnelSystem.SystemOk(s) && TunnelSystem.CanHappen(s, TunnelSystem.At(i, e)) && t == Step(s[i], e)
    ensures TunnelSystem.Next(s, TunnelSystem.At(i, e)) == s[i := t]
  {
  }

  /** One event of one session; every other session stays exactly as it was, its place in the
      set included. */
  method Deliver(
      ghost accepted: seq<TunnelSession>, manager: SessionManager,
      ses: TunnelSession, e: Event, ghost i: nat, ghost s: seq<Session>)
    returns (ghost s': seq<Session>)
    requires Separated(accepted) && Shows(accepted, s, manager) && i < |accepted| && Enabled(s[i], e)
    requires ses == accepted[i]
    modifies manager, ses.Footprint()
    ensures |s'| == |s| && s' == s[i := s'[i]] && Shows(accepted, s', manager)
    ensures Becomes(s[i], e, s'[i])
    ensures manager.sessions == old(manager.sessions) - (if Gives(e) then {ses} else {})
  {
    assert Same(accepted, s, manager, i);
    ses.Happen(e);
    s' := s[i := ses.View()];
    forall j | 0 <= j < |s'|
      ensures Same(accepted, s', manager, j)
    {
      if j != i {
        assert old(Same(accepted, s, manager, j)) && Apart(accepted, i, j);
      }
    }
  }

  lemma Stepped(s: seq<Session>, i: nat, e: Event, t: Session)
    requires TunnelSystem.SystemOk(s) && TunnelSystem.CanHappen(s, TunnelSystem.At(i, e)) && Becomes(s[i], e, t)
    ensures TunnelSystem.Next(s, TunnelSystem.At(i, e)) == s[i := t]
  {
    NextAt(s, i, e, t);
  }

  /** The session that the outstanding accept operation holds, as it was made. */
  ghost predicate Unused(ses: TunnelSession, accepted: seq<TunnelSession>, manager: SessionManager)
    reads ses.Footprint(), ses.manager
  {
    && ses.manager == manager && ses.Valid() && ses.pending == multiset{} && ses.localOpen && !ses.remoteOpen
    && ses.View().up == ses.View().down == Start().up
    && forall i {:trigger accepted[i]} :: 0 <= i < |accepted| ==> accepted[i].Footprint() !! ses.Footprint()
  }

  /** An accepted session starts; every other session stays exactly as it was. */
  method Enter(ghost accepted: seq<TunnelSession>, ses: TunnelSession, manager: SessionManager, ghost s: seq<Session>)
    requires Separated(accepted) && Shows(accepted, s, manager) && Unused(ses, accepted, manager)
    modifies manager, ses`pending
    ensures Separated(accepted + [ses]) && Shows(accepted + [ses], s + [Start()], manager)
    ensures manager.sessions == old(manager.sessions) + {ses}
  {
    ses.Start();
    SeparatedGrows(accepted, ses);
    forall j | 0 <= j < |s| + 1
      ensures Same(accepted + [ses], s + [Start()], manager, j)
    {
      if j < |s| {
        assert old(Same(accepted, s, manager, j));
        assert accepted[j].Footprint() !! ses.Footprint();
      }
    }
  }

  class TunnelServer {
    const manager: SessionManager
    /** Every session that has been started. */
    ghost var accepted: seq<TunnelSession>
    /** The session that the outstanding accept operation holds. */
    var waiting: TunnelSession

    ghost predicate Represents(s: seq<Session>)
      reads this, manager, waiting.Footprint(), waiting.manager
      reads set i, o | 0 <= i < |accepted| && o in accepted[i].Footprint() :: o
    {
      Serves(s) && Unused(waiting, accepted, manager)
    }

    constructor ()
      ensures Represents([])
    {
      var m := new SessionManager();
      var ses := new TunnelSession(m);
      manager, waiting, accepted := m, ses, [];
    }

    /** The executor delivers one event of one session. */
    method Handle(ses: TunnelSession, e: Event, ghost i: nat, ghost s: seq<Session>) returns (ghost s': seq<Session>)
      requires Represents(s) && TunnelSystem.CanHappen(s, TunnelSystem.At(i, e))
      requires ses == accepted[i]
      modifies manager, ses.Footprint()
      ensures Represents(s') && s' == TunnelSystem.Next(s, TunnelSystem.At(i, e))
    {
      s' := Deliver(accepted, manager, ses, e, i, s);
      Stepped(s, i, e, s'[i]);
    }

    /** Everything but the outstanding accept operation. */
    ghost predicate Serves(s: seq<Session>)
      reads this, manager, set i, o | 0 <= i < |accepted| && o in accepted[i].Footprint() :: o
    {
      && TunnelSystem.SystemOk(s) && Separated(accepted) && Shows(accepted, s, manager)
      && manager.sessions <= set ses <- accepted
    }

    /** A new session, and an accept operation that holds it. */
    method StartAccept(ghost s: seq<Session>)
      requires Serves(s)
      modifies this`waiting
      ensures Represents(s)
    {
      waiting := new TunnelSession(manager);
      forall j | 0 <= j < |s|
        ensures Same(accepted, s, manager, j)
      {
        assert this !in accepted[j].Footprint();
        assert old(Same(accepted, s, manager, j));
      }
    }

    method Admit(ghost s: seq<Session>)
      requires Represents(s)
      modifies this`accepted, manager, waiting`pending
      ensures Serves(s + [Start()]) && accepted == old(accepted) + [waiting]
      ensures manager.sessions == old(manager.sessions) + {waiting}
    {
      Enter(accepted, waiting, manager, s);
      accepted := accepted + [waiting];
      forall j | 0 <= j < |s| + 1
        ensures Same(accepted, s + [Start()], manager, j)
      {
        assert this !in accepted[j].Footprint();
      }
    }

    /** An accept operation is over, and the next one begins. */
    method AcceptCompleted(ok: bool, ghost s: seq<Session>) returns (ghost s': seq<Session>)
      requires Represents(s)
      modifies this, manager, waiting`pending
      ensures Represents(s') && s' == TunnelSystem.Next(s, TunnelSystem.Accept(ok))
      ensures accepted == if ok then old(accepted) + [old(waiting)] else old(accepted)
      ensures manager.sessions == if ok then old(manager.sessions) + {old(waiting)} else old(manager.sessions)
    {
      s' := TunnelSystem.Next(s, TunnelSystem.Accept(ok));
      if ok {
        Admit(s);
      }
      StartAccept(s');
    }
  }
}
