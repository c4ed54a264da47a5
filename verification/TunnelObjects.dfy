/** The tunnel's session and its manager as objects updated in place, proved against the
    session as a value. */
module TunnelObjects {
  import opened Basics
  import opened Tunnel

  /** The session t becomes t' by the event e.  Stated with a quantifier, so that proofs about
      the other sessions need not look into Step. */
  ghost predicate Becomes(t: Session, e: Event, t': Session) {
    SessionOk(t) && Enabled(t, e) && forall f {:trigger Step(t, f)} :: f == e ==> t' == Step(t, f)
  }

  class SessionManager {
    var sessions: set<TunnelSession>

    constructor ()
      ensures sessions == {}
    {
      sessions := {};
    }

    method Join(ses: TunnelSession)
      modifies this
      ensures sessions == old(sessions) + {ses}
    {
      sessions := sessions + {ses};
    }

    /** A session that is not in the set any more is stopped again, and the set stays. */
    method Leave(ses: TunnelSession)
      requires ses.Valid() && ses.manager == this
      modifies this, ses`pending, ses`localOpen
      ensures sessions == old(sessions) - {ses}
      ensures ses.View() == Tunnel.Leave(old(ses.View()))
    {
      ses.Close();
      sessions := sessions - {ses};
    }
  }

  class TunnelSession {
    const manager: SessionManager
    const localBuffer: array<byte>
    const remoteBuffer: array<byte>
    var pending: multiset<Op>
    var localOpen: bool
    var remoteOpen: bool
    ghost var receivedUp: seq<byte>
    ghost var sentUp: seq<byte>
    ghost var receivedDown: seq<byte>
    ghost var sentDown: seq<byte>

    ghost function Footprint(): set<object> {
      {this, localBuffer, remoteBuffer}
    }

    ghost function View(): Session
      reads this, manager, localBuffer, remoteBuffer
    {
      Session(Chain(localBuffer[..], receivedUp, sentUp), Chain(remoteBuffer[..], receivedDown, sentDown),
              pending, localOpen, remoteOpen, this in manager.sessions)
    }

    ghost predicate Valid()
      reads this, manager, localBuffer, remoteBuffer
    {
      localBuffer != remoteBuffer && SessionOk(View())
    }

    constructor (manager: SessionManager)
      ensures this.manager == manager && fresh({this, localBuffer, remoteBuffer})
      ensures Valid() && pending == multiset{} && localOpen && !remoteOpen
      ensures View().up == View().down == Tunnel.Start().up
      ensures localBuffer.Length == remoteBuffer.Length == 0x4000
    {
      this.manager := manager;
      localBuffer := new byte[MAX_BUFFER_SIZE](_ => 0);
      remoteBuffer := new byte[MAX_BUFFER_SIZE](_ => 0);
      pending, localOpen, remoteOpen := multiset{}, true, false;
      receivedUp, sentUp, receivedDown, sentDown := [], [], [], [];
      new;
      assert localBuffer[..] == Tunnel.Start().up.buffer;
      assert remoteBuffer[..] == Tunnel.Start().up.buffer;
    }

    method Begin(op: Op)
      requires Valid() && OpOk(op)
      modifies this`pending
      ensures Valid() && View() == Tunnel.Begin(old(View()), op)
    {
      pending := pending + multiset{op};
    }

    /** The connection has been accepted. */
    method Start()
      requires Valid() && pending == multiset{} && localOpen && !remoteOpen
      requires View().up == View().down == Tunnel.Start().up
      modifies this`pending, manager
      ensures Valid() && View() == Tunnel.Start()
      ensures manager.sessions == old(manager.sessions) + {this}
    {
      manager.Join(this);
      Begin(Resolve);
    }

    method Close()
      requires Valid()
      modifies this`pending, this`localOpen
      ensures Valid() && View() == Tunnel.Close(old(View()))
    {
      if localOpen {
        localOpen := false;
      }
      if remoteOpen {
        Begin(Shutdown);
        Begin(NullWrite);
      }
    }

    method ResolveDone(ok: bool)
      requires Valid()
      modifies this`pending, this`localOpen, this`remoteOpen, manager
      ensures Valid() && View() == Handle(old(View()), Resolve, ok)
      ensures manager.sessions == old(manager.sessions) - if ok then {} else {this}
    {
      if ok {
        remoteOpen := true;
        Begin(Connecting);
      } else {
        manager.Leave(this);
      }
    }

    method ConnectDone(ok: bool)
      requires Valid()
      modifies this`pending, this`localOpen, manager
      ensures Valid() && View() == Handle(old(View()), Connecting, ok)
      ensures manager.sessions == old(manager.sessions) - if ok then {} else {this}
    {
      if ok {
        Begin(Handshake);
      } else {
        manager.Leave(this);
      }
    }

    method HandshakeDone(ok: bool)
      requires Valid()
      modifies this`pending, this`localOpen, manager
      ensures Valid() && View() == Handle(old(View()), Handshake, ok)
      ensures manager.sessions == old(manager.sessions) - if ok then {} else {this}
    {
      if ok {
        Begin(Read(Up));
        Begin(Read(Down));
      } else {
        manager.Leave(this);
      }
    }

    /** The completion of a read of n bytes on either side: what has been read is written to
        the other side, from the same buffer. */
    method ReadDone(way: Way, n: nat, ok: bool)
      requires Valid() && n <= MAX_BUFFER_SIZE
      modifies this`pending, this`localOpen, manager
      ensures Valid() && View() == Handle(old(View()), Filled(way, n), ok)
      ensures manager.sessions == old(manager.sessions) - if ok && n > 0 then {} else {this}
    {
      if ok && n > 0 {
        Begin(Write(way, n, 0));
      } else {
        manager.Leave(this);
      }
    }

    method WriteDone(way: Way, len: nat, sent: nat, ok: bool)
      requires Valid() && sent <= len <= MAX_BUFFER_SIZE
      modifies this`pending, this`localOpen, manager
      ensures Valid() && View() == Handle(old(View()), Write(way, len, sent), ok)
      ensures manager.sessions == old(manager.sessions) - if ok && len > 0 then {} else {this}
    {
      if ok && len > 0 {
        Begin(Read(way));
      } else {
        manager.Leave(this);
      }
    }

    method End(op: Op)
      requires Valid()
      modifies this`pending
      ensures Valid() && View() == old(View()).(pending := old(pending) - multiset{op})
    {
      pending := pending - multiset{op};
    }

    method RunHandler(op: Op, ok: bool)
      requires Valid() && OpOk(op)
      modifies this`pending, this`localOpen, this`remoteOpen, manager
      ensures Valid() && View() == Handle(old(View()), op, ok)
      ensures manager.sessions == old(manager.sessions) - if Leaves(op, ok) then {this} else {}
    {
      match op
      case Resolve => ResolveDone(ok);
      case Connecting => ConnectDone(ok);
      case Handshake => HandshakeDone(ok);
      case Filled(way, n) => ReadDone(way, n, ok);
      case Write(way, len, sent) => WriteDone(way, len, sent, ok);
      case Read(_) => manager.Leave(this);
      case Shutdown | NullWrite => remoteOpen := false;
    }

    /** An operation is over: the executor lets go of it and runs its handler. */
    method Complete(op: Op, ok: bool)
      requires Valid() && Enabled(View(), Done(op, ok))
      modifies this`pending, this`localOpen, this`remoteOpen, manager
      ensures Valid() && View() == Step(old(View()), Done(op, ok))
      ensures manager.sessions == old(manager.sessions) - if Leaves(op, ok) then {this} else {}
    {
      End(op);
      RunHandler(op, ok);
    }

    // ---------- what the operating system does to the buffers ----------

    method Arrive(way: Way, bytes: seq<byte>)
      requires Valid() && Enabled(View(), Tunnel.Arrive(way, bytes))
      modifies this`pending, this`receivedUp, this`receivedDown, localBuffer, remoteBuffer
      ensures Valid() && View() == Step(old(View()), Tunnel.Arrive(way, bytes))
    {
      if way == Up {
        CopyToFront(bytes, localBuffer);
        receivedUp := receivedUp + bytes;
      } else {
        CopyToFront(bytes, remoteBuffer);
        receivedDown := receivedDown + bytes;
      }
      pending := pending - multiset{Read(way)} + multiset{Filled(way, |bytes|)};
    }

    method Depart(op: Op, k: nat) returns (bytes: seq<byte>)
      requires Valid() && Enabled(View(), Tunnel.Depart(op, k))
      modifies this`pending, this`sentUp, this`sentDown
      ensures Valid() && View() == Step(old(View()), Tunnel.Depart(op, k))
      ensures Of(View(), op.way).sent == old(Of(View(), op.way).sent) + bytes
    {
      if op.way == Up {
        bytes := localBuffer[op.sent..op.sent + k];
        sentUp := sentUp + bytes;
      } else {
        bytes := remoteBuffer[op.sent..op.sent + k];
        sentDown := sentDown + bytes;
      }
      pending := pending - multiset{op} + multiset{Write(op.way, op.len, op.sent + k)};
    }

    /** Whatever happens to the session next. */
    method Happen(e: Event)
      requires Valid() && Enabled(View(), e)
      modifies Footprint(), manager
      ensures Valid() && Becomes(old(View()), e, View())
      ensures manager.sessions == old(manager.sessions) - if Gives(e) then {this} else {}
    {
      match e
      case Arrive(way, bytes) => Arrive(way, bytes);
      case Depart(op, k) => var _ := Depart(op, k);
      case Done(op, ok) => Complete(op, ok);
    }
  }
}
