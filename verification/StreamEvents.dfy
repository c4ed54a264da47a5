/** The events of one connection, as they reach the stream objects. */
module StreamEvents {
  import opened Sessions
  import opened Engine
  import opened StreamObjects
  import opened StreamManagers
  import StreamCallbacks

  /** The connection c becomes c' by the event e.  Stated with a quantifier, so that proofs
      about the other connections need not look into Step. */
  ghost predicate Becomes(c: Cell, e: Event, c': Cell) {
    CellOk(c) && Enabled(c, e) && forall f {:trigger Step(c, f)} :: f == e ==> c' == Step(c, f)
  }

  /** An operation is over: the executor lets go of it and runs its handler; threw tells that an
      exception has left the handler. */
  method Complete(m: StreamManager, stream: AsyncStream, e: Event) returns (threw: bool)
    requires m.Ready(stream.id) && e.Done? && Enabled(m.CellOf(stream.id), e)
    requires stream == m.StreamOf(stream.id, e.side)
    modifies m`sessions, m.pairs[stream.id].Footprint()
    ensures m.Keeps(stream.id, old(m.sessions)) && m.Ready(stream.id)
    ensures Becomes(old(m.CellOf(stream.id)), e, m.CellOf(stream.id))
    ensures threw <==> Throws(old(m.CellOf(stream.id)), e)
  {
    threw := false;
    stream.End(e.op);
    if e.side == ServerSide {
      threw := StreamCallbacks.ServerDone(m, stream, e.op, e.ec, e.beyond);
    } else {
      StreamCallbacks.ClientDone(m, stream, e.op, e.ec);
    }
  }

  /** Bytes arrive for a read. */
  method Receive(m: StreamManager, stream: AsyncStream, e: Event)
    requires m.Ready(stream.id) && e.Arrive? && Enabled(m.CellOf(stream.id), e)
    requires stream == m.StreamOf(stream.id, e.side)
    modifies m.pairs[stream.id].Footprint()
    ensures m.Ready(stream.id)
    ensures Becomes(old(m.CellOf(stream.id)), e, m.CellOf(stream.id))
  {
    stream.Arrive(e.bytes);
  }

  /** Bytes of a write leave. */
  method Send(m: StreamManager, stream: AsyncStream, e: Event)
    requires m.Ready(stream.id) && e.Leave? && Enabled(m.CellOf(stream.id), e)
    requires stream == m.StreamOf(stream.id, e.side)
    modifies m.pairs[stream.id].Footprint()
    ensures m.Ready(stream.id)
    ensures Becomes(old(m.CellOf(stream.id)), e, m.CellOf(stream.id))
  {
    var _ := stream.Leave(e.op, e.k);
  }

  /** One event of one connection. */
  method Happen(m: StreamManager, stream: AsyncStream, e: Event) returns (threw: bool)
    requires m.Ready(stream.id) && Enabled(m.CellOf(stream.id), e)
    requires stream == m.StreamOf(stream.id, e.side)
    modifies m`sessions, m.pairs[stream.id].Footprint()
    ensures m.Keeps(stream.id, old(m.sessions)) && m.Ready(stream.id)
    ensures Becomes(old(m.CellOf(stream.id)), e, m.CellOf(stream.id))
    ensures threw <==> Throws(old(m.CellOf(stream.id)), e)
  {
    threw := false;
    match e
    case Arrive(_, _) => Receive(m, stream, e);
    case Leave(_, _, _) => Send(m, stream, e);
    case Done(_, _, _, _) => threw := Complete(m, stream, e);
  }

  /** The objects of all other connections are left alone. */
  method HappenApart(m: StreamManager, stream: AsyncStream, e: Event) returns (threw: bool)
    requires Separated(m.pairs) && m.Ready(stream.id) && Enabled(m.CellOf(stream.id), e)
    requires stream == m.StreamOf(stream.id, e.side)
    modifies m`sessions, m.pairs[stream.id].Footprint()
    ensures m.pairs == old(m.pairs) && m.Keeps(stream.id, old(m.sessions)) && m.Ready(stream.id)
    ensures Becomes(old(m.CellOf(stream.id)), e, m.CellOf(stream.id))
    ensures forall j | j in m.pairs && j != stream.id :: m.pairs[j].View() == old(m.pairs[j].View())
    ensures threw <==> Throws(old(m.CellOf(stream.id)), e)
  {
    threw := Happen(m, stream, e);
    forall j | j in m.pairs && j != stream.id
      ensures m.pairs[j].View() == old(m.pairs[j].View())
    {
      assert Apart(m.pairs, j, stream.id);
    }
  }

  /** One event among all connections: its own connection makes the step, every other stays
      exactly as it was.  An exception that leaves the handler is passed on. */
  method Deliver(m: StreamManager, stream: AsyncStream, e: Event) returns (threw: bool)
    requires Separated(m.pairs) && m.Ready(stream.id) && Enabled(m.CellOf(stream.id), e)
    requires stream == m.StreamOf(stream.id, e.side)
    modifies m`sessions, m.pairs[stream.id].Footprint()
    ensures m.pairs == old(m.pairs) && m.Keeps(stream.id, old(m.sessions)) && m.Ready(stream.id)
    ensures Becomes(old(m.CellOf(stream.id)), e, m.CellOf(stream.id))
    ensures forall j | j in m.pairs && j != stream.id :: m.CellOf(j) == old(m.CellOf(j))
    ensures threw <==> Throws(old(m.CellOf(stream.id)), e)
  {
    threw := HappenApart(m, stream, e);
  }
}
