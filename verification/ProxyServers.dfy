/** The listening server: it accepts connections, and the executor runs the handlers of their
    operations one at a time.  Proved against the proxy as a value. */
module ProxyServers {
  import opened Basics
  import opened Transport
  import opened Sessions
  import opened Engine
  import opened StreamObjects
  import opened StreamManagers
  import StreamEvents
  import ProxySystem

  /** The proxy s becomes s' by the event e; the quantifier keeps Next closed, as in Becomes. */
  ghost predicate Advances(s: ProxySystem.System, e: ProxySystem.SystemEvent, s': ProxySystem.System) {
    && ProxySystem.SystemOk(s) && ProxySystem.CanHappen(s, e)
    && forall f {:trigger ProxySystem.Next(s, f)} :: f == e ==> s' == ProxySystem.Next(s, f)
  }

  lemma AdvancesToNext(s: ProxySystem.System, e: ProxySystem.SystemEvent, s': ProxySystem.System)
    requires Advances(s, e, s')
    ensures s' == ProxySystem.Next(s, e)
  {
  }

  /** When one connection has made a step and nothing else has changed, the proxy has made
      the corresponding step. */
  lemma Stepped(s: ProxySystem.System, id: nat, e: Event, x: Cell)
    requires ProxySystem.SystemOk(s) && ProxySystem.CanHappen(s, ProxySystem.At(id, e))
    requires StreamEvents.Becomes(s.cells[id], e, x)
    ensures ProxySystem.Next(s, ProxySystem.At(id, e))
         == s.(cells := s.cells[id := x], ended := Throws(s.cells[id], e))
  {
    ProxySystem.NextAt(s, id, e, x);
  }

  /** The manager's objects are what the connections say they are. */
  ghost predicate Mirrors(m: StreamManager, cells: map<nat, Cell>)
    reads m, m.Everything()
  {
    && cells.Keys == m.pairs.Keys && m.sessions.Keys <= m.pairs.Keys
    && forall id <- cells {:trigger Same(m, cells, id)} :: Same(m, cells, id)
  }

  ghost predicate Same(m: StreamManager, cells: map<nat, Cell>, id: nat)
    requires id in cells && id in m.pairs
    reads m, m.pairs[id].Footprint()
  {
    cells[id] == m.CellOf(id) && m.Listed(id)
  }

  lemma MirrorsGrown(m: StreamManager, cells: map<nat, Cell>, id: nat, x: Cell)
    requires id in m.pairs && m.CellOf(id) == x && m.Listed(id)
    requires m.pairs.Keys == cells.Keys + {id} && m.sessions.Keys <= cells.Keys + {id}
    requires forall j <- cells {:trigger Same(m, cells, j)} :: j != id ==> Same(m, cells, j)
    ensures Mirrors(m, cells[id := x])
  {
    var grown := cells[id := x];
    forall j <- grown
      ensures Same(m, grown, j)
    {
      assert j != id ==> Same(m, cells, j);
    }
  }

  lemma MirrorsNext(m: StreamManager, s: ProxySystem.System, id: nat, e: Event)
    requires s.cells.Keys == m.pairs.Keys && m.sessions.Keys <= m.pairs.Keys
    requires ProxySystem.SystemOk(s) && ProxySystem.CanHappen(s, ProxySystem.At(id, e))
    requires StreamEvents.Becomes(s.cells[id], e, m.CellOf(id)) && m.Listed(id)
    requires forall j <- s.cells {:trigger Same(m, s.cells, j)} :: j != id ==> Same(m, s.cells, j)
    ensures var s' := s.(cells := s.cells[id := m.CellOf(id)], ended := Throws(s.cells[id], e));
            && Mirrors(m, s'.cells) && ProxySystem.SystemOk(s')
            && Advances(s, ProxySystem.At(id, e), s')
  {
    Stepped(s, id, e, m.CellOf(id));
    MirrorsGrown(m, s.cells, id, m.CellOf(id));
  }

  method Deliver(m: StreamManager, stream: AsyncStream, e: Event, ghost s: ProxySystem.System)
    returns (threw: bool, ghost s': ProxySystem.System)
    requires Separated(m.pairs) && Mirrors(m, s.cells) && ProxySystem.SystemOk(s)
    requires ProxySystem.CanHappen(s, ProxySystem.At(stream.id, e)) && stream == m.StreamOf(stream.id, e.side)
    modifies m`sessions, m.pairs[stream.id].Footprint()
    ensures m.pairs == old(m.pairs) && Mirrors(m, s'.cells) && s' == s.(cells := s'.cells, ended := threw)
    ensures ProxySystem.SystemOk(s') && Advances(s, ProxySystem.At(stream.id, e), s')
  {
    assert Same(m, s.cells, stream.id) && InPlace(m.pairs, stream.id);
    threw := StreamEvents.Deliver(m, stream, e);
    assert m.pairs == old(m.pairs);
    forall j <- s.cells | j != stream.id
      ensures Same(m, s.cells, j)
    {
      assert old(Same(m, s.cells, j));
      assert m.CellOf(j) == old(m.CellOf(j));
    }
    s' := s.(cells := s.cells[stream.id := m.CellOf(stream.id)], ended := threw);
    MirrorsNext(m, s, stream.id, e);
  }

  /** A stream as it was made, that no connection uses. */
  ghost predicate Unused(m: StreamManager, stream: AsyncStream, kind: Kind)
    reads m`pairs, stream.Footprint()
  {
    && stream.kind == kind && stream.Separate() && stream.View() == NewStream(kind)
    && forall id <- m.pairs {:trigger Beside(m, stream, id)} :: Beside(m, stream, id)
  }

  ghost predicate Beside(m: StreamManager, stream: AsyncStream, id: nat)
    requires id in m.pairs
    reads m`pairs
  {
    m.pairs[id].Footprint() !! stream.Footprint()
  }

  method NewServerStream(m: StreamManager, kind: Kind, id: nat) returns (stream: AsyncStream)
    ensures fresh(stream.Footprint()) && stream.id == id && Unused(m, stream, kind)
  {
    stream := new AsyncStream(kind, id);
  }

  /** An accepted stream is entered; every connection there is stays exactly as it was. */
  method EnterApart(m: StreamManager, stream: AsyncStream, protocol: Protocol) returns (ghost pair: Pair)
    requires Separated(m.pairs) && stream.id !in m.pairs && stream.id !in m.sessions
    requires stream.kind != TcpClient && Unused(m, stream, stream.kind)
    modifies m`sessions, m`pairs, stream`pending
    ensures m.pairs == old(m.pairs)[stream.id := pair] && m.sessions == old(m.sessions)[stream.id := pair]
    ensures m.pairs.Keys == old(m.pairs.Keys) + {stream.id} && m.sessions.Keys == old(m.sessions.Keys) + {stream.id}
    ensures pair.Proper(stream.id) && m.CellOf(stream.id) == Accepted(protocol, stream.kind)
    ensures forall j | j in old(m.pairs) :: pair.Footprint() !! old(m.pairs)[j].Footprint()
    ensures forall j | j in old(m.pairs) :: m.CellOf(j) == old(m.CellOf(j))
  {
    pair := m.OnAccept(stream, protocol);
    forall j | j in old(m.pairs)
      ensures pair.Footprint() !! old(m.pairs)[j].Footprint()
      ensures m.CellOf(j) == old(m.CellOf(j))
    {
      assert old(Beside(m, stream, j));
      assert m.pairs[j].View() == old(m.pairs[j].View());
    }
  }

  method EnterSeparated(m: StreamManager, stream: AsyncStream, protocol: Protocol)
    requires Separated(m.pairs) && stream.id !in m.pairs && stream.id !in m.sessions
    requires stream.kind != TcpClient && Unused(m, stream, stream.kind)
    modifies m`sessions, m`pairs, stream`pending
    ensures Separated(m.pairs) && stream.id in m.pairs && m.Listed(stream.id)
    ensures m.CellOf(stream.id) == Accepted(protocol, stream.kind)
    ensures m.pairs.Keys == old(m.pairs.Keys) + {stream.id} && m.sessions.Keys == old(m.sessions.Keys) + {stream.id}
    ensures forall j | j in old(m.pairs) :: m.CellOf(j) == old(m.CellOf(j))
    ensures forall j | j in old(m.pairs) :: old(m.Listed(j)) ==> m.Listed(j)
  {
    ghost var pair := EnterApart(m, stream, protocol);
    SeparatedGrows(old(m.pairs), stream.id, pair);
  }

  /** An accepted stream becomes a connection. */
  method Enter(m: StreamManager, stream: AsyncStream, protocol: Protocol, ghost cells: map<nat, Cell>)
    requires Separated(m.pairs) && Mirrors(m, cells) && stream.id !in cells
    requires stream.kind != TcpClient && Unused(m, stream, stream.kind)
    modifies m`sessions, m`pairs, stream`pending
    ensures Separated(m.pairs) && Mirrors(m, cells[stream.id := Accepted(protocol, stream.kind)])
    ensures m.sessions.Keys == old(m.sessions.Keys) + {stream.id}
  {
    EnterSeparated(m, stream, protocol);
    forall j <- cells
      ensures Same(m, cells, j)
    {
      assert old(Same(m, cells, j));
      assert m.CellOf(j) == old(m.CellOf(j));
    }
    MirrorsGrown(m, cells, stream.id, Accepted(protocol, stream.kind));
  }

  /** The listening server. */
  class ProxyServer {
    const protocol: Protocol
    const kind: Kind
    const manager: StreamManager
    var streamId: nat
    /** The stream that the outstanding accept operation holds, if there is one. */
    var waiting: Option<AsyncStream>
    /** An exception has left the executor. */
    var ended: bool

    /** The server and all it holds are what the value says they are. */
    ghost predicate Represents(s: ProxySystem.System)
      reads this, manager, manager.Everything(), Waiting()
    {
      && Separated(manager.pairs) && Mirrors(manager, s.cells) && ProxySystem.SystemOk(s) && Reflects(s)
      && (waiting.Some? ==> waiting.value.id == streamId && Unused(manager, waiting.value, kind))
    }

    ghost predicate Reflects(s: ProxySystem.System)
      reads this
    {
      s.protocol == protocol && s.kind == kind && s.streamId == streamId && s.accepting == waiting.Some?
      && s.ended == ended
    }

    ghost function Waiting(): set<object>
      reads this
    {
      if waiting.Some? then waiting.value.Footprint() else {}
    }

    constructor (protocol: Protocol, kind: Kind)
      requires kind != TcpClient
      ensures this.protocol == protocol && this.kind == kind
      ensures Represents(ProxySystem.Boot(protocol, kind))
    {
      this.protocol, this.kind, streamId, waiting, ended := protocol, kind, 0, None, false;
      manager := new StreamManager();
      new;
      StartAccept(map[]);
    }

    /** A change of the server's own fields is no change of its connections. */
    method Wait(stream: Option<AsyncStream>, id: nat, ghost cells: map<nat, Cell>)
      requires Mirrors(manager, cells)
      modifies this`streamId, this`waiting
      ensures waiting == stream && streamId == id && Mirrors(manager, cells)
    {
      waiting, streamId := stream, id;
      forall k <- cells
        ensures Same(manager, cells, k)
      {
        assert this !in manager.pairs[k].Footprint();
        assert old(Same(manager, cells, k));
      }
    }

    /** The next identifier, and a new stream for the accept operation. */
    method StartAccept(ghost cells: map<nat, Cell>)
      requires Mirrors(manager, cells)
      modifies this`streamId, this`waiting
      ensures Mirrors(manager, cells)
      ensures streamId == old(streamId) + 1 && waiting.Some? && fresh(Waiting())
      ensures waiting.value.id == streamId && Unused(manager, waiting.value, kind)
    {
      var stream := NewServerStream(manager, kind, streamId + 1);
      forall k <- cells
        ensures Same(manager, cells, k)
      {
        assert old(Same(manager, cells, k));
      }
      Wait(Some(stream), streamId + 1, cells);
    }

    /** Everything but the server's own note of its end. */
    ghost predicate Holds(s: ProxySystem.System)
      reads this, manager, manager.Everything(), Waiting()
    {
      Represents(s.(ended := ended))
    }

    method Note(threw: bool, ghost s: ProxySystem.System)
      requires Holds(s) && s.ended == threw
      modifies this`ended
      ensures Represents(s)
    {
      ended := threw;
      forall k <- s.cells
        ensures Same(manager, s.cells, k)
      {
        assert this !in manager.pairs[k].Footprint();
        assert old(Same(manager, s.cells, k));
      }
    }

    method DeliverOne(stream: AsyncStream, e: Event, ghost s: ProxySystem.System)
      returns (threw: bool, ghost s': ProxySystem.System)
      requires Represents(s) && ProxySystem.CanHappen(s, ProxySystem.At(stream.id, e))
      requires stream == manager.StreamOf(stream.id, e.side)
      modifies manager`sessions, manager.pairs[stream.id].Footprint()
      ensures Holds(s') && s'.ended == threw && Advances(s, ProxySystem.At(stream.id, e), s')
    {
      assert this !in manager.pairs[stream.id].Footprint();
      assert waiting.Some? ==> Beside(manager, waiting.value, stream.id);
      threw, s' := Deliver(manager, stream, e, s);
      assert waiting.Some? ==> waiting.value.View() == old(waiting.value.View());
    }

    /** The executor delivers one event of one connection; an exception ends it. */
    method Handle(stream: AsyncStream, e: Event, ghost s: ProxySystem.System) returns (ghost s': ProxySystem.System)
      requires Represents(s) && ProxySystem.CanHappen(s, ProxySystem.At(stream.id, e))
      requires stream == manager.StreamOf(stream.id, e.side)
      modifies this`ended, manager`sessions, manager.pairs[stream.id].Footprint()
      ensures Represents(s') && s' == ProxySystem.Next(s, ProxySystem.At(stream.id, e))
    {
      var threw;
      threw, s' := DeliverOne(stream, e, s);
      AdvancesToNext(s, ProxySystem.At(stream.id, e), s');
      Note(threw, s');
    }

    /** An accept operation is over; the acceptor may have been closed meanwhile. */
    method AcceptCompleted(open: bool, ok: bool, ghost s: ProxySystem.System) returns (ghost s': ProxySystem.System)
      requires Represents(s) && waiting.Some? && !ended
      modifies this, manager, waiting.value
      ensures Represents(s') && s' == ProxySystem.Next(s, ProxySystem.Accept(open, ok))
      ensures manager.sessions.Keys == old(manager.sessions.Keys) + if open && ok then {old(streamId)} else {}
      ensures waiting.Some? <==> open
    {
      s' := ProxySystem.Next(s, ProxySystem.Accept(open, ok));
      if !open {
        Wait(None, streamId, s.cells);
      } else {
        if ok {
          Enter(manager, waiting.value, protocol, s.cells);
        }
        StartAccept(s'.cells);
      }
    }
  }
}
