/** The stream manager with its session map, the sessions it holds and their state handlers,
    as objects updated in place.  Every method is proved against the connection as a value. */
module StreamManagers {
  import opened Basics
  import opened Transport
  import opened Sessions
  import opened StreamObjects
  import Engine

  /** A session's context and its current state object. */
  class ProxySession {
    const id: nat
    var state: Phase
    var response: seq<byte>
    var host: HostText
    var service: string
    var toRemote: nat
    var toLocal: nat
    ghost var chunks: seq<seq<byte>>

    constructor (id: nat, state: Phase)
      ensures this.id == id && View() == NewSession(state) && chunks == []
    {
      this.id, this.state := id, state;
      response, host, service, toRemote, toLocal, chunks := [], Name(""), "", 0, 0, [];
    }

    ghost function View(): Session
      reads this
    {
      Session(state, response, host, service, toRemote, toLocal)
    }

    method ChangeState(state: Phase)
      modifies this`state
      ensures View() == old(View()).(state := state)
    {
      this.state := state;
    }

    method SetResponse(response: seq<byte>)
      modifies this`response
      ensures View() == old(View()).(response := response)
    {
      this.response := response;
    }

    method SetResponseErrorCode(code: byte)
      requires |response| >= 2
      modifies this`response
      ensures View() == old(View()).(response := old(response)[1 := code])
    {
      response := response[1 := code];
    }

    method SetEndpointInfo(host: HostText, service: string)
      modifies this`host, this`service
      ensures View() == old(View()).(host := host, service := service)
    {
      this.host, this.service := host, service;
    }

    method UpdateBytesSentToRemote(count: nat)
      modifies this`toRemote
      ensures View() == old(View()).(toRemote := old(toRemote) + count)
    {
      toRemote := toRemote + count;
    }

    method UpdateBytesSentToLocal(count: nat)
      modifies this`toLocal
      ensures View() == old(View()).(toLocal := old(toLocal) + count)
    {
      toLocal := toLocal + count;
    }
  }

  /** A connection's two streams and its session. */
  datatype Pair = Pair(server: AsyncStream, client: AsyncStream, session: ProxySession)
  {
    ghost function Footprint(): set<object> {
      server.Footprint() + client.Footprint() + {session}
    }

    /** The pair as a value, as if it were in the map. */
    ghost function View(): Cell
      reads Footprint()
    {
      Cell(Some(session.View()), server.View(), client.View(), session.chunks)
    }

    ghost predicate Proper(id: nat) {
      && server.id == id && client.id == id && session.id == id
      && server.Separate() && client.Separate()
      && server.Footprint() !! client.Footprint()
    }
  }

  ghost predicate InPlace(pairs: map<nat, Pair>, id: nat)
    requires id in pairs
  {
    pairs[id].Proper(id)
  }

  ghost predicate Apart(pairs: map<nat, Pair>, i: nat, j: nat)
    requires i in pairs && j in pairs
  {
    pairs[i].Footprint() !! pairs[j].Footprint()
  }

  /** No two connections share an object. */
  ghost predicate Separated(pairs: map<nat, Pair>) {
    && (forall id <- pairs {:trigger InPlace(pairs, id)} :: InPlace(pairs, id))
    && (forall i, j {:trigger Apart(pairs, i, j)} | i in pairs && j in pairs && i != j :: Apart(pairs, i, j))
  }

  lemma SeparatedGrows(pairs: map<nat, Pair>, id: nat, pair: Pair)
    requires Separated(pairs) && id !in pairs && pair.Proper(id)
    requires forall j <- pairs :: pair.Footprint() !! pairs[j].Footprint()
    ensures Separated(pairs[id := pair])
  {
    var grown := pairs[id := pair];
    forall k <- grown
      ensures InPlace(grown, k)
    {
      assert k != id ==> InPlace(pairs, k);
    }
    forall i, j | i in grown && j in grown && i != j
      ensures Apart(grown, i, j)
    {
      assert i != id && j != id ==> Apart(pairs, i, j);
    }
  }

  class StreamManager {
    var sessions: map<nat, Pair>
    /** Every pair ever inserted. */
    ghost var pairs: map<nat, Pair>

    constructor ()
      ensures sessions == map[] && pairs == map[]
    {
      sessions, pairs := map[], map[];
    }

    /** The session map holds what was inserted. */
    ghost predicate Listed(id: nat)
      requires id in pairs
      reads this
    {
      id in sessions ==> sessions[id] == pairs[id]
    }

    /** The connection as a value. */
    ghost function CellOf(id: nat): Cell
      requires id in pairs
      reads this, pairs[id].Footprint()
    {
      var p := pairs[id];
      Cell(if id in sessions then Some(p.session.View()) else None, p.server.View(), p.client.View(), p.session.chunks)
    }

    ghost function StreamOf(id: nat, side: Engine.Side): AsyncStream
      requires id in pairs
      reads this
    {
      if side == Engine.ServerSide then pairs[id].server else pairs[id].client
    }

    ghost function Everything(): set<object>
      reads this`pairs
    {
      set i, o | i in pairs && o in pairs[i].Footprint() :: o
    }

    ghost predicate Ready(id: nat)
      reads this, if id in pairs then pairs[id].Footprint() else {}
    {
      id in pairs && InPlace(pairs, id) && Listed(id) && CellOk(CellOf(id))
    }

    ghost predicate Holds(session: ProxySession)
      reads this, if session.id in pairs then pairs[session.id].Footprint() else {}
    {
      Ready(session.id) && session.id in sessions && session == pairs[session.id].session
    }

    /** The session map is as before, or has lost id. */
    ghost predicate Keeps(id: nat, before: map<nat, Pair>)
      reads this
    {
      sessions == before || sessions == before - {id}
    }

    // ---------- commands of a session to its streams ----------

    method ReadServer(id: nat)
      requires Ready(id)
      modifies pairs[id].Footprint()
      ensures CellOf(id) == Sessions.ReadServer(old(CellOf(id)))
    {
      if id in sessions {
        sessions[id].server.DoRead();
      }
    }

    method ReadClient(id: nat)
      requires Ready(id)
      modifies pairs[id].Footprint()
      ensures CellOf(id) == Sessions.ReadClient(old(CellOf(id)))
    {
      if id in sessions {
        sessions[id].client.DoRead();
      }
    }

    method WriteServer(id: nat, buffer: seq<byte>)
      requires Ready(id) && |buffer| <= MAX_BUFFER_SIZE
      modifies pairs[id].Footprint()
      ensures CellOf(id) == Sessions.WriteServer(old(CellOf(id)), buffer)
    {
      if id in sessions {
        sessions[id].server.DoWrite(buffer);
      }
    }

    method WriteClient(id: nat, buffer: seq<byte>)
      requires Ready(id) && |buffer| <= MAX_BUFFER_SIZE
      modifies pairs[id].Footprint()
      ensures CellOf(id) == Sessions.WriteClient(old(CellOf(id)), buffer)
    {
      if id in sessions {
        sessions[id].client.DoWrite(buffer);
      }
    }

    method Connect(id: nat, host: HostText, service: string)
      requires Ready(id)
      modifies pairs[id].Footprint()
      ensures CellOf(id) == Sessions.Connect(old(CellOf(id)), host, service)
    {
      if id in sessions {
        sessions[id].client.SetEndpoint(host, service);
        sessions[id].client.DoStart();
      }
    }

    method Stop(id: nat)
      requires Ready(id)
      modifies this`sessions, pairs[id].Footprint()
      ensures sessions == old(sessions) - {id}
      ensures CellOf(id) == Sessions.Stop(old(CellOf(id)))
    {
      if id in sessions {
        sessions[id].client.DoStop();
        sessions[id].server.DoStop();
        sessions := sessions - {id};
      }
    }

    // ---------- a new connection ----------

    method OnAccept(upstream: AsyncStream, protocol: Engine.Protocol) returns (ghost pair: Pair)
      requires upstream.Separate() && upstream.kind != TcpClient && upstream.View() == NewStream(upstream.kind)
      requires upstream.id !in sessions
      modifies this`sessions, this`pairs, upstream`pending
      ensures pair.server == upstream && pair.Proper(upstream.id)
      ensures fresh(pair.client.Footprint() + {pair.session})
      ensures sessions == old(sessions)[upstream.id := pair] && pairs == old(pairs)[upstream.id := pair]
      ensures sessions.Keys == old(sessions.Keys) + {upstream.id} && pairs.Keys == old(pairs.Keys) + {upstream.id}
      ensures CellOf(upstream.id) == Engine.Accepted(protocol, upstream.kind)
    {
      upstream.DoStart();
      var downstream := new AsyncStream(TcpClient, upstream.id);
      var session := new ProxySession(upstream.id, Engine.InitialPhase(protocol));
      var entry := Pair(upstream, downstream, session);
      sessions := sessions[upstream.id := entry];
      pair := entry;
      pairs := pairs[upstream.id := pair];
    }
  }
}
