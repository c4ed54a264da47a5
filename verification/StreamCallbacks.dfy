/** The manager's callbacks, which look a session up by the identifier of the stream, and the
    completion handlers of the streams, which call them. */
module StreamCallbacks {
  import opened Basics
  import opened Transport
  import opened StreamObjects
  import opened StreamManagers
  import Engine
  import Socks5Handlers
  import HttpHandlers

  /** threw tells that an exception has left the handler. */
  method OnServerRead(m: StreamManager, stream: AsyncStream, buffer: seq<byte>, beyond: seq<byte>)
    returns (threw: bool)
    requires m.Ready(stream.id) && |buffer| <= MAX_BUFFER_SIZE
    modifies m`sessions, m.pairs[stream.id].Footprint()
    ensures m.Keeps(stream.id, old(m.sessions)) && m.Ready(stream.id)
    ensures m.CellOf(stream.id) == Engine.OnServerRead(old(m.CellOf(stream.id)), buffer, beyond)
    ensures threw <==> Engine.ReadThrows(old(m.CellOf(stream.id)), buffer)
  {
    threw := false;
    if stream.id in m.sessions {
      var session := m.sessions[stream.id].session;
      session.chunks := session.chunks + [buffer];
      if Engine.IsHttp(session.state) {
        threw := HttpHandlers.HandleServerRead(m, session, buffer);
      } else {
        Socks5Handlers.HandleServerRead(m, session, buffer, beyond);
      }
    }
  }

  method OnClientRead(m: StreamManager, stream: AsyncStream, buffer: seq<byte>)
    requires m.Ready(stream.id) && |buffer| <= MAX_BUFFER_SIZE
    modifies m`sessions, m.pairs[stream.id].Footprint()
    ensures m.Keeps(stream.id, old(m.sessions)) && m.Ready(stream.id)
    ensures m.CellOf(stream.id) == Engine.OnClientRead(old(m.CellOf(stream.id)), buffer)
  {
    if stream.id in m.sessions {
      var session := m.sessions[stream.id].session;
      if Engine.IsHttp(session.state) {
        HttpHandlers.HandleClientRead(m, session, buffer);
      } else {
        Socks5Handlers.HandleClientRead(m, session, buffer);
      }
    }
  }

  method OnConnect(m: StreamManager, stream: AsyncStream)
    requires m.Ready(stream.id)
    modifies m`sessions, m.pairs[stream.id].Footprint()
    ensures m.Keeps(stream.id, old(m.sessions)) && m.Ready(stream.id)
    ensures m.CellOf(stream.id) == Engine.OnConnect(old(m.CellOf(stream.id)))
  {
    if stream.id in m.sessions {
      var session := m.sessions[stream.id].session;
      if Engine.IsHttp(session.state) {
        HttpHandlers.HandleClientConnect(m, session);
      } else {
        Socks5Handlers.HandleClientConnect(m, session);
      }
    }
  }

  method OnServerWrite(m: StreamManager, stream: AsyncStream)
    requires m.Ready(stream.id)
    modifies m`sessions, m.pairs[stream.id].Footprint()
    ensures m.Keeps(stream.id, old(m.sessions)) && m.Ready(stream.id)
    ensures m.CellOf(stream.id) == Engine.OnServerWrite(old(m.CellOf(stream.id)))
  {
    if stream.id in m.sessions {
      var session := m.sessions[stream.id].session;
      if Engine.IsHttp(session.state) {
        HttpHandlers.HandleServerWrite(m, session);
      } else {
        Socks5Handlers.HandleServerWrite(m, session);
      }
    }
  }

  method OnClientWrite(m: StreamManager, stream: AsyncStream)
    requires m.Ready(stream.id)
    modifies m`sessions, m.pairs[stream.id].Footprint()
    ensures m.Keeps(stream.id, old(m.sessions)) && m.Ready(stream.id)
    ensures m.CellOf(stream.id) == Engine.OnClientWrite(old(m.CellOf(stream.id)))
  {
    if stream.id in m.sessions {
      var session := m.sessions[stream.id].session;
      if Engine.IsHttp(session.state) {
        HttpHandlers.HandleClientWrite(m, session);
      } else {
        Socks5Handlers.HandleClientWrite(m, session);
      }
    }
  }

  method OnServerError(m: StreamManager, stream: AsyncStream, ec: ErrorCode)
    requires m.Ready(stream.id)
    modifies m`sessions, m.pairs[stream.id].Footprint()
    ensures m.Keeps(stream.id, old(m.sessions)) && m.Ready(stream.id)
    ensures m.CellOf(stream.id) == Engine.OnServerError(old(m.CellOf(stream.id)), ec)
  {
    if stream.id in m.sessions {
      var session := m.sessions[stream.id].session;
      if Engine.IsHttp(session.state) {
        HttpHandlers.HandleServerError(m, session);
      } else {
        Socks5Handlers.HandleServerError(m, session);
      }
    }
  }

  method OnClientError(m: StreamManager, stream: AsyncStream, ec: ErrorCode)
    requires m.Ready(stream.id)
    modifies m`sessions, m.pairs[stream.id].Footprint()
    ensures m.Keeps(stream.id, old(m.sessions)) && m.Ready(stream.id)
    ensures m.CellOf(stream.id) == Engine.OnClientError(old(m.CellOf(stream.id)), ec)
  {
    if stream.id in m.sessions {
      var session := m.sessions[stream.id].session;
      if Engine.IsHttp(session.state) {
        HttpHandlers.HandleClientError(m, session, ec);
      } else {
        Socks5Handlers.HandleClientError(m, session, ec);
      }
    }
  }

  // ---------- the completion handlers of a server stream ----------

  method ServerReadDone(m: StreamManager, stream: AsyncStream, n: nat, ec: ErrorCode, beyond: seq<byte>)
    returns (threw: bool)
    requires m.Ready(stream.id) && m.pairs[stream.id].server == stream && n <= MAX_BUFFER_SIZE
    modifies m`sessions, m.pairs[stream.id].Footprint()
    ensures m.Keeps(stream.id, old(m.sessions)) && m.Ready(stream.id)
    ensures m.CellOf(stream.id) == Engine.ServerDone(old(m.CellOf(stream.id)), Filled(n), ec, beyond)
    ensures threw <==> Engine.DoneThrows(old(m.CellOf(stream.id)), Filled(n), ec)
  {
    threw := false;
    if ec == Success {
      var event := stream.Chunk(n);
      threw := OnServerRead(m, stream, event, beyond);
    } else {
      OnServerError(m, stream, ec);
    }
  }

  method CloseServer(m: StreamManager, stream: AsyncStream)
    requires m.Ready(stream.id) && m.pairs[stream.id].server == stream
    modifies stream`open
    ensures m.Ready(stream.id)
    ensures var c := old(m.CellOf(stream.id)); m.CellOf(stream.id) == c.(server := c.server.(open := false))
  {
    stream.Close();
  }

  method ServerCloseDone(m: StreamManager, stream: AsyncStream, op: Op, ec: ErrorCode, beyond: seq<byte>)
    requires m.Ready(stream.id) && m.pairs[stream.id].server == stream && (op == Shutdown || op == NullWrite)
    modifies m`sessions, m.pairs[stream.id].Footprint()
    ensures m.Keeps(stream.id, old(m.sessions)) && m.Ready(stream.id)
    ensures m.CellOf(stream.id) == Engine.ServerDone(old(m.CellOf(stream.id)), op, ec, beyond)
  {
    if ec != Success {
      OnServerError(m, stream, ec);
    }
    CloseServer(m, stream);
  }

  method ServerDone(m: StreamManager, stream: AsyncStream, op: Op, ec: ErrorCode, beyond: seq<byte>)
    returns (threw: bool)
    requires m.Ready(stream.id) && m.pairs[stream.id].server == stream && OpOk(op)
    modifies m`sessions, m.pairs[stream.id].Footprint()
    ensures m.Keeps(stream.id, old(m.sessions)) && m.Ready(stream.id)
    ensures m.CellOf(stream.id) == Engine.ServerDone(old(m.CellOf(stream.id)), op, ec, beyond)
    ensures threw <==> Engine.DoneThrows(old(m.CellOf(stream.id)), op, ec)
  {
    threw := false;
    match op
    case Filled(n) => threw := ServerReadDone(m, stream, n, ec, beyond);
    case Shutdown | NullWrite => ServerCloseDone(m, stream, op, ec, beyond);
    case Handshake =>
      if ec == Success {
        stream.DoRead();
      } else {
        OnServerError(m, stream, ec);
      }
    case Write(_, _) =>
      if ec == Success {
        OnServerWrite(m, stream);
      } else {
        OnServerError(m, stream, ec);
      }
    case _ => OnServerError(m, stream, ec);
  }

  // ---------- the completion handlers of a client stream ----------

  /** The end of a name lookup or of a connection attempt. */
  method ClientConnectDone(m: StreamManager, stream: AsyncStream, op: Op, ec: ErrorCode)
    requires m.Ready(stream.id) && m.pairs[stream.id].client == stream && (op == Resolve || op == Connecting)
    modifies m`sessions, m.pairs[stream.id].Footprint()
    ensures m.Keeps(stream.id, old(m.sessions)) && m.Ready(stream.id)
    ensures m.CellOf(stream.id) == Engine.ClientDone(old(m.CellOf(stream.id)), op, ec)
  {
    if ec != Success {
      stream.SetLink(Failed(ec));
      OnClientError(m, stream, ec);
    } else if op == Resolve {
      stream.Begin(Connecting);
    } else {
      stream.SetLink(Connected);
      OnConnect(m, stream);
    }
  }

  method ClientReadDone(m: StreamManager, stream: AsyncStream, n: nat, ec: ErrorCode)
    requires m.Ready(stream.id) && m.pairs[stream.id].client == stream && n <= MAX_BUFFER_SIZE
    modifies m`sessions, m.pairs[stream.id].Footprint()
    ensures m.Keeps(stream.id, old(m.sessions)) && m.Ready(stream.id)
    ensures m.CellOf(stream.id) == Engine.ClientDone(old(m.CellOf(stream.id)), Filled(n), ec)
  {
    if ec == Success && n > 0 {
      var event := stream.Chunk(n);
      OnClientRead(m, stream, event);
    } else {
      OnClientError(m, stream, ec);
    }
  }

  method ClientDone(m: StreamManager, stream: AsyncStream, op: Op, ec: ErrorCode)
    requires m.Ready(stream.id) && m.pairs[stream.id].client == stream && OpOk(op)
    modifies m`sessions, m.pairs[stream.id].Footprint()
    ensures m.Keeps(stream.id, old(m.sessions)) && m.Ready(stream.id)
    ensures m.CellOf(stream.id) == Engine.ClientDone(old(m.CellOf(stream.id)), op, ec)
  {
    match op
    case Resolve | Connecting => ClientConnectDone(m, stream, op, ec);
    case Filled(n) => ClientReadDone(m, stream, n, ec);
    case Write(_, _) =>
      if ec == Success {
        OnClientWrite(m, stream);
      } else {
        OnClientError(m, stream, ec);
      }
    case _ => OnClientError(m, stream, ec);
  }
}
