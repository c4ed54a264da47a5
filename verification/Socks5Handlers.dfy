/** The handlers of the five SOCKS5 state objects, acting on the session and the manager in
    place. */
module Socks5Handlers {
  import opened Basics
  import opened Transport
  import opened Sessions
  import opened StreamManagers
  import opened TransferHandlers
  import Socks5
  import Socks5State

  method AuthRequestServerRead(m: StreamManager, session: ProxySession, buffer: seq<byte>)
    requires m.Holds(session) && |buffer| <= MAX_BUFFER_SIZE
    requires session.state == AuthRequest
    modifies m.pairs[session.id].Footprint()
    ensures m.Ready(session.id)
    ensures m.CellOf(session.id) == Socks5State.AuthRequestServerRead(old(m.CellOf(session.id)), buffer)
  {
    var error := Socks5.IsSocks5AuthRequest(buffer);
    var authMode := if error.Some? then Socks5.NOT_SUPPORTED else Socks5.NO_AUTH;
    session.SetResponse([Socks5.VERSION, authMode]);
    assert m.CellOf(session.id) == SetResponse(old(m.CellOf(session.id)), [Socks5.VERSION, authMode]);
    m.WriteServer(session.id, session.response);
    session.ChangeState(ConnectionRequest);
  }

  /** The tail of the request handler: the request is kept as the reply to come, and the
      client stream starts connecting. */
  method Dial(m: StreamManager, session: ProxySession, host: HostText, service: string, buffer: seq<byte>)
    requires m.Holds(session) && |buffer| <= MAX_BUFFER_SIZE
    requires session.state == ConnectionRequest && |buffer| >= 2
    modifies m.pairs[session.id].Footprint()
    ensures m.Ready(session.id)
    ensures m.CellOf(session.id)
         == ChangeState(Connect(SetResponse(SetEndpointInfo(old(m.CellOf(session.id)), host, service), buffer),
                                host, service), ConnectionEstablished)
  {
    session.SetEndpointInfo(host, service);
    session.SetResponse(buffer);
    m.Connect(session.id, session.host, session.service);
    session.ChangeState(ConnectionEstablished);
  }

  method ConnectionRequestServerRead(m: StreamManager, session: ProxySession, buffer: seq<byte>, beyond: seq<byte>)
    requires m.Holds(session) && |buffer| <= MAX_BUFFER_SIZE
    requires session.state == ConnectionRequest
    modifies m`sessions, m.pairs[session.id].Footprint()
    ensures m.Keeps(session.id, old(m.sessions)) && m.Ready(session.id)
    ensures m.CellOf(session.id)
         == Socks5State.ConnectionRequestServerRead(old(m.CellOf(session.id)), buffer, beyond)
  {
    if !Socks5.IsValidRequestPacket(buffer) {
      m.Stop(session.id);
      return;
    }
    var ok, host, service := Socks5.GetRemoteAddressInfo(buffer, beyond);
    if !ok {
      m.Stop(session.id);
      return;
    }
    Dial(m, session, host, service, buffer);
  }

  method ConnectionEstablishedClientConnect(m: StreamManager, session: ProxySession)
    requires m.Holds(session) && session.state == ConnectionEstablished
    modifies m.pairs[session.id].Footprint()
    ensures m.Ready(session.id)
    ensures m.CellOf(session.id) == Socks5State.ConnectionEstablishedClientConnect(old(m.CellOf(session.id)))
  {
    session.SetResponseErrorCode(0);
    m.WriteServer(session.id, session.response);
    session.ChangeState(ReadyToTransferData);
  }

  method ConnectionEstablishedClientError(m: StreamManager, session: ProxySession, ec: ErrorCode)
    requires m.Holds(session) && session.state == ConnectionEstablished
    modifies m.pairs[session.id].Footprint()
    ensures m.Ready(session.id)
    ensures m.CellOf(session.id) == Socks5State.ConnectionEstablishedClientError(old(m.CellOf(session.id)), ec)
  {
    session.SetResponseErrorCode(Socks5State.ResponseErrorCode(ec));
    m.WriteServer(session.id, session.response);
  }

  method HandleServerRead(m: StreamManager, session: ProxySession, buffer: seq<byte>, beyond: seq<byte>)
    requires m.Holds(session) && |buffer| <= MAX_BUFFER_SIZE
    modifies m`sessions, m.pairs[session.id].Footprint()
    ensures m.Keeps(session.id, old(m.sessions)) && m.Ready(session.id)
    ensures m.CellOf(session.id) == Socks5State.HandleServerRead(old(m.CellOf(session.id)), buffer, beyond)
  {
    match session.state
    case AuthRequest => AuthRequestServerRead(m, session, buffer);
    case ConnectionRequest => ConnectionRequestServerRead(m, session, buffer, beyond);
    case DataTransferMode => DataTransferServerRead(m, session, buffer);
    case _ =>
  }

  method HandleClientRead(m: StreamManager, session: ProxySession, buffer: seq<byte>)
    requires m.Holds(session) && |buffer| <= MAX_BUFFER_SIZE
    modifies m.pairs[session.id].Footprint()
    ensures m.Ready(session.id)
    ensures m.CellOf(session.id) == Socks5State.HandleClientRead(old(m.CellOf(session.id)), buffer)
  {
    if session.state == DataTransferMode {
      DataTransferClientRead(m, session, buffer);
    }
  }

  method HandleClientConnect(m: StreamManager, session: ProxySession)
    requires m.Holds(session)
    modifies m.pairs[session.id].Footprint()
    ensures m.Ready(session.id)
    ensures m.CellOf(session.id) == Socks5State.HandleClientConnect(old(m.CellOf(session.id)))
  {
    if session.state == ConnectionEstablished {
      ConnectionEstablishedClientConnect(m, session);
    }
  }

  method HandleServerWrite(m: StreamManager, session: ProxySession)
    requires m.Holds(session)
    modifies m`sessions, m.pairs[session.id].Footprint()
    ensures m.Keeps(session.id, old(m.sessions)) && m.Ready(session.id)
    ensures m.CellOf(session.id) == Socks5State.HandleServerWrite(old(m.CellOf(session.id)))
  {
    match session.state
    case ConnectionRequest => m.ReadServer(session.id);
    case ConnectionEstablished => m.Stop(session.id);
    case ReadyToTransferData => StartTransfer(m, session, DataTransferMode);
    case DataTransferMode => m.ReadClient(session.id);
    case _ =>
  }

  method HandleClientWrite(m: StreamManager, session: ProxySession)
    requires m.Holds(session)
    modifies m.pairs[session.id].Footprint()
    ensures m.Ready(session.id)
    ensures m.CellOf(session.id) == Socks5State.HandleClientWrite(old(m.CellOf(session.id)))
  {
    if session.state == DataTransferMode {
      m.ReadServer(session.id);
    }
  }

  method HandleServerError(m: StreamManager, session: ProxySession)
    requires m.Holds(session)
    modifies m`sessions, m.pairs[session.id].Footprint()
    ensures m.Keeps(session.id, old(m.sessions)) && m.Ready(session.id)
    ensures m.CellOf(session.id) == Socks5State.HandleServerError(old(m.CellOf(session.id)))
  {
    m.Stop(session.id);
  }

  method HandleClientError(m: StreamManager, session: ProxySession, ec: ErrorCode)
    requires m.Holds(session)
    modifies m`sessions, m.pairs[session.id].Footprint()
    ensures m.Keeps(session.id, old(m.sessions)) && m.Ready(session.id)
    ensures m.CellOf(session.id) == Socks5State.HandleClientError(old(m.CellOf(session.id)), ec)
  {
    if session.state == ConnectionEstablished {
      ConnectionEstablishedClientError(m, session, ec);
    } else {
      m.Stop(session.id);
    }
  }
}
