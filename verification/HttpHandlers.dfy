/** The handlers of the four HTTP state objects, acting on the session and the manager in
    place. */
module HttpHandlers {
  import opened Basics
  import opened Transport
  import opened Sessions
  import opened StreamManagers
  import opened TransferHandlers
  import HttpHead
  import HttpState

  method Dial(m: StreamManager, session: ProxySession, host: HostText, service: string, response: seq<byte>)
    requires m.Holds(session) && |response| <= MAX_BUFFER_SIZE
    requires session.state == HttpWaitRequest
    modifies m.pairs[session.id].Footprint()
    ensures m.Ready(session.id)
    ensures m.CellOf(session.id)
         == ChangeState(Connect(SetEndpointInfo(SetResponse(old(m.CellOf(session.id)), response), host, service),
                                host, service), HttpConnectionEstablished)
  {
    session.SetResponse(response);
    session.SetEndpointInfo(host, service);
    m.Connect(session.id, session.host, session.service);
    session.ChangeState(HttpConnectionEstablished);
  }

  /** The reading of the head, up to where the session is touched. */
  method DecideOn(buffer: seq<byte>) returns (decision: HttpHead.Decision)
    ensures decision == HttpState.Decide(buffer)
  {
    var req := HttpHead.GetHeaders(Text(buffer));
    var host := HttpHead.GetHost(req);
    if host.None? {
      return HttpHead.Throw;
    }
    var service := HttpHead.GetService(req);
    if host.value == "" || service == "" {
      return HttpHead.Refuse;
    }
    return HttpHead.Forward(host.value, service, req.verb == HttpHead.CONNECT);
  }

  lemma RefusedShape(c: Cell, buffer: seq<byte>)
    requires LiveOk(c) && c.session.value.state == HttpWaitRequest && |buffer| <= MAX_BUFFER_SIZE
    requires HttpState.Decide(buffer).Refuse?
    ensures HttpState.WaitRequestServerRead(c, buffer) == Stop(WriteServer(c, HttpState.ErrorReply()))
  {
  }

  lemma ForwardedShape(c: Cell, buffer: seq<byte>)
    requires LiveOk(c) && c.session.value.state == HttpWaitRequest && |buffer| <= MAX_BUFFER_SIZE
    requires HttpState.Decide(buffer).Forward?
    ensures var d := HttpState.Decide(buffer);
            var response := if d.connect then HttpState.DoneReply() else buffer;
            HttpState.WaitRequestServerRead(c, buffer)
              == ChangeState(Connect(SetEndpointInfo(SetResponse(c, response), Name(d.host), d.service),
                                     Name(d.host), d.service), HttpConnectionEstablished)
  {
  }

  /** A refused request is answered with the 500 reply and the session is stopped. */
  method Refuse(m: StreamManager, session: ProxySession, buffer: seq<byte>)
    requires m.Holds(session) && |buffer| <= MAX_BUFFER_SIZE
    requires session.state == HttpWaitRequest && HttpState.Decide(buffer).Refuse?
    modifies m`sessions, m.pairs[session.id].Footprint()
    ensures m.Keeps(session.id, old(m.sessions)) && m.Ready(session.id)
    ensures m.CellOf(session.id) == HttpState.WaitRequestServerRead(old(m.CellOf(session.id)), buffer)
  {
    RefusedShape(m.CellOf(session.id), buffer);
    m.WriteServer(session.id, HttpState.ErrorReply());
    m.Stop(session.id);
  }

  /** The stored response says later whether the request was a CONNECT. */
  method Forward(m: StreamManager, session: ProxySession, buffer: seq<byte>,
                 decision: HttpHead.Decision)
    requires m.Holds(session) && |buffer| <= MAX_BUFFER_SIZE
    requires session.state == HttpWaitRequest && decision == HttpState.Decide(buffer) && decision.Forward?
    modifies m.pairs[session.id].Footprint()
    ensures m.Keeps(session.id, old(m.sessions)) && m.Ready(session.id)
    ensures m.CellOf(session.id) == HttpState.WaitRequestServerRead(old(m.CellOf(session.id)), buffer)
  {
    ForwardedShape(m.CellOf(session.id), buffer);
    var response := if decision.connect then HttpState.DoneReply() else buffer;
    Dial(m, session, Name(decision.host), decision.service, response);
  }

  /** threw tells that an exception has left the handler. */
  method WaitRequestServerRead(m: StreamManager, session: ProxySession, buffer: seq<byte>) returns (threw: bool)
    requires m.Holds(session) && |buffer| <= MAX_BUFFER_SIZE
    requires session.state == HttpWaitRequest
    modifies m`sessions, m.pairs[session.id].Footprint()
    ensures m.Keeps(session.id, old(m.sessions)) && m.Ready(session.id)
    ensures m.CellOf(session.id) == HttpState.WaitRequestServerRead(old(m.CellOf(session.id)), buffer)
    ensures threw <==> HttpState.Decide(buffer).Throw?
  {
    var decision := DecideOn(buffer);
    threw := decision.Throw?;
    if decision.Refuse? {
      Refuse(m, session, buffer);
    } else if decision.Forward? {
      Forward(m, session, buffer, decision);
    }
  }

  method ConnectionEstablishedClientConnect(m: StreamManager, session: ProxySession)
    requires m.Holds(session)
    modifies m.pairs[session.id].Footprint()
    ensures m.Ready(session.id)
    ensures m.CellOf(session.id) == HttpState.ConnectionEstablishedClientConnect(old(m.CellOf(session.id)))
  {
    if Text(session.response) == HttpHead.HTTP_DONE {
      m.WriteServer(session.id, session.response);
    } else {
      m.WriteClient(session.id, session.response);
    }
    session.ChangeState(HttpReadyToTransferData);
  }

  /** A plain request has been passed on: the server side is read twice. */
  method ReadyToTransferClientWrite(m: StreamManager, session: ProxySession)
    requires m.Holds(session)
    modifies m.pairs[session.id].Footprint()
    ensures m.Ready(session.id)
    ensures m.CellOf(session.id)
         == ChangeState(ReadServer(ReadServer(old(m.CellOf(session.id)))), HttpDataTransferMode)
  {
    m.ReadServer(session.id);
    m.ReadServer(session.id);
    session.ChangeState(HttpDataTransferMode);
  }

  method HandleServerRead(m: StreamManager, session: ProxySession, buffer: seq<byte>) returns (threw: bool)
    requires m.Holds(session) && |buffer| <= MAX_BUFFER_SIZE
    modifies m`sessions, m.pairs[session.id].Footprint()
    ensures m.Keeps(session.id, old(m.sessions)) && m.Ready(session.id)
    ensures m.CellOf(session.id) == HttpState.HandleServerRead(old(m.CellOf(session.id)), buffer)
    ensures threw <==> old(session.state) == HttpWaitRequest && HttpState.Decide(buffer).Throw?
  {
    threw := false;
    match session.state
    case HttpWaitRequest => threw := WaitRequestServerRead(m, session, buffer);
    case HttpDataTransferMode => DataTransferServerRead(m, session, buffer);
    case _ =>
  }

  method HandleClientRead(m: StreamManager, session: ProxySession, buffer: seq<byte>)
    requires m.Holds(session) && |buffer| <= MAX_BUFFER_SIZE
    modifies m.pairs[session.id].Footprint()
    ensures m.Ready(session.id)
    ensures m.CellOf(session.id) == HttpState.HandleClientRead(old(m.CellOf(session.id)), buffer)
  {
    if session.state == HttpDataTransferMode {
      DataTransferClientRead(m, session, buffer);
    }
  }

  method HandleClientConnect(m: StreamManager, session: ProxySession)
    requires m.Holds(session)
    modifies m.pairs[session.id].Footprint()
    ensures m.Ready(session.id)
    ensures m.CellOf(session.id) == HttpState.HandleClientConnect(old(m.CellOf(session.id)))
  {
    if session.state == HttpConnectionEstablished {
      ConnectionEstablishedClientConnect(m, session);
    }
  }

  method HandleServerWrite(m: StreamManager, session: ProxySession)
    requires m.Holds(session)
    modifies m.pairs[session.id].Footprint()
    ensures m.Ready(session.id)
    ensures m.CellOf(session.id) == HttpState.HandleServerWrite(old(m.CellOf(session.id)))
  {
    match session.state
    case HttpReadyToTransferData => StartTransfer(m, session, HttpDataTransferMode);
    case HttpDataTransferMode => m.ReadClient(session.id);
    case _ =>
  }

  method HandleClientWrite(m: StreamManager, session: ProxySession)
    requires m.Holds(session)
    modifies m.pairs[session.id].Footprint()
    ensures m.Ready(session.id)
    ensures m.CellOf(session.id) == HttpState.HandleClientWrite(old(m.CellOf(session.id)))
  {
    match session.state
    case HttpReadyToTransferData => ReadyToTransferClientWrite(m, session);
    case HttpDataTransferMode => m.ReadServer(session.id);
    case _ =>
  }

  method HandleServerError(m: StreamManager, session: ProxySession)
    requires m.Holds(session)
    modifies m`sessions, m.pairs[session.id].Footprint()
    ensures m.Keeps(session.id, old(m.sessions)) && m.Ready(session.id)
    ensures m.CellOf(session.id) == HttpState.HandleServerError(old(m.CellOf(session.id)))
  {
    m.Stop(session.id);
  }

  method HandleClientError(m: StreamManager, session: ProxySession, ec: ErrorCode)
    requires m.Holds(session)
    modifies m`sessions, m.pairs[session.id].Footprint()
    ensures m.Keeps(session.id, old(m.sessions)) && m.Ready(session.id)
    ensures m.CellOf(session.id) == HttpState.HandleClientError(old(m.CellOf(session.id)), ec)
  {
    m.Stop(session.id);
  }
}
