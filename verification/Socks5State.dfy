/** The handlers of the five SOCKS5 state objects. */
module Socks5State {
  import opened Basics
  import opened Transport
  import opened Sessions
  import Socks5

  /** The reply code of RFC 1928 section 6 for a failed connection attempt. */
  function ResponseErrorCode(ec: ErrorCode): (code: byte)
    ensures 1 <= code <= 6 && code != 2
    ensures code == 3 <==> ec == NetworkUnreachable
    ensures code == 4 <==> ec in {HostUnreachable, HostNotFound, NoData}
    ensures code == 5 <==> ec in {ConnectionRefused, ConnectionAborted, ConnectionReset}
    ensures code == 6 <==> ec == TimedOut
  {
    match ec
    case NetworkUnreachable => 3
    case HostUnreachable | HostNotFound | NoData => 4
    case ConnectionRefused | ConnectionAborted | ConnectionReset => 5
    case TimedOut => 6
    case Success | Other => 1
  }

  function AuthRequestServerRead(c: Cell, buffer: seq<byte>): (r: Cell)
    requires LiveOk(c) && |buffer| <= MAX_BUFFER_SIZE
    ensures CellOk(r)
  {
    var authMode := if Socks5.OffersNoAuth(buffer) then Socks5.NO_AUTH else Socks5.NOT_SUPPORTED;
    var c1 := SetResponse(c, [Socks5.VERSION, authMode]);
    var c2 := WriteServer(c1, c1.session.value.response);
    ChangeState(c2, ConnectionRequest)
  }

  function ConnectionRequestServerRead(c: Cell, buffer: seq<byte>, beyond: seq<byte>): (r: Cell)
    requires LiveOk(c) && |buffer| <= MAX_BUFFER_SIZE
    ensures CellOk(r)
  {
    if !Socks5.IsValidRequestPacket(buffer) then Stop(c)
    else match Socks5.RemoteAddress(buffer, beyond)
      case None => Stop(c)
      case Some(Endpoint(host, service)) =>
        var c1 := SetEndpointInfo(c, host, service);
        var c2 := SetResponse(c1, buffer);
        var c3 := Connect(c2, c2.session.value.host, c2.session.value.service);
        ChangeState(c3, ConnectionEstablished)
  }

  function ConnectionEstablishedClientConnect(c: Cell): (r: Cell)
    requires LiveOk(c) && c.session.value.state == ConnectionEstablished
    ensures CellOk(r)
  {
    var c1 := SetResponseErrorCode(c, 0);
    var c2 := WriteServer(c1, c1.session.value.response);
    ChangeState(c2, ReadyToTransferData)
  }

  function ConnectionEstablishedClientError(c: Cell, ec: ErrorCode): (r: Cell)
    requires LiveOk(c) && c.session.value.state == ConnectionEstablished
    ensures CellOk(r)
  {
    var c1 := SetResponseErrorCode(c, ResponseErrorCode(ec));
    WriteServer(c1, c1.session.value.response)
  }

  function HandleServerRead(c: Cell, buffer: seq<byte>, beyond: seq<byte>): (r: Cell)
    requires LiveOk(c) && |buffer| <= MAX_BUFFER_SIZE
    ensures CellOk(r)
  {
    match c.session.value.state
    case AuthRequest => AuthRequestServerRead(c, buffer)
    case ConnectionRequest => ConnectionRequestServerRead(c, buffer, beyond)
    case DataTransferMode => WriteClient(CountToRemote(c, |buffer|), buffer)
    case _ => c
  }

  function HandleClientRead(c: Cell, buffer: seq<byte>): (r: Cell)
    requires LiveOk(c) && |buffer| <= MAX_BUFFER_SIZE
    ensures CellOk(r)
  {
    match c.session.value.state
    case DataTransferMode => WriteServer(CountToLocal(c, |buffer|), buffer)
    case _ => c
  }

  function HandleClientConnect(c: Cell): (r: Cell)
    requires LiveOk(c)
    ensures CellOk(r)
  {
    match c.session.value.state
    case ConnectionEstablished => ConnectionEstablishedClientConnect(c)
    case _ => c
  }

  function HandleServerWrite(c: Cell): (r: Cell)
    requires LiveOk(c)
    ensures CellOk(r)
  {
    match c.session.value.state
    case ConnectionRequest => ReadServer(c)
    case ConnectionEstablished => Stop(c)
    case ReadyToTransferData => ChangeState(ReadClient(ReadServer(c)), DataTransferMode)
    case DataTransferMode => ReadClient(c)
    case _ => c
  }

  function HandleClientWrite(c: Cell): (r: Cell)
    requires LiveOk(c)
    ensures CellOk(r)
  {
    match c.session.value.state
    case DataTransferMode => ReadServer(c)
    case _ => c
  }

  function HandleServerError(c: Cell): (r: Cell)
    requires LiveOk(c)
    ensures CellOk(r)
  {
    Stop(c)
  }

  function HandleClientError(c: Cell, ec: ErrorCode): (r: Cell)
    requires LiveOk(c)
    ensures CellOk(r)
  {
    match c.session.value.state
    case ConnectionEstablished => ConnectionEstablishedClientError(c, ec)
    case _ => Stop(c)
  }
}
