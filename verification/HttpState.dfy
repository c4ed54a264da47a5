/** The handlers of the four HTTP state objects. */
module HttpState {
  import opened Basics
  import opened Transport
  import opened Sessions
  import HttpHead

  const HTTP_ERROR_500 :=
    "HTTP/1.1 500 Internal Server Error\r\n"
    + "Connection : Closed\r\n"
    + "\r\n"

  function ErrorReply(): (r: seq<byte>)
    ensures Text(r) == HTTP_ERROR_500
    ensures |r| <= MAX_BUFFER_SIZE
  {
    assert IsLatin("HTTP/1.1 500 Internal Server Error\r\n");
    assert IsLatin("Connection : Closed\r\n");
    Octets(HTTP_ERROR_500)
  }

  function DoneReply(): (r: seq<byte>)
    ensures Text(r) == HttpHead.HTTP_DONE
    ensures |r| <= MAX_BUFFER_SIZE
  {
    Octets(HttpHead.HTTP_DONE)
  }

  /** Both replies, letter by letter. */
  lemma RepliesOnText()
    ensures Text(DoneReply()) == "HTTP/1.1 200 OK\r\n\r\n"
    ensures Text(ErrorReply()) == "HTTP/1.1 500 Internal Server Error\r\nConnection : Closed\r\n\r\n"
  {
  }

  /** The decision on a chunk. */
  function Decide(buffer: seq<byte>): HttpHead.Decision {
    HttpHead.Decide(Text(buffer))
  }

  /** An exception leaves before anything has been done. */
  function WaitRequestServerRead(c: Cell, buffer: seq<byte>): (r: Cell)
    requires LiveOk(c) && c.session.value.state == HttpWaitRequest && |buffer| <= MAX_BUFFER_SIZE
    ensures CellOk(r)
  {
    match Decide(buffer)
    case Throw => c
    case Refuse => Stop(WriteServer(c, ErrorReply()))
    case Forward(host, service, connect) =>
      var c1 := SetResponse(c, if connect then DoneReply() else buffer);
      var c2 := SetEndpointInfo(c1, Name(host), service);
      var c3 := Connect(c2, c2.session.value.host, c2.session.value.service);
      ChangeState(c3, HttpConnectionEstablished)
  }

  function ConnectionEstablishedClientConnect(c: Cell): (r: Cell)
    requires LiveOk(c)
    ensures CellOk(r)
  {
    var response := c.session.value.response;
    var c1 := if Text(response) == HttpHead.HTTP_DONE then WriteServer(c, response) else WriteClient(c, response);
    ChangeState(c1, HttpReadyToTransferData)
  }

  function HandleServerRead(c: Cell, buffer: seq<byte>): (r: Cell)
    requires LiveOk(c) && |buffer| <= MAX_BUFFER_SIZE
    ensures CellOk(r)
  {
    match c.session.value.state
    case HttpWaitRequest => WaitRequestServerRead(c, buffer)
    case HttpDataTransferMode => WriteClient(CountToRemote(c, |buffer|), buffer)
    case _ => c
  }

  function HandleClientRead(c: Cell, buffer: seq<byte>): (r: Cell)
    requires LiveOk(c) && |buffer| <= MAX_BUFFER_SIZE
    ensures CellOk(r)
  {
    match c.session.value.state
    case HttpDataTransferMode => WriteServer(CountToLocal(c, |buffer|), buffer)
    case _ => c
  }

  function HandleClientConnect(c: Cell): (r: Cell)
    requires LiveOk(c)
    ensures CellOk(r)
  {
    match c.session.value.state
    case HttpConnectionEstablished => ConnectionEstablishedClientConnect(c)
    case _ => c
  }

  function HandleServerWrite(c: Cell): (r: Cell)
    requires LiveOk(c)
    ensures CellOk(r)
  {
    match c.session.value.state
    case HttpReadyToTransferData => ChangeState(ReadClient(ReadServer(c)), HttpDataTransferMode)
    case HttpDataTransferMode => ReadClient(c)
    case _ => c
  }

  function HandleClientWrite(c: Cell): (r: Cell)
    requires LiveOk(c)
    ensures CellOk(r)
  {
    match c.session.value.state
    case HttpReadyToTransferData => ChangeState(ReadServer(ReadServer(c)), HttpDataTransferMode)
    case HttpDataTransferMode => ReadServer(c)
    case _ => c
  }

  function HandleServerError(c: Cell): (r: Cell)
    requires LiveOk(c)
    ensures CellOk(r)
  {
    Stop(c)
  }

  function HandleClientError(c: Cell, ec: ErrorCode): (r: Cell)
    requires LiveOk(c)
    ensures CellOk(r)
  {
    Stop(c)
  }
}
