/** A proxy session with its two streams, and what the stream manager does for it. */
module Sessions {
  import opened Basics
  import opened Transport

  /** The state object of a session, of either protocol. */
  datatype Phase =
    | AuthRequest | ConnectionRequest | ConnectionEstablished | ReadyToTransferData | DataTransferMode
    | HttpWaitRequest | HttpConnectionEstablished | HttpReadyToTransferData | HttpDataTransferMode

  datatype Session = Session(
    state: Phase,
    response: seq<byte>,
    host: HostText,
    service: string,
    toRemote: nat,
    toLocal: nat)

  /** One connection: its session while it is in the manager's map, and its two streams, which
      live on until their last completion.  chunks lists what the session was given to read
      from the server side. */
  datatype Cell = Cell(session: Option<Session>, server: Stream, client: Stream, chunks: seq<seq<byte>>)

  predicate SessionOk(s: Session) {
    && |s.response| <= MAX_BUFFER_SIZE
    && (s.state == ConnectionEstablished ==> |s.response| >= 2)
  }

  predicate CellOk(c: Cell) {
    && StreamOk(c.server) && c.server.kind != TcpClient
    && StreamOk(c.client) && c.client.kind == TcpClient
    && (c.session.Some? ==> SessionOk(c.session.value))
  }

  predicate Live(c: Cell) { c.session.Some? }

  predicate LiveOk(c: Cell) { CellOk(c) && Live(c) }

  function NewSession(state: Phase): Session {
    Session(state, [], Name(""), "", 0, 0)
  }

  // ---------- the session's own fields ----------

  function ChangeState(c: Cell, state: Phase): (r: Cell)
    requires LiveOk(c) && (state == ConnectionEstablished ==> |c.session.value.response| >= 2)
    ensures LiveOk(r)
  {
    c.(session := Some(c.session.value.(state := state)))
  }

  function SetResponse(c: Cell, response: seq<byte>): (r: Cell)
    requires LiveOk(c) && |response| <= MAX_BUFFER_SIZE
    requires c.session.value.state == ConnectionEstablished ==> |response| >= 2
    ensures LiveOk(r)
  {
    c.(session := Some(c.session.value.(response := response)))
  }

  function SetResponseErrorCode(c: Cell, code: byte): (r: Cell)
    requires LiveOk(c) && |c.session.value.response| >= 2
    ensures LiveOk(r)
  {
    c.(session := Some(c.session.value.(response := c.session.value.response[1 := code])))
  }

  function SetEndpointInfo(c: Cell, host: HostText, service: string): (r: Cell)
    requires LiveOk(c)
    ensures LiveOk(r)
  {
    c.(session := Some(c.session.value.(host := host, service := service)))
  }

  function CountToRemote(c: Cell, n: nat): (r: Cell)
    requires LiveOk(c)
    ensures LiveOk(r)
  {
    c.(session := Some(c.session.value.(toRemote := c.session.value.toRemote + n)))
  }

  function CountToLocal(c: Cell, n: nat): (r: Cell)
    requires LiveOk(c)
    ensures LiveOk(r)
  {
    c.(session := Some(c.session.value.(toLocal := c.session.value.toLocal + n)))
  }

  // ---------- the manager's commands, each gated by the session map ----------

  function ReadServer(c: Cell): (r: Cell)
    requires CellOk(c)
    ensures CellOk(r) && r.session == c.session
  {
    if Live(c) then c.(server := DoRead(c.server)) else c
  }

  function ReadClient(c: Cell): (r: Cell)
    requires CellOk(c)
    ensures CellOk(r) && r.session == c.session
  {
    if Live(c) then c.(client := DoRead(c.client)) else c
  }

  function WriteServer(c: Cell, buffer: seq<byte>): (r: Cell)
    requires CellOk(c) && |buffer| <= MAX_BUFFER_SIZE
    ensures CellOk(r) && r.session == c.session
  {
    if Live(c) then c.(server := DoWrite(c.server, buffer)) else c
  }

  function WriteClient(c: Cell, buffer: seq<byte>): (r: Cell)
    requires CellOk(c) && |buffer| <= MAX_BUFFER_SIZE
    ensures CellOk(r) && r.session == c.session
  {
    if Live(c) then c.(client := DoWrite(c.client, buffer)) else c
  }

  function Connect(c: Cell, host: HostText, service: string): (r: Cell)
    requires CellOk(c)
    ensures CellOk(r) && r.session == c.session
  {
    if Live(c) then c.(client := DoStart(c.client.(host := host, service := service))) else c
  }

  /** Both streams are stopped and the session leaves the map. */
  function Stop(c: Cell): (r: Cell)
    requires CellOk(c)
    ensures CellOk(r) && !Live(r)
  {
    if Live(c) then c.(session := None, server := DoStop(c.server), client := DoStop(c.client)) else c
  }
}
