/** One connection driven by the completions of its outstanding operations. */
module Engine {
  import opened Basics
  import opened Transport
  import opened Sessions
  import Socks5State
  import HttpState

  datatype Protocol = Socks5 | Http

  function InitialPhase(p: Protocol): Phase {
    match p case Socks5 => AuthRequest case Http => HttpWaitRequest
  }

  predicate IsHttp(state: Phase) {
    state.HttpWaitRequest? || state.HttpConnectionEstablished?
    || state.HttpReadyToTransferData? || state.HttpDataTransferMode?
  }

  /** An accepted connection: the server stream has been started, the session inserted. */
  function Accepted(p: Protocol, kind: Kind): (c: Cell)
    requires kind != TcpClient
    ensures LiveOk(c)
  {
    Cell(Some(NewSession(InitialPhase(p))), DoStart(NewStream(kind)), NewStream(TcpClient), [])
  }

  // ---------- the manager's callbacks, each gated by the session map ----------

  function OnServerRead(c: Cell, buffer: seq<byte>, beyond: seq<byte>): (r: Cell)
    requires CellOk(c) && |buffer| <= MAX_BUFFER_SIZE
    ensures CellOk(r)
  {
    if !Live(c) then c
    else
      var c' := c.(chunks := c.chunks + [buffer]);
      if IsHttp(c.session.value.state) then HttpState.HandleServerRead(c', buffer)
      else Socks5State.HandleServerRead(c', buffer, beyond)
  }

  function OnClientRead(c: Cell, buffer: seq<byte>): (r: Cell)
    requires CellOk(c) && |buffer| <= MAX_BUFFER_SIZE
    ensures CellOk(r)
  {
    if !Live(c) then c
    else if IsHttp(c.session.value.state) then HttpState.HandleClientRead(c, buffer)
    else Socks5State.HandleClientRead(c, buffer)
  }

  function OnConnect(c: Cell): (r: Cell)
    requires CellOk(c)
    ensures CellOk(r)
  {
    if !Live(c) then c
    else if IsHttp(c.session.value.state) then HttpState.HandleClientConnect(c)
    else Socks5State.HandleClientConnect(c)
  }

  function OnServerWrite(c: Cell): (r: Cell)
    requires CellOk(c)
    ensures CellOk(r)
  {
    if !Live(c) then c
    else if IsHttp(c.session.value.state) then HttpState.HandleServerWrite(c)
    else Socks5State.HandleServerWrite(c)
  }

  function OnClientWrite(c: Cell): (r: Cell)
    requires CellOk(c)
    ensures CellOk(r)
  {
    if !Live(c) then c
    else if IsHttp(c.session.value.state) then HttpState.HandleClientWrite(c)
    else Socks5State.HandleClientWrite(c)
  }

  function OnServerError(c: Cell, ec: ErrorCode): (r: Cell)
    requires CellOk(c)
    ensures CellOk(r)
  {
    if !Live(c) then c
    else if IsHttp(c.session.value.state) then HttpState.HandleServerError(c)
    else Socks5State.HandleServerError(c)
  }

  function OnClientError(c: Cell, ec: ErrorCode): (r: Cell)
    requires CellOk(c)
    ensures CellOk(r)
  {
    if !Live(c) then c
    else if IsHttp(c.session.value.state) then HttpState.HandleClientError(c, ec)
    else Socks5State.HandleClientError(c, ec)
  }

  /** The handler of a server read throws an exception that nothing catches. */
  predicate ReadThrows(c: Cell, buffer: seq<byte>) {
    Live(c) && c.session.value.state == HttpWaitRequest && HttpState.Decide(buffer).Throw?
  }

  // ---------- the completion lambdas of the streams ----------

  /** A completion of a server stream, plain or TLS. */
  function ServerDone(c: Cell, op: Op, ec: ErrorCode, beyond: seq<byte>): (r: Cell)
    requires CellOk(c) && OpOk(op)
    ensures CellOk(r)
  {
    match op
    case Handshake =>
      if ec == Success then c.(server := DoRead(c.server)) else OnServerError(c, ec)
    case Filled(n) =>
      if ec == Success then OnServerRead(c, c.server.readBuffer[..n], beyond) else OnServerError(c, ec)
    case Write(_, _) =>
      if ec == Success then OnServerWrite(c) else OnServerError(c, ec)
    case Shutdown | NullWrite =>
      var c1 := if ec == Success then c else OnServerError(c, ec);
      c1.(server := c1.server.(open := false))
    case _ => OnServerError(c, ec)
  }

  predicate DoneThrows(c: Cell, op: Op, ec: ErrorCode)
    requires CellOk(c) && OpOk(op)
  {
    op.Filled? && ec == Success && ReadThrows(c, c.server.readBuffer[..op.n])
  }

  /** A completion of a client stream.  A read of no bytes counts as an error. */
  function ClientDone(c: Cell, op: Op, ec: ErrorCode): (r: Cell)
    requires CellOk(c) && OpOk(op)
    ensures CellOk(r)
  {
    match op
    case Resolve =>
      if ec == Success then c.(client := Start(c.client, Connecting))
      else OnClientError(c.(client := c.client.(link := Failed(ec))), ec)
    case Connecting =>
      if ec == Success then OnConnect(c.(client := c.client.(link := Connected)))
      else OnClientError(c.(client := c.client.(link := Failed(ec))), ec)
    case Filled(n) =>
      if ec == Success && n > 0 then OnClientRead(c, c.client.readBuffer[..n]) else OnClientError(c, ec)
    case Write(_, _) =>
      if ec == Success then OnClientWrite(c) else OnClientError(c, ec)
    case _ => OnClientError(c, ec)
  }

  // ---------- steps and runs ----------

  datatype Side = ServerSide | ClientSide

  /** What happens next: bytes arrive, bytes leave, or the handler of an operation runs. */
  datatype Event =
    | Arrive(side: Side, bytes: seq<byte>)
    | Leave(side: Side, op: Op, k: nat)
    | Done(side: Side, op: Op, ec: ErrorCode, beyond: seq<byte>)

  function Of(c: Cell, side: Side): Stream {
    if side == ServerSide then c.server else c.client
  }

  function With(c: Cell, side: Side, s: Stream): Cell {
    if side == ServerSide then c.(server := s) else c.(client := s)
  }

  /** Any operation may fail at any time; a read succeeds once bytes have arrived, a write once
      all of its bytes have left. */
  predicate Enabled(c: Cell, e: Event) {
    var s := Of(c, e.side);
    match e
    case Arrive(_, bytes) => Read in s.pending && |bytes| <= MAX_BUFFER_SIZE
    case Leave(_, op, k) => op in s.pending && op.Write? && op.sent + k <= op.len
    case Done(_, op, ec, _) =>
      && op in s.pending
      && (ec == Success ==> op != Read && (op.Write? ==> op.sent == op.len))
  }

  function Step(c: Cell, e: Event): (r: Cell)
    requires CellOk(c) && Enabled(c, e)
    ensures CellOk(r)
  {
    match e
    case Arrive(side, bytes) => With(c, side, Fill(Of(c, side), bytes))
    case Leave(side, op, k) => With(c, side, Drain(Of(c, side), op, k))
    case Done(side, op, ec, beyond) =>
      var c1 := With(c, side, Finish(Of(c, side), op));
      if side == ServerSide then ServerDone(c1, op, ec, beyond) else ClientDone(c1, op, ec)
  }

  /** The exception ends the program, so this is the last event of all. */
  predicate Throws(c: Cell, e: Event)
    requires CellOk(c) && Enabled(c, e)
  {
    e.Done? && e.side == ServerSide && DoneThrows(c, e.op, e.ec)
  }

  /** The program goes on after every event of a run. */
  predicate Runs(c: Cell, events: seq<Event>)
    requires CellOk(c)
    decreases |events|
  {
    events == []
    || (Enabled(c, events[0]) && !Throws(c, events[0]) && Runs(Step(c, events[0]), events[1..]))
  }

  function After(c: Cell, events: seq<Event>): (r: Cell)
    requires CellOk(c) && Runs(c, events)
    ensures CellOk(r)
    decreases |events|
  {
    if events == [] then c else After(Step(c, events[0]), events[1..])
  }

  /** Some run leads from c to d. */
  ghost predicate Reaches(c: Cell, d: Cell)
    requires CellOk(c)
  {
    exists events :: Runs(c, events) && After(c, events) == d
  }

  lemma ReachesSelf(c: Cell)
    requires CellOk(c)
    ensures Reaches(c, c)
  {
    assert Runs(c, []) && After(c, []) == c;
  }

  lemma StepThenReach(c: Cell, e: Event, d: Cell)
    requires CellOk(c) && Enabled(c, e) && !Throws(c, e) && Reaches(Step(c, e), d)
    ensures Reaches(c, d)
  {
    var events :| Runs(Step(c, e), events) && After(Step(c, e), events) == d;
    var all := [e] + events;
    assert all[0] == e && all[1..] == events;
    assert Runs(c, all) && After(c, all) == d;
  }

  lemma {:induction false} ReachesOn(c: Cell, d: Cell, x: Cell)
    requires CellOk(c) && CellOk(d) && Reaches(c, d) && Reaches(d, x)
    ensures Reaches(c, x)
  {
    var events :| Runs(c, events) && After(c, events) == d;
    ReachesAlong(c, events, x);
  }

  lemma {:induction false} ReachesAlong(c: Cell, events: seq<Event>, x: Cell)
    requires CellOk(c) && Runs(c, events) && Reaches(After(c, events), x)
    ensures Reaches(c, x)
    decreases |events|
  {
    if events != [] {
      ReachesAlong(Step(c, events[0]), events[1..], x);
      StepThenReach(c, events[0], x);
    }
  }

  lemma ReachesStep(c: Cell, d: Cell, e: Event)
    requires CellOk(c) && CellOk(d) && Reaches(c, d) && Enabled(d, e) && !Throws(d, e)
    ensures Reaches(c, Step(d, e))
  {
    ReachesSelf(Step(d, e));
    StepThenReach(d, e, Step(d, e));
    ReachesOn(c, d, Step(d, e));
  }
}
