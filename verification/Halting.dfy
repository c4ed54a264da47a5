/** What becomes of the sockets of a closed session: a TCP socket has been shut down, and a TLS
    socket is closed or about to be. */
module Halting {
  import opened Basics
  import opened Transport
  import opened Sessions
  import opened Engine
  import opened Dispatch
  import opened Closing
  import Socks5
  import Socks5State
  import HttpState

  // ---------- an open session ----------

  predicate Running(s: Stream) {
    s.open && !s.shut && s.pending[Shutdown] == 0 && s.pending[NullWrite] == 0
  }

  /** The stream has been stopped, once. */
  predicate Halts(s: Stream, s': Stream) {
    && s'.kind == s.kind && s'.open == s.open
    && s'.shut == (s.shut || s.kind != TlsServer)
    && (s.kind == TlsServer && s.open ==>
          s'.pending[Shutdown] == s.pending[Shutdown] + 1 && s'.pending[NullWrite] == s.pending[NullWrite] + 1)
  }

  /** Nothing that would close it has happened to the stream. */
  predicate GoesOn(s: Stream, s': Stream) {
    && s'.kind == s.kind && s'.open == s.open && s'.shut == s.shut
    && s'.pending[Shutdown] == s.pending[Shutdown] && s'.pending[NullWrite] == s.pending[NullWrite]
  }

  /** A handler either leaves the session open, or stops both of its streams. */
  predicate StopsOrGoesOn(c: Cell, d: Cell) {
    if Live(d) then GoesOn(c.server, d.server) && GoesOn(c.client, d.client)
    else Halts(c.server, d.server) && Halts(c.client, d.client)
  }

  lemma StartGoesOn(s: Stream, op: Op)
    requires StreamOk(s) && OpOk(op) && op != Shutdown && op != NullWrite
    ensures GoesOn(s, Start(s, op))
  {
  }

  lemma WriteGoesOn(s: Stream, event: seq<byte>)
    requires StreamOk(s) && |event| <= MAX_BUFFER_SIZE
    ensures GoesOn(s, DoWrite(s, event))
  {
    StartGoesOn(s.(writeBuffer := Overwrite(s.writeBuffer, event)), Write(|event|, 0));
  }

  lemma HaltStream(s: Stream)
    requires StreamOk(s)
    ensures Halts(s, DoStop(s))
  {
  }

  /** The session's stop stops both of its streams. */
  lemma StopHalts(c: Cell)
    requires LiveOk(c)
    ensures StopsOrGoesOn(c, Stop(c)) && !Live(Stop(c))
  {
    HaltStream(c.server);
    HaltStream(c.client);
  }

  lemma ThenHalts(c: Cell, c1: Cell, d: Cell)
    requires GoesOn(c.server, c1.server) && GoesOn(c.client, c1.client) && StopsOrGoesOn(c1, d)
    ensures StopsOrGoesOn(c, d)
  {
  }

  lemma AuthRead(c: Cell, buffer: seq<byte>, beyond: seq<byte>)
    requires LiveOk(c) && |buffer| <= MAX_BUFFER_SIZE && c.session.value.state == AuthRequest
    ensures StopsOrGoesOn(c, Socks5State.HandleServerRead(c, buffer, beyond))
  {
    WriteGoesOn(c.server, Socks5State.HandleServerRead(c, buffer, beyond).session.value.response);
  }

  lemma RequestRead(c: Cell, buffer: seq<byte>, beyond: seq<byte>)
    requires LiveOk(c) && |buffer| <= MAX_BUFFER_SIZE && c.session.value.state == ConnectionRequest
    ensures StopsOrGoesOn(c, Socks5State.HandleServerRead(c, buffer, beyond))
  {
    var to := Socks5.RemoteAddress(buffer, beyond);
    StopHalts(c);
    if to.Some? {
      StartGoesOn(c.client.(host := to.value.host, service := to.value.service), Resolve);
    }
  }

  lemma TransferRead(c: Cell, buffer: seq<byte>, beyond: seq<byte>)
    requires LiveOk(c) && |buffer| <= MAX_BUFFER_SIZE
    requires c.session.value.state != AuthRequest && c.session.value.state != ConnectionRequest
    ensures StopsOrGoesOn(c, Socks5State.HandleServerRead(c, buffer, beyond))
  {
    WriteGoesOn(c.client, buffer);
  }

  lemma Socks5Read(c: Cell, buffer: seq<byte>, beyond: seq<byte>)
    requires LiveOk(c) && |buffer| <= MAX_BUFFER_SIZE
    ensures StopsOrGoesOn(c, Socks5State.HandleServerRead(c, buffer, beyond))
  {
    if c.session.value.state == AuthRequest {
      AuthRead(c, buffer, beyond);
    } else if c.session.value.state == ConnectionRequest {
      RequestRead(c, buffer, beyond);
    } else {
      TransferRead(c, buffer, beyond);
    }
  }

  lemma RefusalHalts(c: Cell)
    requires LiveOk(c)
    ensures StopsOrGoesOn(c, Stop(WriteServer(c, HttpState.ErrorReply())))
  {
    var c1 := WriteServer(c, HttpState.ErrorReply());
    WriteGoesOn(c.server, HttpState.ErrorReply());
    StopHalts(c1);
    ThenHalts(c, c1, Stop(c1));
  }

  lemma HeadRead(c: Cell, buffer: seq<byte>)
    requires LiveOk(c) && |buffer| <= MAX_BUFFER_SIZE && c.session.value.state == HttpWaitRequest
    ensures StopsOrGoesOn(c, HttpState.WaitRequestServerRead(c, buffer))
  {
    match HttpState.Decide(buffer)
    case Throw =>
    case Refuse => RefusalHalts(c);
    case Forward(host, service, _) =>
      StartGoesOn(c.client.(host := Name(host), service := service), Resolve);
  }

  lemma HttpRead(c: Cell, buffer: seq<byte>)
    requires LiveOk(c) && |buffer| <= MAX_BUFFER_SIZE
    ensures StopsOrGoesOn(c, HttpState.HandleServerRead(c, buffer))
  {
    if c.session.value.state == HttpWaitRequest {
      HeadRead(c, buffer);
    } else {
      WriteGoesOn(c.client, buffer);
    }
  }

  lemma ServerRead(c: Cell, buffer: seq<byte>, beyond: seq<byte>)
    requires LiveOk(c) && |buffer| <= MAX_BUFFER_SIZE
    ensures StopsOrGoesOn(c, OnServerRead(c, buffer, beyond))
  {
    var c' := c.(chunks := c.chunks + [buffer]);
    if IsHttp(c.session.value.state) {
      HttpRead(c', buffer);
    } else {
      Socks5Read(c', buffer, beyond);
    }
  }

  lemma ClientRead(c: Cell, buffer: seq<byte>)
    requires LiveOk(c) && |buffer| <= MAX_BUFFER_SIZE
    ensures StopsOrGoesOn(c, OnClientRead(c, buffer))
  {
    WriteGoesOn(c.server, buffer);
  }

  lemma ServerWrite(c: Cell)
    requires LiveOk(c)
    ensures StopsOrGoesOn(c, OnServerWrite(c))
  {
    StopHalts(c);
    StartGoesOn(c.server, Read);
    StartGoesOn(c.client, Read);
  }

  lemma ClientWrite(c: Cell)
    requires LiveOk(c)
    ensures StopsOrGoesOn(c, OnClientWrite(c))
  {
    StartGoesOn(c.server, Read);
    StartGoesOn(DoRead(c.server), Read);
  }

  lemma Connects(c: Cell)
    requires LiveOk(c)
    ensures StopsOrGoesOn(c, OnConnect(c))
  {
    var d := OnConnect(c);
    WriteGoesOn(c.server, d.session.value.response);
    WriteGoesOn(c.client, d.session.value.response);
  }

  lemma ServerError(c: Cell, ec: ErrorCode)
    requires LiveOk(c)
    ensures StopsOrGoesOn(c, OnServerError(c, ec))
  {
    StopHalts(c);
  }

  lemma ClientError(c: Cell, ec: ErrorCode)
    requires LiveOk(c)
    ensures StopsOrGoesOn(c, OnClientError(c, ec))
  {
    if c.session.value.state == ConnectionEstablished {
      WriteGoesOn(c.server, OnClientError(c, ec).session.value.response);
    } else {
      StopHalts(c);
    }
  }

  lemma ServerDoneHalts(c: Cell, op: Op, ec: ErrorCode, beyond: seq<byte>)
    requires LiveOk(c) && OpOk(op) && op != Shutdown && op != NullWrite
    ensures StopsOrGoesOn(c, ServerDone(c, op, ec, beyond))
  {
    ServerError(c, ec);
    if op.Filled? {
      ServerRead(c, c.server.readBuffer[..op.n], beyond);
    } else if op.Write? {
      ServerWrite(c);
    }
  }

  lemma AttemptHalts(c: Cell, op: Op, ec: ErrorCode)
    requires LiveOk(c) && (op == Resolve || op == Connecting)
    ensures StopsOrGoesOn(c, ClientDone(c, op, ec))
  {
    ClientError(c.(client := c.client.(link := Failed(ec))), ec);
    Connects(c.(client := c.client.(link := Connected)));
  }

  lemma ClientDoneHalts(c: Cell, op: Op, ec: ErrorCode)
    requires LiveOk(c) && OpOk(op)
    ensures StopsOrGoesOn(c, ClientDone(c, op, ec))
  {
    if op == Resolve || op == Connecting {
      AttemptHalts(c, op, ec);
    } else {
      ClientError(c, ec);
      if op.Filled? {
        ClientRead(c, c.client.readBuffer[..op.n]);
      } else if op.Write? {
        ClientWrite(c);
      }
    }
  }

  lemma TakenGoesOn(c: Cell, side: Side, op: Op)
    requires CellOk(c) && op != Shutdown && op != NullWrite
    ensures var c1 := Taken(c, side, op); GoesOn(c.server, c1.server) && GoesOn(c.client, c1.client)
  {
  }

  lemma FillGoesOn(s: Stream, bytes: seq<byte>)
    requires StreamOk(s) && Read in s.pending && |bytes| <= MAX_BUFFER_SIZE
    ensures GoesOn(s, Fill(s, bytes))
  {
  }

  lemma DrainGoesOn(s: Stream, op: Op, k: nat)
    requires StreamOk(s) && op in s.pending && op.Write? && op.sent + k <= op.len
    ensures GoesOn(s, Drain(s, op, k))
  {
  }

  lemma KernelGoesOn(c: Cell, e: Event)
    requires CellOk(c) && Enabled(c, e) && !e.Done?
    ensures var d := Step(c, e);
            d.session == c.session && GoesOn(c.server, d.server) && GoesOn(c.client, d.client)
  {
    if e.Arrive? {
      FillGoesOn(Of(c, e.side), e.bytes);
    } else {
      DrainGoesOn(Of(c, e.side), e.op, e.k);
    }
  }

  /** An open session stays open and runs on, or is closed and stops both streams. */
  lemma OpenStep(c: Cell, e: Event)
    requires LiveOk(c) && Running(c.server) && Running(c.client) && Enabled(c, e)
    ensures StopsOrGoesOn(c, Step(c, e))
  {
    if !e.Done? {
      KernelGoesOn(c, e);
    } else {
      var c1 := Taken(c, e.side, e.op);
      TakenGoesOn(c, e.side, e.op);
      if e.side == ServerSide {
        ServerDoneHalts(c1, e.op, e.ec, e.beyond);
      } else {
        ClientDoneHalts(c1, e.op, e.ec);
      }
      ThenHalts(c, c1, Step(c, e));
    }
  }

  // ---------- a closed session ----------

  /** A TLS socket is open exactly until the first of its two closing operations is over. */
  predicate Halted(s: Stream) {
    if s.kind != TlsServer then s.shut
    else
      && s.pending[Shutdown] <= 1 && s.pending[NullWrite] <= 1
      && (s.open <==> s.pending[Shutdown] == 1 && s.pending[NullWrite] == 1)
  }

  lemma EchoHalts(s: Stream, op: Op, ec: ErrorCode)
    requires StreamOk(s) && Halted(s) && op in s.pending
    ensures Halted(ServerEcho(s, op, ec)) && ServerEcho(s, op, ec).kind == s.kind
    ensures op == Shutdown || op == NullWrite ==> !ServerEcho(s, op, ec).open
  {
  }

  lemma KernelStaysHalted(s: Stream, s': Stream)
    requires Halted(s) && GoesOn(s, s')
    ensures Halted(s')
  {
  }

  lemma ClosedStep(c: Cell, e: Event)
    requires CellOk(c) && !Live(c) && Halted(c.server) && c.client.shut && Enabled(c, e)
    ensures var d := Step(c, e); !Live(d) && Halted(d.server) && d.server.kind == c.server.kind && d.client.shut
  {
    ClosedStays(c, e);
    if !e.Done? {
      KernelGoesOn(c, e);
      KernelStaysHalted(c.server, Step(c, e).server);
    } else if e.side == ServerSide {
      ServerDoneClosed(c, e.op, e.ec, e.beyond);
      EchoHalts(c.server, e.op, e.ec);
    } else {
      ClosedClientStaysShut(c, e);
    }
  }

  lemma ClosedClientStaysShut(c: Cell, e: Event)
    requires CellOk(c) && !Live(c) && Enabled(c, e) && e.Done? && e.side == ClientSide
    ensures Step(c, e).server == c.server && Step(c, e).client.shut == c.client.shut
  {
    if e.op == Resolve && e.ec == Success {
      StepResolve(c, e.beyond);
    } else if e.op == Resolve || e.op == Connecting {
      AttemptClosed(c, e);
    } else {
      ClientDoneClosed(c, e.op, e.ec, e.beyond);
    }
  }

  // ---------- all runs ----------

  predicate Sockets(c: Cell, kind: Kind) {
    && c.server.kind == kind && c.client.kind == TcpClient
    && if Live(c) then Running(c.server) && Running(c.client) else Halted(c.server) && c.client.shut
  }

  lemma SocketsStep(c: Cell, kind: Kind, e: Event)
    requires CellOk(c) && Sockets(c, kind) && Enabled(c, e)
    ensures Sockets(Step(c, e), kind)
  {
    if Live(c) {
      OpenStep(c, e);
    } else {
      ClosedStep(c, e);
    }
  }

  lemma {:induction false} SocketsRun(c: Cell, kind: Kind, events: seq<Event>)
    requires CellOk(c) && Sockets(c, kind) && Runs(c, events)
    ensures Sockets(After(c, events), kind)
    decreases |events|
  {
    if events != [] {
      SocketsStep(c, kind, events[0]);
      SocketsRun(Step(c, events[0]), kind, events[1..]);
    }
  }

  lemma Reached(protocol: Protocol, kind: Kind, events: seq<Event>)
    requires kind != TcpClient && Runs(Accepted(protocol, kind), events)
    ensures Sockets(After(Accepted(protocol, kind), events), kind)
  {
    SocketsRun(Accepted(protocol, kind), kind, events);
  }

  /** In every run of either protocol: while a session is open, neither of its sockets has been
      shut down or is being closed; once it is closed, both TCP sockets have been shut down, and a
      TLS socket is closed unless both of its closing operations are still outstanding. */
  lemma NothingStaysOpen(protocol: Protocol, kind: Kind, events: seq<Event>)
    requires kind != TcpClient && Runs(Accepted(protocol, kind), events)
    ensures var c := After(Accepted(protocol, kind), events);
            if Live(c) then
              && c.server.open && !c.server.shut && !c.client.shut
              && Shutdown !in c.server.pending && NullWrite !in c.server.pending
            else
              && c.client.shut && (kind == TcpServer ==> c.server.shut)
              && (kind == TlsServer && c.server.open ==>
                    c.server.pending[Shutdown] == 1 && c.server.pending[NullWrite] == 1)
              && (kind == TlsServer && c.server.pending == multiset{} ==> !c.server.open)
  {
    Reached(protocol, kind, events);
  }

  /** The event that closes a session starts exactly one of each closing operation of a TLS
      stream, and shuts TCP sockets down. */
  lemma CloseHaltsBoth(protocol: Protocol, kind: Kind, events: seq<Event>, e: Event)
    requires kind != TcpClient && Runs(Accepted(protocol, kind), events)
    requires var c := After(Accepted(protocol, kind), events); Live(c) && Enabled(c, e) && !Live(Step(c, e))
    ensures var c := After(Accepted(protocol, kind), events);
            var d := Step(c, e);
            && d.client.shut && !c.client.shut
            && if kind == TlsServer then
                 && d.server.pending[Shutdown] == 1 && d.server.pending[NullWrite] == 1 && d.server.open
                 && c.server.pending[Shutdown] == 0 && c.server.pending[NullWrite] == 0
               else d.server.shut && !c.server.shut
  {
    Reached(protocol, kind, events);
    OpenStep(After(Accepted(protocol, kind), events), e);
  }

  /** Either closing operation closes the socket when it is over, whether it failed or not. */
  lemma EitherCloses(c: Cell, op: Op, ec: ErrorCode, beyond: seq<byte>)
    requires CellOk(c) && (op == Shutdown || op == NullWrite) && Enabled(c, Done(ServerSide, op, ec, beyond))
    ensures !Step(c, Done(ServerSide, op, ec, beyond)).server.open
  {
  }
}
