/** Which handler each completion ends in. */
module Dispatch {
  import opened Basics
  import opened Transport
  import opened Sessions
  import opened Engine
  import Socks5State
  import HttpState

  /** The connection with a finished operation taken off its stream. */
  function Taken(c: Cell, side: Side, op: Op): (r: Cell)
    requires CellOk(c)
    ensures CellOk(r)
  {
    With(c, side, Finish(Of(c, side), op))
  }

  lemma StepHandshake(c: Cell, beyond: seq<byte>)
    requires CellOk(c) && Enabled(c, Done(ServerSide, Handshake, Success, beyond))
    ensures Step(c, Done(ServerSide, Handshake, Success, beyond))
         == c.(server := DoRead(Finish(c.server, Handshake)))
  {
  }

  lemma StepServerRead(c: Cell, n: nat, beyond: seq<byte>)
    requires CellOk(c) && n <= MAX_BUFFER_SIZE && Enabled(c, Done(ServerSide, Filled(n), Success, beyond))
    ensures Step(c, Done(ServerSide, Filled(n), Success, beyond))
         == OnServerRead(Taken(c, ServerSide, Filled(n)), c.server.readBuffer[..n], beyond)
  {
  }

  lemma StepServerWrite(c: Cell, op: Op, beyond: seq<byte>)
    requires CellOk(c) && op.Write? && Enabled(c, Done(ServerSide, op, Success, beyond))
    ensures Step(c, Done(ServerSide, op, Success, beyond)) == OnServerWrite(Taken(c, ServerSide, op))
  {
  }

  lemma StepResolve(c: Cell, beyond: seq<byte>)
    requires CellOk(c) && Enabled(c, Done(ClientSide, Resolve, Success, beyond))
    ensures Step(c, Done(ClientSide, Resolve, Success, beyond))
         == c.(client := Start(Finish(c.client, Resolve), Connecting))
  {
  }

  /** The client stream once its connection attempt has come out. */
  function Linked(c: Cell, op: Op, link: Link): (r: Cell)
    requires CellOk(c)
    ensures CellOk(r)
  {
    c.(client := Finish(c.client, op).(link := link))
  }

  lemma StepConnect(c: Cell, beyond: seq<byte>)
    requires CellOk(c) && Enabled(c, Done(ClientSide, Connecting, Success, beyond))
    ensures Step(c, Done(ClientSide, Connecting, Success, beyond)) == OnConnect(Linked(c, Connecting, Connected))
  {
  }

  lemma StepConnectFails(c: Cell, op: Op, ec: ErrorCode, beyond: seq<byte>)
    requires CellOk(c) && (op == Resolve || op == Connecting) && ec != Success
    requires Enabled(c, Done(ClientSide, op, ec, beyond))
    ensures Step(c, Done(ClientSide, op, ec, beyond)) == OnClientError(Linked(c, op, Failed(ec)), ec)
  {
  }

  lemma StepClientRead(c: Cell, n: nat, beyond: seq<byte>)
    requires CellOk(c) && 0 < n <= MAX_BUFFER_SIZE && Enabled(c, Done(ClientSide, Filled(n), Success, beyond))
    ensures Step(c, Done(ClientSide, Filled(n), Success, beyond))
         == OnClientRead(Taken(c, ClientSide, Filled(n)), c.client.readBuffer[..n])
  {
  }

  lemma StepClientWrite(c: Cell, op: Op, beyond: seq<byte>)
    requires CellOk(c) && op.Write? && Enabled(c, Done(ClientSide, op, Success, beyond))
    ensures Step(c, Done(ClientSide, op, Success, beyond)) == OnClientWrite(Taken(c, ClientSide, op))
  {
  }

  /** A completion that ends in an error handler: any failure, and a client read of no bytes. */
  predicate Fails(e: Event) {
    e.Done? && (e.ec != Success || (e.side == ClientSide && e.op == Filled(0)))
  }

  lemma StepServerFails(c: Cell, op: Op, ec: ErrorCode, beyond: seq<byte>)
    requires CellOk(c) && (op.Handshake? || op.Read? || op.Filled? || op.Write?) && ec != Success
    requires Enabled(c, Done(ServerSide, op, ec, beyond))
    ensures Step(c, Done(ServerSide, op, ec, beyond)) == OnServerError(Taken(c, ServerSide, op), ec)
  {
  }

  lemma StepClientFails(c: Cell, op: Op, ec: ErrorCode, beyond: seq<byte>)
    requires CellOk(c) && (op.Read? || op.Filled? || op.Write?) && (ec != Success || op == Filled(0))
    requires Enabled(c, Done(ClientSide, op, ec, beyond))
    ensures Step(c, Done(ClientSide, op, ec, beyond)) == OnClientError(Taken(c, ClientSide, op), ec)
  {
  }

  /** Every server error stops the session. */
  lemma ServerErrorStops(c: Cell, ec: ErrorCode)
    requires LiveOk(c)
    ensures OnServerError(c, ec) == Stop(c)
  {
  }

  /** So does every client error, except while a SOCKS5 session is connecting. */
  lemma ClientErrorStops(c: Cell, ec: ErrorCode)
    requires LiveOk(c) && c.session.value.state != ConnectionEstablished
    ensures OnClientError(c, ec) == Stop(c)
  {
  }

  // ---------- the relaying handlers, alike in both protocols ----------

  predicate Transferring(state: Phase) { state.DataTransferMode? || state.HttpDataTransferMode? }

  predicate TransferOk(c: Cell) {
    LiveOk(c) && Transferring(c.session.value.state)
  }

  lemma TransferServerRead(c: Cell, buffer: seq<byte>, beyond: seq<byte>)
    requires TransferOk(c) && |buffer| <= MAX_BUFFER_SIZE
    ensures var ses := c.session.value;
            OnServerRead(c, buffer, beyond)
              == c.(session := Some(ses.(toRemote := ses.toRemote + |buffer|)),
                    chunks := c.chunks + [buffer],
                    client := DoWrite(c.client, buffer))
  {
    var c' := c.(chunks := c.chunks + [buffer]);
    if c.session.value.state == DataTransferMode {
      assert OnServerRead(c, buffer, beyond) == Socks5State.HandleServerRead(c', buffer, beyond);
    } else {
      assert OnServerRead(c, buffer, beyond) == HttpState.HandleServerRead(c', buffer);
    }
  }

  lemma TransferClientRead(c: Cell, buffer: seq<byte>)
    requires TransferOk(c) && |buffer| <= MAX_BUFFER_SIZE
    ensures var ses := c.session.value;
            OnClientRead(c, buffer)
              == c.(session := Some(ses.(toLocal := ses.toLocal + |buffer|)), server := DoWrite(c.server, buffer))
  {
  }

  lemma TransferWrites(c: Cell)
    requires TransferOk(c)
    ensures OnServerWrite(c) == c.(client := DoRead(c.client))
    ensures OnClientWrite(c) == c.(server := DoRead(c.server))
  {
  }

  // ---------- handlers send nothing themselves ----------

  predicate SameSent(c: Cell, d: Cell) {
    d.server.sent == c.server.sent && d.client.sent == c.client.sent
  }

  lemma Socks5ReadSends(c: Cell, buffer: seq<byte>, beyond: seq<byte>)
    requires LiveOk(c) && |buffer| <= MAX_BUFFER_SIZE
    ensures SameSent(c, Socks5State.HandleServerRead(c, buffer, beyond))
  {
  }

  lemma HttpReadSends(c: Cell, buffer: seq<byte>)
    requires LiveOk(c) && |buffer| <= MAX_BUFFER_SIZE
    ensures SameSent(c, HttpState.HandleServerRead(c, buffer))
  {
  }

  lemma ServerReadSends(c: Cell, buffer: seq<byte>, beyond: seq<byte>)
    requires CellOk(c) && |buffer| <= MAX_BUFFER_SIZE
    ensures SameSent(c, OnServerRead(c, buffer, beyond))
  {
    if Live(c) {
      var c' := c.(chunks := c.chunks + [buffer]);
      if IsHttp(c.session.value.state) {
        HttpReadSends(c', buffer);
      } else {
        Socks5ReadSends(c', buffer, beyond);
      }
    }
  }

  lemma ClientReadSends(c: Cell, buffer: seq<byte>)
    requires CellOk(c) && |buffer| <= MAX_BUFFER_SIZE
    ensures SameSent(c, OnClientRead(c, buffer))
  {
  }

  lemma ServerWriteSends(c: Cell)
    requires CellOk(c)
    ensures SameSent(c, OnServerWrite(c))
  {
  }

  lemma ClientWriteSends(c: Cell)
    requires CellOk(c)
    ensures SameSent(c, OnClientWrite(c))
  {
  }

  lemma ConnectSends(c: Cell)
    requires CellOk(c)
    ensures SameSent(c, OnConnect(c))
  {
  }

  lemma ErrorsSend(c: Cell, ec: ErrorCode)
    requires CellOk(c)
    ensures SameSent(c, OnServerError(c, ec)) && SameSent(c, OnClientError(c, ec))
  {
  }

  lemma ServerDoneSends(c: Cell, op: Op, ec: ErrorCode, beyond: seq<byte>)
    requires CellOk(c) && OpOk(op)
    ensures SameSent(c, ServerDone(c, op, ec, beyond))
  {
    if ec != Success {
      ErrorsSend(c, ec);
    } else if op.Filled? {
      ServerReadSends(c, c.server.readBuffer[..op.n], beyond);
    } else if op.Write? {
      ServerWriteSends(c);
    } else {
      ErrorsSend(c, ec);
    }
  }

  lemma AttemptSends(c: Cell, op: Op, ec: ErrorCode)
    requires CellOk(c) && (op == Resolve || op == Connecting)
    ensures SameSent(c, ClientDone(c, op, ec))
  {
    if ec == Success {
      ConnectSends(c.(client := c.client.(link := Connected)));
    } else {
      ErrorsSend(c.(client := c.client.(link := Failed(ec))), ec);
    }
  }

  lemma ClientDoneSends(c: Cell, op: Op, ec: ErrorCode)
    requires CellOk(c) && OpOk(op)
    ensures SameSent(c, ClientDone(c, op, ec))
  {
    if op == Resolve || op == Connecting {
      AttemptSends(c, op, ec);
    } else if ec == Success && op.Filled? && op.n > 0 {
      ClientReadSends(c, c.client.readBuffer[..op.n]);
    } else if ec == Success && op.Write? {
      ClientWriteSends(c);
    } else {
      ErrorsSend(c, ec);
    }
  }

  /** Bytes leave when the kernel takes them, never in a handler. */
  lemma HandlersSendNothing(c: Cell, e: Event)
    requires CellOk(c) && Enabled(c, e) && e.Done?
    ensures SameSent(c, Step(c, e))
  {
    if e.side == ServerSide {
      ServerDoneSends(Taken(c, ServerSide, e.op), e.op, e.ec, e.beyond);
    } else {
      ClientDoneSends(Taken(c, ClientSide, e.op), e.op, e.ec);
    }
  }
}
