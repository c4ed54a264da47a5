/** What every run of a SOCKS5 connection keeps, whatever the peers send and whichever
    operation completes next. */
module Socks5Runs {
  import opened Basics
  import opened Transport
  import opened Sessions
  import opened Engine
  import opened Channel
  import opened Dispatch
  import opened Closing
  import opened Relay
  import opened Handshake
  import opened Progress
  import Socks5
  import Socks5State

  // ---------- what a connection has to say ----------

  /** The answer to the method-selection chunk. */
  function AuthReply(chunk: seq<byte>): seq<byte> {
    [Socks5.VERSION, if Socks5.OffersNoAuth(chunk) then Socks5.NO_AUTH else Socks5.NOT_SUPPORTED]
  }

  function ReplyCode(link: Link): byte {
    match link
    case Failed(ec) => Socks5State.ResponseErrorCode(ec)
    case _ => 0
  }

  /** The answer to the request chunk: the whole chunk with its second byte replaced. */
  function Reply(request: seq<byte>, link: Link): (r: seq<byte>)
    ensures |r| == |request|
  {
    if |request| < 2 then request else request[1 := ReplyCode(link)]
  }

  /** The answers of the handshake that are due so far. */
  function Answers(c: Cell): seq<byte> {
    (if |c.chunks| >= 1 then AuthReply(c.chunks[0]) else [])
    + (if |c.chunks| >= 2 && c.client.link != Unconnected then Reply(c.chunks[1], c.client.link) else [])
  }

  /** All that the server stream may ever send: the answers, then what the remote host sends. */
  function ServerScript(c: Cell): seq<byte> {
    Answers(c) + (if c.client.link == Connected then c.client.received else [])
  }

  /** All that the client stream may ever send: what was read after the request chunk. */
  function ClientScript(c: Cell): seq<byte> {
    if |c.chunks| >= 2 then Flatten(c.chunks[2..]) else []
  }

  // ---------- the states ----------

  predicate AuthInv(c: Cell, t: Token)
    requires CellOk(c)
  {
    && In(c, AuthRequest) && c.chunks == [] && c.client.link == Unconnected
    && Greeting(c, t, []) && !t.Writing?
  }

  predicate RequestInv(c: Cell, t: Token)
    requires CellOk(c)
  {
    && In(c, ConnectionRequest) && |c.chunks| == 1 && c.client.link == Unconnected
    && Greeting(c, t, AuthReply(c.chunks[0])) && !t.Shaking?
  }

  /** The stored packet keeps the shape that was checked. */
  predicate Requested(c: Cell) {
    |c.chunks| == 2 && Socks5.IsValidRequestPacket(c.chunks[1])
  }

  predicate DialInv(c: Cell)
    requires CellOk(c)
  {
    && In(c, ConnectionEstablished) && Requested(c)
    && c.session.value.response == c.chunks[1]
    && Dialing(c, AuthReply(c.chunks[0]))
  }

  predicate RefusalInv(c: Cell, t: Token)
    requires CellOk(c)
  {
    && In(c, ConnectionEstablished) && Requested(c) && c.client.link.Failed?
    && c.session.value.response == Reply(c.chunks[1], c.client.link)
    && Greeting(c, t, Answers(c)) && t.Writing?
  }

  predicate ReadyInv(c: Cell, t: Token)
    requires CellOk(c)
  {
    && In(c, ReadyToTransferData) && Requested(c) && c.client.link == Connected
    && c.session.value.response == Reply(c.chunks[1], Connected)
    && Greeting(c, t, Answers(c)) && t.Writing?
  }

  predicate RelayInv(c: Cell, up: Lane, down: Lane)
    requires CellOk(c)
  {
    In(c, DataTransferMode) && Relaying(c, up, down, 2) && down.greeting == Answers(c)
    && Socks5.IsValidRequestPacket(c.chunks[1])
  }

  /** Once closed: nothing was relayed unless the attempt succeeded and its answer had left. */
  predicate ClosedInv(c: Cell)
    requires CellOk(c)
  {
    && Flushing(c, ServerScript(c), ClientScript(c)) && CellWeight(c) <= 3
    && (|c.chunks| > 2 ==> c.client.link == Connected && Answers(c) <= c.server.sent)
    && (c.client.link != Unconnected ==> |c.chunks| >= 2 && Socks5.IsValidRequestPacket(c.chunks[1]))
    && ReadInOrder(c)
  }

  ghost predicate Socks5Inv(c: Cell)
    requires CellOk(c)
  {
    || (!Live(c) && ClosedInv(c))
    || (exists t :: AuthInv(c, t))
    || (exists t :: RequestInv(c, t))
    || DialInv(c)
    || (exists t :: RefusalInv(c, t))
    || (exists t :: ReadyInv(c, t))
    || (exists up, down :: RelayInv(c, up, down))
  }

  // ---------- the handlers as explicit changes ----------

  lemma AuthReads(c: Cell, buffer: seq<byte>, beyond: seq<byte>)
    requires CellOk(c) && In(c, AuthRequest) && |buffer| <= MAX_BUFFER_SIZE
    ensures OnServerRead(c, buffer, beyond)
         == c.(session := Some(c.session.value.(response := AuthReply(buffer), state := ConnectionRequest)),
               chunks := c.chunks + [buffer],
               server := DoWrite(c.server, AuthReply(buffer)))
  {
    assert OnServerRead(c, buffer, beyond)
        == Socks5State.AuthRequestServerRead(c.(chunks := c.chunks + [buffer]), buffer);
  }

  function Asked(ses: Session, buffer: seq<byte>, to: Endpoint): Session {
    ses.(host := to.host, service := to.service, response := buffer, state := ConnectionEstablished)
  }

  lemma RequestReads(c: Cell, buffer: seq<byte>, beyond: seq<byte>)
    requires CellOk(c) && In(c, ConnectionRequest) && |buffer| <= MAX_BUFFER_SIZE
    ensures var c1, to := c.(chunks := c.chunks + [buffer]), Socks5.RemoteAddress(buffer, beyond);
            OnServerRead(c, buffer, beyond)
              == if Socks5.IsValidRequestPacket(buffer) && to.Some? then
                   c1.(session := Some(Asked(c.session.value, buffer, to.value)),
                       client := DoStart(c.client.(host := to.value.host, service := to.value.service)))
                 else Stop(c1)
  {
    assert OnServerRead(c, buffer, beyond)
        == Socks5State.ConnectionRequestServerRead(c.(chunks := c.chunks + [buffer]), buffer, beyond);
  }

  lemma EstablishedConnects(c: Cell)
    requires CellOk(c) && In(c, ConnectionEstablished)
    ensures var reply := c.session.value.response[1 := 0];
            OnConnect(c) == c.(session := Some(c.session.value.(response := reply, state := ReadyToTransferData)),
                               server := DoWrite(c.server, reply))
  {
  }

  lemma EstablishedFails(c: Cell, ec: ErrorCode)
    requires CellOk(c) && In(c, ConnectionEstablished)
    ensures var reply := c.session.value.response[1 := Socks5State.ResponseErrorCode(ec)];
            OnClientError(c, ec) == c.(session := Some(c.session.value.(response := reply)),
                                       server := DoWrite(c.server, reply))
  {
  }

  lemma WritesAreDone(c: Cell)
    requires CellOk(c) && Live(c)
    ensures In(c, ConnectionRequest) ==> OnServerWrite(c) == c.(server := DoRead(c.server))
    ensures In(c, ConnectionEstablished) ==> OnServerWrite(c) == Stop(c)
    ensures In(c, ReadyToTransferData) ==>
              OnServerWrite(c) == ChangeState(ReadClient(ReadServer(c)), DataTransferMode)
  {
  }

  // ---------- one step from each state ----------

  /** Closing during the handshake, with nothing left to relay. */
  lemma ClosedEarly(c: Cell, c': Cell)
    requires CellOk(c') && |c.chunks| <= 2 && Untouched(c'.client)
    requires c.client.link != Unconnected ==> Requested(c)
    requires c'.chunks == c.chunks && c'.client.link == c.client.link
    requires Flushing(c', Answers(c), []) && CellWeight(c') <= 3 && ReadInOrder(c')
    ensures ClosedInv(c')
  {
    assert Answers(c) + [] == Answers(c);
    assert |c.chunks| == 2 ==> c.chunks[2..] == [];
  }

  /** A failure during the handshake closes the session on its script. */
  lemma GreetingCloses(c: Cell, t: Token, e: Event)
    requires CellOk(c) && Greeting(c, t, Answers(c)) && |c.chunks| <= 2
    requires c.client.link != Unconnected ==> Requested(c)
    requires Enabled(c, e) && Fails(e)
    ensures !Live(Step(c, e)) && ClosedInv(Step(c, e))
  {
    GreetingFails(c, t, Answers(c), e);
    GreetingReads(c, t, Answers(c));
    TakenReads(c, ServerSide, e.op);
    StopReads(Taken(c, ServerSide, e.op));
    ClosedEarly(c, Stop(Taken(c, ServerSide, e.op)));
  }

  lemma QuietCloses(c: Cell)
    requires CellOk(c) && Quiet(c, Answers(c)) && |c.chunks| <= 2
    requires c.client.link != Unconnected ==> Requested(c)
    ensures !Live(Stop(c)) && ClosedInv(Stop(c))
  {
    QuietStops(c, Answers(c));
    QuietReads(c, Answers(c));
    StopReads(c);
    ClosedEarly(c, Stop(c));
  }

  /** The invariant and the rank, once the next state is known. */
  lemma Closes(c: Cell, e: Event, c': Cell)
    requires CellOk(c') && Rank(c) > 0 && !Live(c') && ClosedInv(c')
    requires Callback(e)
    ensures Socks5Inv(c') && Progresses(c, e, c')
  {
  }

  lemma StaysInAuth(c: Cell, e: Event, c': Cell, t: Token)
    requires CellOk(c) && In(c, AuthRequest) && CellOk(c') && AuthInv(c', t) && !Callback(e)
    ensures Socks5Inv(c') && Progresses(c, e, c')
  {
  }

  lemma EntersRequest(c: Cell, e: Event, c': Cell, t: Token)
    requires CellOk(c) && In(c, AuthRequest) && CellOk(c') && RequestInv(c', t) && Callback(e)
    ensures Socks5Inv(c') && Progresses(c, e, c')
  {
  }

  lemma StaysInRequest(c: Cell, e: Event, c': Cell, t: Token, t': Token)
    requires CellOk(c) && RequestInv(c, t) && CellOk(c') && RequestInv(c', t')
    requires if Callback(e) then t.Writing? && !t'.Writing? else t.Writing? == t'.Writing?
    ensures Socks5Inv(c') && Progresses(c, e, c')
  {
    RequestRank(c, t);
    RequestRank(c', t');
  }

  lemma RequestRank(c: Cell, t: Token)
    requires CellOk(c) && RequestInv(c, t)
    ensures Rank(c) == if t.Writing? then 4 else 3
  {
    if t.Writing? {
      assert Write(t.len, t.sent) in c.server.pending;
    }
  }

  lemma EntersDial(c: Cell, e: Event, c': Cell)
    requires CellOk(c) && Rank(c) > 2 && CellOk(c') && DialInv(c') && Callback(e)
    ensures Socks5Inv(c') && Progresses(c, e, c')
  {
  }

  lemma StaysInRefusal(c: Cell, e: Event, c': Cell, t: Token)
    requires CellOk(c) && CellOk(c') && RefusalInv(c', t)
    requires if Callback(e) then Rank(c) > 1 else Rank(c) == 1
    ensures Socks5Inv(c') && Progresses(c, e, c')
  {
  }

  lemma StaysInReady(c: Cell, e: Event, c': Cell, t: Token)
    requires CellOk(c) && CellOk(c') && ReadyInv(c', t)
    requires if Callback(e) then Rank(c) > 1 else Rank(c) == 1
    ensures Socks5Inv(c') && Progresses(c, e, c')
  {
  }

  lemma EntersRelay(c: Cell, e: Event, c': Cell, up: Lane, down: Lane)
    requires CellOk(c) && Rank(c) > 0 && CellOk(c') && RelayInv(c', up, down) && Callback(e)
    ensures Socks5Inv(c') && Progresses(c, e, c')
  {
  }

  lemma AuthTurns(c: Cell, n: nat, beyond: seq<byte>)
    requires CellOk(c) && AuthInv(c, Loaded(n)) && Filled(n) in c.server.pending
    ensures RequestInv(Step(c, Done(ServerSide, Filled(n), Success, beyond)), Writing(2, 0))
    ensures Step(c, Done(ServerSide, Filled(n), Success, beyond)).chunks == [c.server.readBuffer[..n]]
  {
    var chunk := c.server.readBuffer[..n];
    var c1 := Taken(c, ServerSide, Filled(n));
    StepServerRead(c, n, beyond);
    AuthReads(c1, chunk, beyond);
    GreetingTurns(c, n, []);
    var q := c1.(session := Some(c.session.value.(response := AuthReply(chunk), state := ConnectionRequest)),
                 chunks := c.chunks + [chunk]);
    QuietWrite(q, [], AuthReply(chunk));
    assert [] + AuthReply(chunk) == AuthReply(chunk);
  }

  lemma AuthKernel(c: Cell, t: Token, e: Event) returns (t': Token)
    requires CellOk(c) && AuthInv(c, t) && Enabled(c, e) && !e.Done?
    ensures AuthInv(Step(c, e), t')
  {
    t' := GreetingKernel(c, t, [], e);
  }

  lemma AuthShakes(c: Cell, beyond: seq<byte>)
    requires CellOk(c) && AuthInv(c, Shaking) && Handshake in c.server.pending
    ensures AuthInv(Step(c, Done(ServerSide, Handshake, Success, beyond)), Reading)
  {
    StepHandshake(c, beyond);
    GreetingShakes(c, []);
  }

  lemma AuthRank(c: Cell, t: Token)
    requires CellOk(c) && AuthInv(c, t)
    ensures Rank(c) == 5
  {
  }

  lemma AuthGivesUp(c: Cell, t: Token, e: Event)
    requires CellOk(c) && AuthInv(c, t) && Enabled(c, e) && Fails(e)
    ensures Socks5Inv(Step(c, e)) && Progresses(c, e, Step(c, e))
  {
    AuthRank(c, t);
    GreetingCloses(c, t, e);
    Closes(c, e, Step(c, e));
  }

  lemma AuthMoves(c: Cell, t: Token, e: Event)
    requires CellOk(c) && AuthInv(c, t) && Enabled(c, e) && !e.Done?
    ensures Socks5Inv(Step(c, e)) && Progresses(c, e, Step(c, e))
  {
    var t' := AuthKernel(c, t, e);
    StaysInAuth(c, e, Step(c, e), t');
  }

  lemma AuthDone(c: Cell, t: Token, e: Event)
    requires CellOk(c) && AuthInv(c, t) && Enabled(c, e) && e.Done? && !Fails(e)
    ensures Socks5Inv(Step(c, e)) && Progresses(c, e, Step(c, e))
  {
    GreetingDone(c, t, [], e);
    if t == Shaking {
      AuthShakes(c, e.beyond);
      StaysInAuth(c, e, Step(c, e), Reading);
    } else {
      AuthTurns(c, t.n, e.beyond);
      EntersRequest(c, e, Step(c, e), Writing(2, 0));
    }
  }

  lemma AuthStep(c: Cell, t: Token, e: Event)
    requires CellOk(c) && AuthInv(c, t) && Enabled(c, e)
    ensures Socks5Inv(Step(c, e)) && Progresses(c, e, Step(c, e))
  {
    if !e.Done? {
      AuthMoves(c, t, e);
    } else if Fails(e) {
      AuthGivesUp(c, t, e);
    } else {
      AuthDone(c, t, e);
    }
  }

  lemma AnswersOfOne(c: Cell)
    requires |c.chunks| == 1 && c.client.link == Unconnected
    ensures Answers(c) == AuthReply(c.chunks[0])
  {
  }

  lemma RequestRecorded(c: Cell, n: nat)
    requires CellOk(c) && RequestInv(c, Loaded(n))
    ensures var q := Recorded(c, n);
            && Quiet(q, AuthReply(c.chunks[0])) && Answers(q) == AuthReply(c.chunks[0])
            && In(q, ConnectionRequest) && |q.chunks| == 2 && q.chunks[0] == c.chunks[0]
            && q.client.link == Unconnected
  {
    GreetingTurns(c, n, AuthReply(c.chunks[0]));
  }

  lemma RequestDials(q: Cell, script: seq<byte>, to: Endpoint)
    requires CellOk(q) && Quiet(q, script) && q.client.link == Unconnected
    requires Requested(q) && script == AuthReply(q.chunks[0]) && |q.chunks[1]| <= MAX_BUFFER_SIZE
    ensures var c' := q.(session := Some(Asked(q.session.value, q.chunks[1], to)),
                         client := DoStart(q.client.(host := to.host, service := to.service)));
            && CellOk(c') && DialInv(c') && c'.client.pending == multiset{Resolve}
            && AimsAt(c', to)
  {
    var q1 := q.(session := Some(Asked(q.session.value, q.chunks[1], to)));
    QuietDial(q1, script, to.host, to.service);
  }

  /** A request that is accepted starts the attempt, on the address that was decoded. */
  lemma RequestTurns(c: Cell, n: nat, beyond: seq<byte>)
    requires CellOk(c) && RequestInv(c, Loaded(n)) && Filled(n) in c.server.pending
    ensures var chunk, c' := c.server.readBuffer[..n], Step(c, Done(ServerSide, Filled(n), Success, beyond));
            if Socks5.Accepts(chunk, beyond) then
              && DialInv(c') && c'.client.pending == multiset{Resolve} && c'.chunks == c.chunks + [chunk]
              && AimsAt(c', Socks5.RemoteAddress(chunk, beyond).value)
            else !Live(c') && ClosedInv(c')
  {
    var chunk, q := c.server.readBuffer[..n], Recorded(c, n);
    StepServerRead(c, n, beyond);
    RequestReads(Taken(c, ServerSide, Filled(n)), chunk, beyond);
    RequestRecorded(c, n);
    if Socks5.Accepts(chunk, beyond) {
      RequestDials(q, AuthReply(c.chunks[0]), Socks5.RemoteAddress(chunk, beyond).value);
    } else {
      QuietCloses(q);
    }
  }

  /** The answer is out: the request is read next. */
  lemma RestShape(c: Cell, len: nat, beyond: seq<byte>)
    requires CellOk(c) && RequestInv(c, Writing(len, len)) && Write(len, len) in c.server.pending
    ensures var c1 := Taken(c, ServerSide, Write(len, len));
            Step(c, Done(ServerSide, Write(len, len), Success, beyond)) == c1.(server := DoRead(c1.server))
  {
    StepServerWrite(c, Write(len, len), beyond);
    WritesAreDone(Taken(c, ServerSide, Write(len, len)));
  }

  lemma RequestRests(c: Cell, len: nat, beyond: seq<byte>)
    requires CellOk(c) && RequestInv(c, Writing(len, len)) && Write(len, len) in c.server.pending
    ensures var c' := Step(c, Done(ServerSide, Write(len, len), Success, beyond));
            RequestInv(c', Reading) && c'.chunks == c.chunks
  {
    RestShape(c, len, beyond);
    GreetingRests(c, len, AuthReply(c.chunks[0]));
    QuietRead(Taken(c, ServerSide, Write(len, len)), AuthReply(c.chunks[0]));
  }

  lemma RequestKernel(c: Cell, t: Token, e: Event) returns (t': Token)
    requires CellOk(c) && RequestInv(c, t) && Enabled(c, e) && !e.Done?
    ensures RequestInv(Step(c, e), t') && t'.Writing? == t.Writing?
  {
    t' := GreetingKernel(c, t, AuthReply(c.chunks[0]), e);
  }

  lemma RequestDone(c: Cell, t: Token, e: Event)
    requires CellOk(c) && RequestInv(c, t) && Enabled(c, e) && e.Done? && !Fails(e)
    ensures Socks5Inv(Step(c, e)) && Progresses(c, e, Step(c, e))
  {
    GreetingDone(c, t, AuthReply(c.chunks[0]), e);
    if t.Loaded? {
      RequestRank(c, t);
      RequestTurns(c, t.n, e.beyond);
      if Live(Step(c, e)) {
        EntersDial(c, e, Step(c, e));
      } else {
        Closes(c, e, Step(c, e));
      }
    } else {
      RequestRests(c, t.len, e.beyond);
      StaysInRequest(c, e, Step(c, e), t, Reading);
    }
  }

  lemma RequestStep(c: Cell, t: Token, e: Event)
    requires CellOk(c) && RequestInv(c, t) && Enabled(c, e)
    ensures Socks5Inv(Step(c, e)) && Progresses(c, e, Step(c, e))
  {
    if !e.Done? {
      var t' := RequestKernel(c, t, e);
      StaysInRequest(c, e, Step(c, e), t, t');
    } else if Fails(e) {
      AnswersOfOne(c);
      RequestRank(c, t);
      GreetingCloses(c, t, e);
      Closes(c, e, Step(c, e));
    } else {
      RequestDone(c, t, e);
    }
  }

  lemma DialConnects(c: Cell, beyond: seq<byte>)
    requires CellOk(c) && DialInv(c) && Connecting in c.client.pending
    ensures ReadyInv(Step(c, Done(ClientSide, Connecting, Success, beyond)), Writing(|c.chunks[1]|, 0))
  {
    var script, reply := AuthReply(c.chunks[0]), Reply(c.chunks[1], Connected);
    var c1 := Linked(c, Connecting, Connected);
    StepConnect(c, beyond);
    DialingEnds(c, script, Connecting, Connected);
    EstablishedConnects(c1);
    var q := c1.(session := Some(c.session.value.(response := reply, state := ReadyToTransferData)));
    QuietWrite(q, script, reply);
  }

  lemma ConnectKeeps(c: Cell, beyond: seq<byte>)
    requires CellOk(c) && DialInv(c) && Connecting in c.client.pending
    ensures Step(c, Done(ClientSide, Connecting, Success, beyond)).chunks == c.chunks
  {
    StepConnect(c, beyond);
    EstablishedConnects(Linked(c, Connecting, Connected));
  }

  lemma FailShape(c: Cell, op: Op, ec: ErrorCode, beyond: seq<byte>)
    requires CellOk(c) && DialInv(c) && op in c.client.pending && ec != Success
    ensures var c1, reply := Linked(c, op, Failed(ec)), Reply(c.chunks[1], Failed(ec));
            Step(c, Done(ClientSide, op, ec, beyond))
              == c1.(session := Some(c.session.value.(response := reply)), server := DoWrite(c1.server, reply))
  {
    StepConnectFails(c, op, ec, beyond);
    EstablishedFails(Linked(c, op, Failed(ec)), ec);
  }

  lemma DialFails(c: Cell, op: Op, ec: ErrorCode, beyond: seq<byte>)
    requires CellOk(c) && DialInv(c) && op in c.client.pending && ec != Success
    ensures RefusalInv(Step(c, Done(ClientSide, op, ec, beyond)), Writing(|c.chunks[1]|, 0))
  {
    var script, link := AuthReply(c.chunks[0]), Failed(ec);
    var reply, c1 := Reply(c.chunks[1], link), Linked(c, op, link);
    FailShape(c, op, ec, beyond);
    DialingEnds(c, script, op, link);
    var q := c1.(session := Some(c.session.value.(response := reply)));
    QuietWrite(q, script, reply);
  }

  lemma FailureKeeps(c: Cell, op: Op, ec: ErrorCode, beyond: seq<byte>)
    requires CellOk(c) && DialInv(c) && op in c.client.pending && ec != Success
    ensures var d := Step(c, Done(ClientSide, op, ec, beyond)); d.chunks == c.chunks && d.client.link == Failed(ec)
  {
    StepConnectFails(c, op, ec, beyond);
    EstablishedFails(Linked(c, op, Failed(ec)), ec);
  }

  lemma DialRank(c: Cell)
    requires CellOk(c) && DialInv(c)
    ensures Rank(c) == 2
  {
  }

  lemma DialGivesUp(c: Cell, op: Op, ec: ErrorCode, beyond: seq<byte>)
    requires CellOk(c) && DialInv(c) && Enabled(c, Done(ClientSide, op, ec, beyond)) && ec != Success
    ensures var e := Done(ClientSide, op, ec, beyond); Socks5Inv(Step(c, e)) && Progresses(c, e, Step(c, e))
  {
    var e := Done(ClientSide, op, ec, beyond);
    DialFails(c, op, ec, beyond);
    StaysInRefusal(c, e, Step(c, e), Writing(|c.chunks[1]|, 0));
  }

  lemma DialSucceeds(c: Cell, beyond: seq<byte>)
    requires CellOk(c) && DialInv(c) && Enabled(c, Done(ClientSide, Connecting, Success, beyond))
    ensures var e := Done(ClientSide, Connecting, Success, beyond);
            Socks5Inv(Step(c, e)) && Progresses(c, e, Step(c, e))
  {
    var e := Done(ClientSide, Connecting, Success, beyond);
    DialConnects(c, beyond);
    StaysInReady(c, e, Step(c, e), Writing(|c.chunks[1]|, 0));
  }

  lemma DialStep(c: Cell, e: Event)
    requires CellOk(c) && DialInv(c) && Enabled(c, e)
    ensures Socks5Inv(Step(c, e)) && Progresses(c, e, Step(c, e))
  {
    DialRank(c);
    DialingEnables(c, AuthReply(c.chunks[0]), e);
    if e.ec != Success {
      DialGivesUp(c, e.op, e.ec, e.beyond);
    } else if e.op == Resolve {
      DialingResolves(c, AuthReply(c.chunks[0]), e.beyond);
    } else {
      DialSucceeds(c, e.beyond);
    }
  }

  lemma RefusalKernel(c: Cell, t: Token, e: Event) returns (t': Token)
    requires CellOk(c) && RefusalInv(c, t) && Enabled(c, e) && !e.Done?
    ensures RefusalInv(Step(c, e), t')
  {
    t' := GreetingKernel(c, t, Answers(c), e);
  }

  lemma RefusalStep(c: Cell, t: Token, e: Event)
    requires CellOk(c) && RefusalInv(c, t) && Enabled(c, e)
    ensures Socks5Inv(Step(c, e)) && Progresses(c, e, Step(c, e))
  {
    if !e.Done? {
      var t' := RefusalKernel(c, t, e);
      StaysInRefusal(c, e, Step(c, e), t');
    } else {
      GreetingDone(c, t, Answers(c), e);
      if Fails(e) {
        GreetingCloses(c, t, e);
      } else {
        RefusalRests(c, t.len, e.beyond);
      }
      Closes(c, e, Step(c, e));
    }
  }

  /** After a refusal has been sent the session is closed. */
  lemma RefusalRests(c: Cell, len: nat, beyond: seq<byte>)
    requires CellOk(c) && RefusalInv(c, Writing(len, len)) && Write(len, len) in c.server.pending
    ensures var c' := Step(c, Done(ServerSide, Write(len, len), Success, beyond));
            !Live(c') && ClosedInv(c')
  {
    var c1 := Taken(c, ServerSide, Write(len, len));
    StepServerWrite(c, Write(len, len), beyond);
    WritesAreDone(c1);
    GreetingRests(c, len, Answers(c));
    QuietCloses(c1);
  }

  lemma ReadyRests(c: Cell, len: nat, beyond: seq<byte>) returns (up: Lane, down: Lane)
    requires CellOk(c) && ReadyInv(c, Writing(len, len)) && Write(len, len) in c.server.pending
    ensures RelayInv(Step(c, Done(ServerSide, Write(len, len), Success, beyond)), up, down)
    ensures up == Lane(Reading, Flatten(c.chunks), []) && down == Lane(Reading, [], Answers(c))
    ensures Untouched(Step(c, Done(ServerSide, Write(len, len), Success, beyond)).client)
  {
    var c1 := Taken(c, ServerSide, Write(len, len));
    StepServerWrite(c, Write(len, len), beyond);
    WritesAreDone(c1);
    GreetingRests(c, len, Answers(c));
    QuietRelay(c1, Answers(c), DataTransferMode);
    up, down := Lane(Reading, Flatten(c.chunks), []), Lane(Reading, [], Answers(c));
  }

  lemma ReadyKernel(c: Cell, t: Token, e: Event) returns (t': Token)
    requires CellOk(c) && ReadyInv(c, t) && Enabled(c, e) && !e.Done?
    ensures ReadyInv(Step(c, e), t')
  {
    t' := GreetingKernel(c, t, Answers(c), e);
  }

  lemma ReadyEnds(c: Cell, t: Token, e: Event)
    requires CellOk(c) && ReadyInv(c, t) && Enabled(c, e) && e.Done? && !Fails(e)
    ensures Socks5Inv(Step(c, e)) && Progresses(c, e, Step(c, e))
  {
    GreetingDone(c, t, Answers(c), e);
    var up, down := ReadyRests(c, t.len, e.beyond);
    assert e == Done(ServerSide, Write(t.len, t.len), Success, e.beyond);
    EntersRelay(c, e, Step(c, e), up, down);
  }

  lemma ReadyRank(c: Cell, t: Token)
    requires CellOk(c) && ReadyInv(c, t)
    ensures Rank(c) == 1
  {
  }

  lemma ReadyMoves(c: Cell, t: Token, e: Event)
    requires CellOk(c) && ReadyInv(c, t) && Enabled(c, e) && !e.Done?
    ensures Socks5Inv(Step(c, e)) && Progresses(c, e, Step(c, e))
  {
    ReadyRank(c, t);
    var t' := ReadyKernel(c, t, e);
    StaysInReady(c, e, Step(c, e), t');
  }

  lemma ReadyGivesUp(c: Cell, t: Token, e: Event)
    requires CellOk(c) && ReadyInv(c, t) && Enabled(c, e) && Fails(e)
    ensures Socks5Inv(Step(c, e)) && Progresses(c, e, Step(c, e))
  {
    ReadyRank(c, t);
    GreetingCloses(c, t, e);
    Closes(c, e, Step(c, e));
  }

  lemma ReadyStep(c: Cell, t: Token, e: Event)
    requires CellOk(c) && ReadyInv(c, t) && Enabled(c, e)
    ensures Socks5Inv(Step(c, e)) && Progresses(c, e, Step(c, e))
  {
    if !e.Done? {
      ReadyMoves(c, t, e);
    } else if Fails(e) {
      ReadyGivesUp(c, t, e);
    } else {
      ReadyEnds(c, t, e);
    }
  }
}
