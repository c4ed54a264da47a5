/** The whole-run properties of HTTP connections. */
module HttpTheorems {
  import opened Basics
  import opened Transport
  import opened Sessions
  import opened Engine
  import opened Channel
  import opened Duplex
  import opened Dispatch
  import opened Closing
  import opened Relay
  import opened Handshake
  import opened Progress
  import opened HttpRuns
  import HttpHead
  import HttpState

  // ---------- relaying ----------

  lemma RelaySendsDown(c: Cell, up: Lane, down: Lane)
    requires CellOk(c) && RelayInv(c, up, down)
    ensures Sending(c.server, ServerScript(c))
  {
    var back := Consumed(c.client, down.token);
    assert back[0..] == back;
    PlacedSends(c.server, up.token, down.token, down.greeting + back);
    SendingGrows(c.server, down.greeting + back, ServerScript(c));
  }

  lemma RelaySendsUp(c: Cell, up: Lane, down: Lane)
    requires CellOk(c) && RelayInv(c, up, down)
    ensures Sending(c.client, ClientScript(c))
    ensures Resolve !in c.client.pending && Connecting !in c.client.pending
  {
    FlattenConcat(c.chunks[..1], c.chunks[1..]);
    assert c.chunks[..1] + c.chunks[1..] == c.chunks;
    assert [] + ClientScript(c) == ClientScript(c);
    PlacedSends(c.client, down.token, up.token, ClientScript(c));
  }

  lemma RelayCloses(c: Cell, up: Lane, down: Lane, e: Event)
    requires CellOk(c) && RelayInv(c, up, down) && Enabled(c, e) && Fails(e)
    ensures !Live(Step(c, e)) && ClosedInv(Step(c, e))
  {
    FailureCloses(c, up, down, 1, e);
    RelaySendsDown(c, up, down);
    RelaySendsUp(c, up, down);
    RelayWeight(c, up, down, 1);
    TakenWeight(c, e.side, e.op);
    RelayingReads(c, up, down, 1);
    StopCloses(c, e.side, e.op);
  }

  lemma StopCloses(c: Cell, side: Side, op: Op)
    requires LiveOk(c) && IsConnect(c)
    requires c.client.link == Connected && HttpState.DoneReply() <= c.server.sent
    requires Sending(c.server, ServerScript(c)) && Sending(c.client, ClientScript(c))
    requires Resolve !in c.client.pending && Connecting !in c.client.pending
    requires CellWeight(Taken(c, side, op)) <= 1 && ReadInOrder(c)
    ensures ClosedInv(Stop(Taken(c, side, op)))
  {
    TakenReads(c, side, op);
    StopReads(Taken(c, side, op));
    StopWeight(Taken(c, side, op));
    TakenFlushes(c, side, op, ServerScript(c), ClientScript(c));
  }

  lemma RelayedStep(c: Cell, up: Lane, down: Lane, e: Event) returns (up': Lane, down': Lane)
    requires CellOk(c) && RelayInv(c, up, down) && Enabled(c, e)
    ensures if Fails(e) then !Live(Step(c, e)) && ClosedInv(Step(c, e))
            else RelayInv(Step(c, e), up', down') && RelayMoves(c, up, down, 1, Step(c, e), up', down')
  {
    up', down' := RelayStep(c, up, down, 1, e);
    if Fails(e) {
      RelayCloses(c, up, down, e);
    } else {
      RelayContinues(c, up, down, Step(c, e), up', down');
    }
  }

  lemma RelayContinues(c: Cell, up: Lane, down: Lane, c': Cell, up': Lane, down': Lane)
    requires CellOk(c) && RelayInv(c, up, down) && CellOk(c')
    requires RelayMoves(c, up, down, 1, c', up', down')
    ensures RelayInv(c', up', down')
  {
    assert c'.chunks[0] == c.chunks[0];
  }

  // ---------- closed ----------

  lemma ClosedStep(c: Cell, e: Event)
    requires CellOk(c) && !Live(c) && ClosedInv(c) && Enabled(c, e)
    ensures !Live(Step(c, e)) && ClosedInv(Step(c, e))
  {
    ClosedWindsDown(c, e);
    FlushStep(c, ServerScript(c), ClientScript(c), e);
    ClosedKeeps(c, Step(c, e));
  }

  lemma ClosedKeeps(c: Cell, c': Cell)
    requires CellOk(c) && !Live(c) && ClosedInv(c) && CellOk(c') && CellWeight(c') <= CellWeight(c)
    requires Flushing(c', ServerScript(c), ClientScript(c)) && OnlyStreamsMove(c, c')
    ensures ClosedInv(c')
  {
    assert ServerScript(c) <= ServerScript(c');
    SendingGrows(c'.server, ServerScript(c), ServerScript(c'));
  }

  // ---------- sessions of other methods ----------

  /** The client stream of such a session, and the server stream, under each event. */
  lemma PlainArrives(c: Cell, bytes: seq<byte>)
    requires CellOk(c) && OneWay(c) && Enabled(c, Arrive(ServerSide, bytes))
    ensures var c' := Step(c, Arrive(ServerSide, bytes));
            OneWay(c') && c' == c.(server := c'.server) && c.server.pending != multiset{}
  {
    var c' := c.(server := Fill(c.server, bytes));
    assert forall op <- c'.server.pending :: op in c.server.pending || op == Filled(|bytes|);
  }

  lemma PlainLeaves(c: Cell, op: Op, k: nat)
    requires CellOk(c) && OneWay(c) && Enabled(c, Leave(ClientSide, op, k))
    ensures var c' := Step(c, Leave(ClientSide, op, k));
            OneWay(c') && c' == c.(client := c'.client)
  {
    var c' := c.(client := Drain(c.client, op, k));
    assert forall o <- c'.client.pending :: o in c.client.pending || o == Write(op.len, op.sent + k);
  }

  lemma PlainKernel(c: Cell, e: Event)
    requires CellOk(c) && OneWay(c) && Enabled(c, e) && !e.Done?
    ensures OneWay(Step(c, e)) && Step(c, e).session == c.session && Step(c, e).chunks == c.chunks
    ensures c.server.pending == multiset{} ==> Step(c, e).server.pending == multiset{}
  {
    if e.Arrive? {
      assert e == Arrive(ServerSide, e.bytes);
      PlainArrives(c, e.bytes);
    } else {
      assert e == Leave(ClientSide, e.op, e.k);
      PlainLeaves(c, e.op, e.k);
    }
  }

  lemma PlainServerFails(c: Cell, op: Op, ec: ErrorCode, beyond: seq<byte>)
    requires CellOk(c) && PlainInv(c) && Enabled(c, Done(ServerSide, op, ec, beyond)) && ec != Success
    ensures Step(c, Done(ServerSide, op, ec, beyond)) == Stop(Taken(c, ServerSide, op))
  {
    StepServerFails(c, op, ec, beyond);
    ServerErrorStops(Taken(c, ServerSide, op), ec);
  }

  lemma PlainClientFails(c: Cell, op: Op, ec: ErrorCode, beyond: seq<byte>)
    requires CellOk(c) && PlainInv(c) && Enabled(c, Done(ClientSide, op, ec, beyond)) && ec != Success
    ensures Step(c, Done(ClientSide, op, ec, beyond)) == Stop(Taken(c, ClientSide, op))
  {
    StepClientFails(c, op, ec, beyond);
    ClientErrorStops(Taken(c, ClientSide, op), ec);
  }

  lemma PlainFailure(c: Cell, e: Event)
    requires CellOk(c) && PlainInv(c) && Enabled(c, e) && Fails(e)
    ensures Step(c, e) == Stop(Taken(c, e.side, e.op))
  {
    if e.side == ServerSide {
      PlainServerFails(c, e.op, e.ec, e.beyond);
    } else {
      PlainClientFails(c, e.op, e.ec, e.beyond);
    }
  }

  lemma PlainFails(c: Cell, e: Event)
    requires CellOk(c) && PlainInv(c) && Enabled(c, e) && Fails(e)
    ensures PlainClosed(Step(c, e))
  {
    PlainFailure(c, e);
    TakenIsLess(c, e.side, e.op);
    PlainStops(c, Taken(c, e.side, e.op));
  }

  lemma TakenIsLess(c: Cell, side: Side, op: Op)
    requires CellOk(c)
    ensures var c1 := Taken(c, side, op);
            && c1.session == c.session && c1.chunks == c.chunks && c1.server.sent == c.server.sent
            && c1.server.pending <= c.server.pending && c1.client.pending <= c.client.pending
  {
  }

  lemma StoppedPending(c: Cell)
    requires CellOk(c)
    ensures forall op <- Stop(c).client.pending :: op in c.client.pending
    ensures forall op <- Stop(c).server.pending :: op in c.server.pending || op == Shutdown || op == NullWrite
    ensures Stop(c).server.sent == c.server.sent && Stop(c).chunks == c.chunks
  {
  }

  lemma PlainStops(c: Cell, c1: Cell)
    requires CellOk(c) && PlainInv(c) && CellOk(c1) && Live(c1)
    requires c1.chunks == c.chunks && c1.server.sent == c.server.sent
    requires c1.server.pending <= c.server.pending && c1.client.pending <= c.client.pending
    ensures PlainClosed(Stop(c1))
  {
    StoppedPending(c1);
    assert forall op <- c1.client.pending :: op in c.client.pending;
    assert forall op <- c1.server.pending :: op in c.server.pending;
  }

  lemma PlainReads(c: Cell, n: nat, beyond: seq<byte>)
    requires CellOk(c) && PlainInv(c) && Filled(n) in c.server.pending
    ensures n <= MAX_BUFFER_SIZE
    ensures Step(c, Done(ServerSide, Filled(n), Success, beyond)) == UpTurn(c, n)
    ensures PlainInv(UpTurn(c, n))
  {
    StepUpTurns(c, n, beyond);
  }

  /** When the request has left, the session starts two reads on the server side. */
  function Doubled(c: Cell, op: Op): (r: Cell)
    requires LiveOk(c)
    ensures CellOk(r)
  {
    c.(session := Some(c.session.value.(state := HttpDataTransferMode)),
       client := Finish(c.client, op), server := DoRead(DoRead(c.server)))
  }

  lemma PlainWrites(c: Cell, op: Op, beyond: seq<byte>)
    requires CellOk(c) && PlainInv(c) && op in c.client.pending && op.sent == op.len
    ensures var c' := Step(c, Done(ClientSide, op, Success, beyond));
            && PlainInv(c') && In(c', HttpDataTransferMode)
            && (if In(c, HttpReadyToTransferData) then c' == Doubled(c, op)
                else c' == c.(client := Finish(c.client, op), server := DoRead(c.server)))
  {
    StepClientWrite(c, op, beyond);
    if In(c, HttpReadyToTransferData) {
      WritesAreDone(Taken(c, ClientSide, op));
    } else {
      TransferWrites(Taken(c, ClientSide, op));
    }
  }

  lemma PlainReadsCount(c: Cell, n: nat, beyond: seq<byte>)
    requires CellOk(c) && PlainOpen(c) && Filled(n) in c.server.pending
    ensures PlainOpen(Step(c, Done(ServerSide, Filled(n), Success, beyond)))
  {
    PlainReads(c, n, beyond);
    FinishCounts(c.server.pending, Filled(n));
  }

  lemma PlainWritesCount(c: Cell, op: Op, beyond: seq<byte>)
    requires CellOk(c) && PlainOpen(c) && op in c.client.pending && op.sent == op.len
    ensures PlainOpen(Step(c, Done(ClientSide, op, Success, beyond)))
  {
    PlainWrites(c, op, beyond);
    FinishCounts(c.client.pending, op);
  }

  lemma PlainKernelCounts(c: Cell, e: Event)
    requires CellOk(c) && PlainOpen(c) && Enabled(c, e) && !e.Done?
    ensures PlainOpen(Step(c, e))
  {
    PlainKernel(c, e);
    KernelCounts(c, e);
  }

  lemma PlainIsLight(c: Cell)
    requires CellOk(c) && PlainOpen(c)
    ensures CellWeight(c) <= 2
  {
  }

  lemma PlainFailsLight(c: Cell, e: Event)
    requires CellOk(c) && PlainOpen(c) && Enabled(c, e) && Fails(e)
    ensures PlainShut(Step(c, e))
  {
    PlainIsLight(c);
    TakenWeight(c, e.side, e.op);
    StopWeight(Taken(c, e.side, e.op));
    PlainFailure(c, e);
    PlainFails(c, e);
  }

  lemma PlainDone(c: Cell, e: Event)
    requires CellOk(c) && PlainInv(c) && Enabled(c, e) && e.Done? && !Fails(e)
    ensures e.side == ServerSide ==> e.op.Filled? && e == Done(ServerSide, Filled(e.op.n), Success, e.beyond)
    ensures e.side == ClientSide ==>
              e.op.Write? && e.op.sent == e.op.len && e == Done(ClientSide, e.op, Success, e.beyond)
  {
  }

  lemma PlainStep(c: Cell, e: Event)
    requires CellOk(c) && PlainOpen(c) && Enabled(c, e)
    ensures PlainOpen(Step(c, e)) || PlainShut(Step(c, e))
  {
    if !e.Done? {
      PlainKernelCounts(c, e);
    } else if Fails(e) {
      PlainFailsLight(c, e);
    } else {
      PlainDone(c, e);
      if e.side == ServerSide {
        PlainReadsCount(c, e.op.n, e.beyond);
      } else {
        PlainWritesCount(c, e.op, e.beyond);
      }
    }
  }

  lemma PlainClosedArrives(c: Cell, side: Side, bytes: seq<byte>)
    requires CellOk(c) && PlainClosed(c) && Enabled(c, Arrive(side, bytes))
    ensures PlainClosed(Step(c, Arrive(side, bytes)))
  {
    var s := Fill(Of(c, side), bytes);
    assert forall op <- s.pending :: op in Of(c, side).pending || op == Filled(|bytes|);
  }

  lemma PlainClosedLeaves(c: Cell, side: Side, op: Op, k: nat)
    requires CellOk(c) && PlainClosed(c) && Enabled(c, Leave(side, op, k))
    ensures PlainClosed(Step(c, Leave(side, op, k)))
  {
    var s := Drain(Of(c, side), op, k);
    assert forall o <- s.pending :: o in Of(c, side).pending || o == Write(op.len, op.sent + k);
  }

  lemma PlainClosedStep(c: Cell, e: Event)
    requires CellOk(c) && PlainClosed(c) && Enabled(c, e)
    ensures PlainClosed(Step(c, e))
  {
    if e.Arrive? {
      PlainClosedArrives(c, e.side, e.bytes);
    } else if e.Leave? {
      PlainClosedLeaves(c, e.side, e.op, e.k);
    } else if e.side == ServerSide {
      ServerDoneClosed(c, e.op, e.ec, e.beyond);
      PlainEcho(c, c.(server := ServerEcho(c.server, e.op, e.ec)));
    } else {
      ClientDoneClosed(c, e.op, e.ec, e.beyond);
      PlainEcho(c, c.(client := Finish(c.client, e.op)));
    }
  }

  lemma PlainShutStep(c: Cell, e: Event)
    requires CellOk(c) && PlainShut(c) && Enabled(c, e)
    ensures PlainShut(Step(c, e))
  {
    PlainClosedStep(c, e);
    ClosedWindsDown(c, e);
  }

  lemma PlainEcho(c: Cell, c': Cell)
    requires CellOk(c) && PlainClosed(c) && CellOk(c') && !Live(c')
    requires c'.chunks == c.chunks && c'.server.sent == c.server.sent
    requires c'.server.pending <= c.server.pending && c'.client.pending <= c.client.pending
    ensures PlainClosed(c')
  {
    assert forall op <- c'.client.pending :: op in c.client.pending;
    assert forall op <- c'.server.pending :: op in c.server.pending;
  }

  // ---------- all states ----------

  lemma HttpStarts(kind: Kind)
    requires kind != TcpClient
    ensures HttpInv(Accepted(Http, kind))
    ensures Rank(Accepted(Http, kind)) == 3
  {
    var t := if kind == TlsServer then Shaking else Reading;
    assert WaitInv(Accepted(Http, kind), t);
  }

  /** Every step keeps the invariant. */
  lemma HttpStep(c: Cell, e: Event)
    requires CellOk(c) && HttpInv(c) && Enabled(c, e) && !Throws(c, e)
    ensures HttpInv(Step(c, e))
  {
    if PlainShut(c) {
      PlainShutStep(c, e);
    } else if !Live(c) {
      ClosedStep(c, e);
    } else if t :| WaitInv(c, t) {
      WaitStep(c, t, e);
    } else if DialInv(c) {
      DialStep(c, e);
    } else if t :| ReadyInv(c, t) {
      ReadyStep(c, t, e);
    } else if PlainOpen(c) {
      PlainStep(c, e);
    } else {
      var up, down :| RelayInv(c, up, down);
      var up', down' := RelayedStep(c, up, down, e);
    }
  }

  lemma {:induction false} HttpRun(c: Cell, events: seq<Event>)
    requires CellOk(c) && HttpInv(c) && Runs(c, events)
    ensures HttpInv(After(c, events))
    decreases |events|
  {
    if events != [] {
      HttpStep(c, events[0]);
      HttpRun(Step(c, events[0]), events[1..]);
    }
  }

  /** Every state that a session can reach from its acceptance. */
  lemma Reached(kind: Kind, events: seq<Event>)
    requires kind != TcpClient && Runs(Accepted(Http, kind), events)
    ensures HttpInv(After(Accepted(Http, kind), events))
  {
    HttpStarts(kind);
    HttpRun(Accepted(Http, kind), events);
  }

  // ---------- the output grammar ----------

  /** What may have left both streams.  A connection whose head names another method than
      CONNECT answers nothing but the error reply, and not a byte once it has tried to connect. */
  predicate Grammar(c: Cell)
    requires CellOk(c)
  {
    if c.chunks == [] || IsConnect(c) then
      && Sending(c.server, ServerScript(c))
      && Sending(c.client, ClientScript(c))
      && (c.client.sent != [] ==> c.client.link == Connected && HttpState.DoneReply() <= c.server.sent)
      && (c.client.link.Failed? ==> ClientScript(c) == [])
      && ReadInOrder(c)
    else if c.client.link == Unconnected then
      c.server.sent <= HttpState.ErrorReply()
    else
      c.server.sent == []
  }

  lemma GreetingGrammar(c: Cell, t: Token, script: seq<byte>)
    requires CellOk(c) && Greeting(c, t, script) && |c.chunks| <= 1 && script <= ServerScript(c)
    requires c.chunks == [] || IsConnect(c)
    ensures Grammar(c)
  {
    GreetingReads(c, t, script);
    PlacedSends(c.server, t, t, script);
    SendingGrows(c.server, script, ServerScript(c));
    assert |c.chunks| == 1 ==> c.chunks[1..] == [];
  }

  lemma DialGrammar(c: Cell)
    requires CellOk(c) && DialInv(c)
    ensures Grammar(c)
  {
    assert c.chunks[1..] == [];
  }

  lemma RelayGrammar(c: Cell, up: Lane, down: Lane)
    requires CellOk(c) && RelayInv(c, up, down)
    ensures Grammar(c)
  {
    RelayingReads(c, up, down, 1);
    RelaySendsDown(c, up, down);
    RelaySendsUp(c, up, down);
  }

  lemma ClosedGrammar(c: Cell)
    requires CellOk(c) && !Live(c) && ClosedInv(c)
    ensures Grammar(c)
  {
    assert |c.chunks| == 1 ==> c.chunks[1..] == [];
  }

  lemma GrammarHolds(c: Cell)
    requires CellOk(c) && HttpInv(c)
    ensures Grammar(c)
  {
    if PlainClosed(c) {
    } else if !Live(c) {
      ClosedGrammar(c);
    } else if t :| WaitInv(c, t) {
      GreetingGrammar(c, t, []);
    } else if DialInv(c) {
      DialGrammar(c);
    } else if t :| ReadyInv(c, t) {
      GreetingGrammar(c, t, HttpState.DoneReply());
    } else if PlainInv(c) {
    } else {
      var up, down :| RelayInv(c, up, down);
      RelayGrammar(c, up, down);
    }
  }

  /** A session whose handler has thrown has sent nothing. */
  lemma ThrowKeepsGrammar(c: Cell, e: Event)
    requires CellOk(c) && HttpInv(c) && Enabled(c, e) && Throws(c, e)
    ensures Grammar(Step(c, e)) && Step(c, e).client.sent == []
  {
    var t :| WaitInv(c, t);
    GreetingDone(c, t, [], e);
    WaitThrows(c, t.n, e.beyond);
    ThrowIsNoConnect(c, t.n);
    WaitRecorded(c, t.n);
  }

  lemma ThrowIsNoConnect(c: Cell, n: nat)
    requires CellOk(c) && WaitInv(c, Loaded(n)) && HttpState.Decide(c.server.readBuffer[..n]).Throw?
    ensures Recorded(c, n).chunks == [c.server.readBuffer[..n]] && !IsConnect(Recorded(c, n))
  {
    var head := Text(c.server.readBuffer[..n]);
    if HttpHead.HeadVerb(head) == HttpHead.CONNECT {
      HttpHead.ConnectHeadDecision(head);
    }
  }

  /** In every run of a CONNECT connection the server stream sends a prefix of the 200 reply
      followed by what the remote host sent, and the client stream a prefix of what was read
      after the head; the outstanding write, if any, is the only one and holds the next bytes. */
  lemma OutputGrammar(kind: Kind, events: seq<Event>)
    requires kind != TcpClient && Runs(Accepted(Http, kind), events)
    ensures Grammar(After(Accepted(Http, kind), events))
  {
    Reached(kind, events);
    GrammarHolds(After(Accepted(Http, kind), events));
  }

  lemma ConnectForwards(c: Cell, first: seq<byte>, later: seq<seq<byte>>)
    requires CellOk(c) && Grammar(c) && c.chunks == [first] + later && IsConnect(c)
    ensures c.client.sent <= Flatten(later) && Flatten([first] + later) <= c.server.received
  {
    assert c.chunks[1..] == later;
  }

  lemma FirstThenLater(first: seq<byte>, later: seq<seq<byte>>, part: seq<byte>, all: seq<byte>)
    requires part <= Flatten(later) && Flatten([first] + later) <= all
    ensures first + part <= all
  {
    FlattenConcat([first], later);
    FlattenSnoc([], first);
    assert [] + [first] == [first];
  }

  lemma ForwardsFrom(c: Cell)
    requires CellOk(c) && Grammar(c) && IsConnect(c)
    ensures c.chunks[0] + c.client.sent <= c.server.received
  {
    var first, later := c.chunks[0], c.chunks[1..];
    ConnectForwards(c, first, later);
    FirstThenLater(first, later, c.client.sent, c.server.received);
  }

  /** In terms of the sockets alone: what the client stream of a CONNECT session sends is what
      arrived on the server stream after the head. */
  lemma ForwardsWhatArrived(kind: Kind, events: seq<Event>)
    requires kind != TcpClient && Runs(Accepted(Http, kind), events)
    requires IsConnect(After(Accepted(Http, kind), events))
    ensures var c := After(Accepted(Http, kind), events); c.chunks[0] + c.client.sent <= c.server.received
  {
    OutputGrammar(kind, events);
    ForwardsFrom(After(Accepted(Http, kind), events));
  }

  lemma MarkerTells(c: Cell)
    requires CellOk(c) && HttpInv(c) && In(c, HttpConnectionEstablished)
    ensures DialInv(c)
  {
  }

  /** Over whole runs: while the session connects, its head names one of the six methods, and the
      stored response is the 200 marker exactly when that is CONNECT. */
  lemma MarkerOverRuns(kind: Kind, events: seq<Event>)
    requires kind != TcpClient && Runs(Accepted(Http, kind), events)
    requires In(After(Accepted(Http, kind), events), HttpConnectionEstablished)
    ensures var c := After(Accepted(Http, kind), events);
            && |c.chunks| == 1
            && var lines := HttpHead.Tokens(Text(c.chunks[0]), HttpHead.CRLF);
               && |lines| >= 2 && |HttpHead.Tokens(lines[0], " ")| == 3
               && var name := HttpHead.Tokens(lines[0], " ")[0];
                  && (name == "CONNECT" || HttpHead.IsPlainMethod(name))
                  && (Text(c.session.value.response) == HttpHead.HTTP_DONE <==> name == "CONNECT")
  {
    var c := After(Accepted(Http, kind), events);
    Reached(kind, events);
    MarkerTells(c);
    HttpHead.HeadVerbOnText(Text(c.chunks[0]));
  }

  lemma WaitToken(c: Cell, n: nat)
    requires CellOk(c) && HttpInv(c) && In(c, HttpWaitRequest) && Filled(n) in c.server.pending
    ensures WaitInv(c, Loaded(n))
  {
    var t :| WaitInv(c, t);
    WhoseOperation(c.server, t, t, Filled(n));
  }

  /** In every run, a head that is handed to a waiting session is answered by the 500 reply, or
      starts a connection, or ends the program, as its text decides. */
  lemma EveryHeadIsDecided(kind: Kind, events: seq<Event>, n: nat, beyond: seq<byte>)
    requires kind != TcpClient && Runs(Accepted(Http, kind), events)
    requires var c := After(Accepted(Http, kind), events);
             In(c, HttpWaitRequest) && Filled(n) in c.server.pending && n <= MAX_BUFFER_SIZE
    ensures var c := After(Accepted(Http, kind), events);
            var e := Done(ServerSide, Filled(n), Success, beyond);
            var c' := Step(c, e);
            match HttpState.Decide(c.server.readBuffer[..n])
            case Refuse => !Live(c') && Answers500(c')
            case Throw => Throws(c, e)
            case Forward(host, service, connect) =>
              && In(c', HttpConnectionEstablished) && c'.client.pending == multiset{Resolve}
              && AimsAt(c', Endpoint(Name(host), service)) && IsConnect(c') == connect
  {
    Reached(kind, events);
    WaitToken(After(Accepted(Http, kind), events), n);
    WaitTurns(After(Accepted(Http, kind), events), n, beyond);
  }

  /** A session that reads a CONNECT head of RFC 9110 section 9.3.6 starts connecting to exactly
      the printed host and port, if there is a header line, and closes otherwise. */
  lemma ConnectsWhereAsked(
      kind: Kind, events: seq<Event>, n: nat, beyond: seq<byte>,
      host: string, port: string, version: string, lines: seq<string>)
    requires kind != TcpClient && Runs(Accepted(Http, kind), events)
    requires host != "" && port != "" && version != ""
    requires HttpHead.FreeOf(host, " :\r\n") && HttpHead.FreeOf(port, " :\r\n")
    requires HttpHead.FreeOf(version, " \r\n") && forall l <- lines :: HttpHead.FreeOf(l, HttpHead.CRLF)
    requires var c := After(Accepted(Http, kind), events);
             && In(c, HttpWaitRequest) && Filled(n) in c.server.pending && n <= MAX_BUFFER_SIZE
             && Text(c.server.readBuffer[..n]) == HttpHead.PrintHead(host, port, version, lines)
    ensures var c := After(Accepted(Http, kind), events);
            var c' := Step(c, Done(ServerSide, Filled(n), Success, beyond));
            if HttpHead.Nonempty(lines) != [] then
              && In(c', HttpConnectionEstablished) && c'.client.pending == multiset{Resolve}
              && AimsAt(c', Endpoint(Name(host), port))
            else !Live(c') && Answers500(c')
  {
    HttpHead.ConnectHeadRoundTrip(host, port, version, lines);
    EveryHeadIsDecided(kind, events, n, beyond);
  }

  /** The same for a head of another method with a line that names a host. */
  lemma PlainConnectsWhereAsked(
      kind: Kind, events: seq<Event>, n: nat, beyond: seq<byte>,
      name: string, scheme: string, path: string, version: string, before: string, after: string)
    requires kind != TcpClient && Runs(Accepted(Http, kind), events)
    requires HttpHead.PlainParts(name, scheme, path, version, before + (HttpHead.HOST + after))
    requires HttpHead.NamesHostAfter(before, after)
    requires var c := After(Accepted(Http, kind), events);
             && In(c, HttpWaitRequest) && Filled(n) in c.server.pending && n <= MAX_BUFFER_SIZE
             && Text(c.server.readBuffer[..n])
                == HttpHead.PlainHead(name, scheme, path, version, before + (HttpHead.HOST + after))
    ensures var c := After(Accepted(Http, kind), events);
            var e := Done(ServerSide, Filled(n), Success, beyond);
            var c' := Step(c, e);
            if after == "" then Throws(c, e)
            else if |after| == 1 then !Live(c') && Answers500(c')
            else
              && In(c', HttpConnectionEstablished) && c'.client.pending == multiset{Resolve}
              && AimsAt(c', Endpoint(Name(after[1..]), scheme))
  {
    HttpHead.PlainHeadRoundTrip(name, scheme, path, version, before, after);
    EveryHeadIsDecided(kind, events, n, beyond);
  }

  lemma TransferIsRelay(c: Cell) returns (up: Lane, down: Lane)
    requires CellOk(c) && HttpInv(c) && In(c, HttpDataTransferMode) && IsConnect(c)
    ensures RelayInv(c, up, down)
  {
    up, down :| RelayInv(c, up, down);
  }

  /** From its data-transfer mode on, every run in which a CONNECT session stays open is a run
      of two lossless pipes, as with SOCKS5. */
  lemma RelaysThroughTwoPipes(kind: Kind, events: seq<Event>, more: seq<Event>) returns (trace: seq<(Pipe, Pipe)>)
    requires kind != TcpClient && Runs(Accepted(Http, kind), events)
    requires var c := After(Accepted(Http, kind), events);
             In(c, HttpDataTransferMode) && IsConnect(c) && Runs(c, more) && Live(After(c, more))
    ensures var c := After(Accepted(Http, kind), events);
            IsTrace(trace) && AllLossless(trace) && ShownAlong(c, more, trace, 1, HttpState.DoneReply())
  {
    var c := After(Accepted(Http, kind), events);
    Reached(kind, events);
    var up, down := TransferIsRelay(c);
    trace := RelayRun(c, up, down, 1, more);
  }

  // ---------- tokens and byte counts ----------

  /** Until the relay one operation is outstanding in all; in the relay, one per direction, and
      the counters count the bytes delivered and in flight. */
  ghost predicate OneTokenEach(c: Cell)
    requires CellOk(c) && Live(c)
  {
    if c.session.value.state == HttpDataTransferMode then
      exists up, down :: TokensCount(c, up, down, |HttpState.DoneReply()|)
    else
      |c.server.pending| + |c.client.pending| == 1
  }

  lemma GreetingCounts(c: Cell, t: Token, script: seq<byte>)
    requires CellOk(c) && Greeting(c, t, script)
    ensures |c.server.pending| + |c.client.pending| == 1
  {
  }

  lemma TokensHold(c: Cell)
    requires CellOk(c) && HttpInv(c) && Live(c) && (c.chunks == [] || IsConnect(c))
    ensures OneTokenEach(c)
  {
    if t :| WaitInv(c, t) {
      GreetingCounts(c, t, []);
    } else if DialInv(c) {
    } else if t :| ReadyInv(c, t) {
      GreetingCounts(c, t, HttpState.DoneReply());
    } else {
      var up, down :| RelayInv(c, up, down);
      RelayCounts(c, up, down, 1);
    }
  }

  // ---------- the handshake ends ----------

  predicate ShakingHands(c: Cell) {
    Live(c) && IsHttp(c.session.value.state) && c.session.value.state != HttpDataTransferMode
  }

  lemma PlainRankKernel(c: Cell, e: Event)
    requires CellOk(c) && PlainInv(c) && Enabled(c, e) && !e.Done?
    ensures Rank(Step(c, e)) == Rank(c)
  {
    PlainKernel(c, e);
    SameRank(c, Step(c, e));
  }

  lemma SameRank(c: Cell, c': Cell)
    requires Live(c) && IsHttp(c.session.value.state) && c'.session == c.session
    ensures Rank(c') == Rank(c)
  {
  }

  lemma PlainRankFails(c: Cell, e: Event)
    requires CellOk(c) && PlainInv(c) && Enabled(c, e) && Fails(e)
    ensures Rank(Step(c, e)) == 0
  {
    PlainFails(c, e);
  }

  lemma PlainRankWrites(c: Cell, op: Op, beyond: seq<byte>)
    requires CellOk(c) && PlainInv(c) && op in c.client.pending && op.sent == op.len
    ensures Rank(Step(c, Done(ClientSide, op, Success, beyond))) == 0
  {
    PlainWrites(c, op, beyond);
  }

  lemma PlainRank(c: Cell, e: Event)
    requires CellOk(c) && PlainInv(c) && Enabled(c, e) && In(c, HttpReadyToTransferData)
    ensures Progresses(c, e, Step(c, e))
  {
    if !e.Done? {
      PlainRankKernel(c, e);
    } else if Fails(e) {
      PlainRankFails(c, e);
    } else {
      PlainRankWrites(c, e.op, e.beyond);
    }
  }

  lemma RankFalls(c: Cell, e: Event)
    requires CellOk(c) && HttpInv(c) && ShakingHands(c) && Enabled(c, e) && !Throws(c, e)
    ensures Progresses(c, e, Step(c, e))
  {
    if t :| WaitInv(c, t) {
      WaitStep(c, t, e);
    } else if DialInv(c) {
      DialStep(c, e);
    } else if t :| ReadyInv(c, t) {
      ReadyStep(c, t, e);
    } else {
      PlainRank(c, e);
    }
  }

  lemma PlainRankReads(c: Cell, n: nat, beyond: seq<byte>)
    requires CellOk(c) && PlainInv(c) && Filled(n) in c.server.pending && In(c, HttpDataTransferMode)
    ensures Rank(Step(c, Done(ServerSide, Filled(n), Success, beyond))) == 0
  {
    PlainReads(c, n, beyond);
  }

  lemma PlainDoneStaysZero(c: Cell, e: Event)
    requires CellOk(c) && PlainInv(c) && Enabled(c, e) && In(c, HttpDataTransferMode) && e.Done? && !Fails(e)
    ensures Rank(Step(c, e)) == 0
  {
    PlainDone(c, e);
    if e.side == ServerSide {
      PlainRankReads(c, e.op.n, e.beyond);
    } else {
      PlainRankWrites(c, e.op, e.beyond);
    }
  }

  lemma PlainStaysZero(c: Cell, e: Event)
    requires CellOk(c) && PlainInv(c) && Enabled(c, e) && In(c, HttpDataTransferMode)
    ensures Rank(Step(c, e)) == 0
  {
    if !e.Done? {
      NoRank(c);
      PlainRankKernel(c, e);
    } else if Fails(e) {
      PlainRankFails(c, e);
    } else {
      PlainDoneStaysZero(c, e);
    }
  }

  lemma NoRank(c: Cell)
    requires !Live(c) || c.session.value.state == HttpDataTransferMode
    ensures Rank(c) == 0
  {
  }

  lemma RelayLeads(c: Cell, up: Lane, down: Lane)
    requires CellOk(c) && RelayInv(c, up, down)
    ensures Live(c) && c.session.value.state == HttpDataTransferMode
  {
  }

  lemma RelayStaysZero(c: Cell, up: Lane, down: Lane, e: Event)
    requires CellOk(c) && RelayInv(c, up, down) && Enabled(c, e)
    ensures Rank(Step(c, e)) == 0
  {
    var up', down' := RelayedStep(c, up, down, e);
    if !Fails(e) {
      RelayLeads(Step(c, e), up', down');
    }
    NoRank(Step(c, e));
  }

  lemma ClosedStaysZero(c: Cell, e: Event)
    requires CellOk(c) && !Live(c) && Enabled(c, e)
    ensures Rank(Step(c, e)) == 0
  {
    ClosedStays(c, e);
  }

  lemma RankStaysZero(c: Cell, e: Event)
    requires CellOk(c) && HttpInv(c) && !ShakingHands(c) && Enabled(c, e)
    ensures Rank(Step(c, e)) == 0
  {
    if !Live(c) {
      ClosedStaysZero(c, e);
    } else if PlainInv(c) {
      PlainStaysZero(c, e);
    } else {
      var up, down :| RelayInv(c, up, down);
      RelayStaysZero(c, up, down, e);
    }
  }

  lemma PhaseIsHttp(c: Cell)
    requires CellOk(c) && HttpInv(c) && Live(c)
    ensures IsHttp(c.session.value.state)
  {
    if t :| WaitInv(c, t) {
    } else if t :| ReadyInv(c, t) {
    } else if up, down :| RelayInv(c, up, down) {
    }
  }

  lemma RankOfPhase(c: Cell)
    requires CellOk(c) && (Live(c) ==> IsHttp(c.session.value.state))
    ensures Rank(c) == 0 <==> !ShakingHands(c)
  {
  }

  lemma RankZero(c: Cell)
    requires CellOk(c) && HttpInv(c)
    ensures Live(c) ==> IsHttp(c.session.value.state)
    ensures Rank(c) == 0 <==> !ShakingHands(c)
  {
    if Live(c) {
      PhaseIsHttp(c);
    }
    RankOfPhase(c);
  }

  lemma {:induction false} RankBudget(c: Cell, events: seq<Event>)
    requires CellOk(c) && HttpInv(c) && Runs(c, events)
    ensures Rank(c) == 0 ==> Rank(After(c, events)) == 0
    ensures Rank(After(c, events)) > 0 ==> Callbacks(events) + Rank(After(c, events)) <= Rank(c)
    decreases |events|
  {
    if events != [] {
      HttpStep(c, events[0]);
      RankZero(c);
      if ShakingHands(c) {
        RankFalls(c, events[0]);
      } else {
        RankStaysZero(c, events[0]);
      }
      RankBudget(Step(c, events[0]), events[1..]);
    }
  }

  /** Over TCP and over TLS, after at most three callbacks a session transfers data or is closed. */
  lemma HandshakeEnds(kind: Kind, events: seq<Event>)
    requires kind != TcpClient && Runs(Accepted(Http, kind), events)
    requires Callbacks(events) >= 3
    ensures var c := After(Accepted(Http, kind), events);
            !Live(c) || c.session.value.state == HttpDataTransferMode
  {
    HttpStarts(kind);
    RankBudget(Accepted(Http, kind), events);
    HttpRun(Accepted(Http, kind), events);
    RankZero(After(Accepted(Http, kind), events));
  }

  // ---------- no session is stuck ----------

  lemma TokensWait(c: Cell)
    requires CellOk(c) && Live(c) && IsHttp(c.session.value.state) && OneTokenEach(c)
    ensures Waits(c)
  {
    if c.session.value.state == HttpDataTransferMode {
      var up, down :| TokensCount(c, up, down, |HttpState.DoneReply()|);
      TokensOutstanding(c, up, down);
    }
  }

  lemma LiveWaits(c: Cell)
    requires CellOk(c) && HttpInv(c) && Live(c)
    ensures Waits(c)
  {
    RankZero(c);
    if !PlainOpen(c) && !DialInv(c) {
      LiveConnects(c);
      TokensHold(c);
      TokensWait(c);
    }
  }

  lemma LiveConnects(c: Cell)
    requires CellOk(c) && HttpInv(c) && Live(c) && !PlainOpen(c) && !DialInv(c)
    ensures c.chunks == [] || IsConnect(c)
  {
  }

  lemma TransferStays(c: Cell, e: Event)
    requires CellOk(c) && HttpInv(c) && Enabled(c, e) && In(c, HttpDataTransferMode) && Live(Step(c, e))
    ensures Transferring(Step(c, e).session.value.state)
  {
    RankStaysZero(c, e);
    HttpStep(c, e);
    RankZero(Step(c, e));
  }

  /** Every live session, of whatever method, waits for exactly one operation until it transfers
      data and then for exactly two, and no event makes an open session lose one, unless it ends
      the program: no completion is met with nothing.  A CONNECT session has one of them for each
      direction. */
  lemma NeverStuck(kind: Kind, events: seq<Event>, e: Event)
    requires kind != TcpClient && Runs(Accepted(Http, kind), events)
    requires Live(After(Accepted(Http, kind), events)) && Enabled(After(Accepted(Http, kind), events), e)
    ensures var c := After(Accepted(Http, kind), events);
            && Waits(c) && (DropsNothing(c, Step(c, e)) || Throws(c, e))
            && (c.chunks == [] || IsConnect(c) ==> OneTokenEach(c))
  {
    var c := After(Accepted(Http, kind), events);
    Reached(kind, events);
    LiveWaits(c);
    if !Throws(c, e) {
      NothingDrops(c, e);
    }
    if c.chunks == [] || IsConnect(c) {
      TokensHold(c);
    }
  }

  lemma NothingDrops(c: Cell, e: Event)
    requires CellOk(c) && HttpInv(c) && Live(c) && Enabled(c, e) && !Throws(c, e)
    ensures Waits(c) && DropsNothing(c, Step(c, e))
  {
    LiveWaits(c);
    HttpStep(c, e);
    if Live(Step(c, e)) {
      LiveWaits(Step(c, e));
      RankZero(c);
      if c.session.value.state == HttpDataTransferMode {
        TransferStays(c, e);
      }
      WaitsAndDropsNothing(c, Step(c, e));
    }
  }

  lemma ClosedIsLight(c: Cell)
    requires CellOk(c) && HttpInv(c) && !Live(c)
    ensures CellWeight(c) <= 3
  {
  }

  /** A closed session is left with at most three completions, and then with none. */
  lemma ClosedSessionsDie(kind: Kind, events: seq<Event>, more: seq<Event>)
    requires kind != TcpClient && Runs(Accepted(Http, kind), events)
    requires var c := After(Accepted(Http, kind), events); !Live(c) && Runs(c, more)
    ensures Completions(more) <= 3
  {
    var c := After(Accepted(Http, kind), events);
    Reached(kind, events);
    ClosedIsLight(c);
    ClosedDiesOut(c, more);
  }

  // ---------- the totals at the end ----------

  lemma NothingCountedYet(c: Cell)
    requires CellOk(c) && HttpInv(c) && Live(c) && !In(c, HttpDataTransferMode) && (c.chunks == [] || IsConnect(c))
    ensures c.session.value.toRemote == 0 && c.session.value.toLocal == 0 && c.client.sent == []
  {
    if t :| WaitInv(c, t) {
    } else if DialInv(c) {
    } else {
      var t :| ReadyInv(c, t);
    }
  }

  /** The event that closes a CONNECT session finds totals that overstate the bytes delivered by at most
      one chunk in each direction; before the relay both are zero and nothing was forwarded. */
  lemma TotalsAtClose(kind: Kind, events: seq<Event>, e: Event)
    requires kind != TcpClient && Runs(Accepted(Http, kind), events)
    requires var c := After(Accepted(Http, kind), events);
             Live(c) && (c.chunks == [] || IsConnect(c)) && Enabled(c, e) && !Live(Step(c, e))
    ensures var c := After(Accepted(Http, kind), events);
            var ses, d := c.session.value, Step(c, e);
            if In(c, HttpDataTransferMode) then TotalsClose(ses, d, |HttpState.DoneReply()|)
            else ses.toRemote == 0 && ses.toLocal == 0 && d.client.sent == []
  {
    var c := After(Accepted(Http, kind), events);
    Reached(kind, events);
    KernelKeepsOpen(c, e);
    HandlersSendNothing(c, e);
    if In(c, HttpDataTransferMode) {
      TotalsHold(c);
    } else {
      NothingCountedYet(c);
    }
  }

  lemma TotalsHold(c: Cell)
    requires CellOk(c) && HttpInv(c) && In(c, HttpDataTransferMode) && (c.chunks == [] || IsConnect(c))
    ensures TotalsClose(c.session.value, c, |HttpState.DoneReply()|)
  {
    TokensHold(c);
    var up, down :| TokensCount(c, up, down, |HttpState.DoneReply()|);
  }
}
