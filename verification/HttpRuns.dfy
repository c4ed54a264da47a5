/** What every run of an HTTP connection keeps.  A CONNECT session relays like a SOCKS5 one; a
    session with another method does not, and what it does instead is stated here too. */
module HttpRuns {
  import opened Basics
  import opened Transport
  import opened Sessions
  import opened Engine
  import opened Channel
  import opened Dispatch
  import opened Closing
  import opened Relay
  import opened Handshake
  import opened Progress
  import HttpHead
  import HttpState

  /** The head, which is the first chunk, names the method CONNECT. */
  predicate IsConnect(c: Cell) {
    c.chunks != [] && HttpHead.HeadVerb(Text(c.chunks[0])) == HttpHead.CONNECT
  }

  // ---------- what a CONNECT connection has to say ----------

  function Greeted(c: Cell): seq<byte> {
    if c.client.link == Connected then HttpState.DoneReply() else []
  }

  /** All that the server stream may ever send: the 200 reply once connected and then what the
      remote host sends; or, if the head was refused, the error reply. */
  function ServerScript(c: Cell): seq<byte> {
    if c.client.link == Connected then HttpState.DoneReply() + c.client.received
    else if !Live(c) && |c.chunks| == 1 && c.client.link == Unconnected then HttpState.ErrorReply()
    else []
  }

  /** All that the client stream may ever send: what was read after the head. */
  function ClientScript(c: Cell): seq<byte> {
    if |c.chunks| >= 1 then Flatten(c.chunks[1..]) else []
  }

  // ---------- the states ----------

  predicate WaitInv(c: Cell, t: Token)
    requires CellOk(c)
  {
    && In(c, HttpWaitRequest) && c.chunks == [] && c.client.link == Unconnected
    && Greeting(c, t, []) && !t.Writing?
  }

  /** The stored response is the 200 marker exactly when the method is CONNECT. */
  predicate MarkerTellsMethod(c: Cell)
    requires Live(c) && c.chunks != []
  {
    && (IsConnect(c) <==> Text(c.session.value.response) == HttpHead.HTTP_DONE)
    && c.session.value.response == (if IsConnect(c) then HttpState.DoneReply() else c.chunks[0])
    && HttpHead.HeadVerb(Text(c.chunks[0])) != HttpHead.NONE
  }

  predicate DialInv(c: Cell)
    requires CellOk(c)
  {
    && In(c, HttpConnectionEstablished) && |c.chunks| == 1
    && MarkerTellsMethod(c)
    && Dialing(c, [])
  }

  predicate ReadyInv(c: Cell, t: Token)
    requires CellOk(c)
  {
    && In(c, HttpReadyToTransferData) && |c.chunks| == 1 && IsConnect(c) && c.client.link == Connected
    && Greeting(c, t, HttpState.DoneReply()) && t.Writing?
  }

  predicate RelayInv(c: Cell, up: Lane, down: Lane)
    requires CellOk(c)
  {
    && In(c, HttpDataTransferMode) && IsConnect(c)
    && Relaying(c, up, down, 1) && down.greeting == HttpState.DoneReply()
  }

  /** A connected session of another method: it only ever reads from the server side and writes
      to the client side. */
  predicate PlainInv(c: Cell)
    requires CellOk(c)
  {
    && (In(c, HttpReadyToTransferData) || In(c, HttpDataTransferMode))
    && c.chunks != [] && !IsConnect(c)
    && OneWay(c)
    && (In(c, HttpReadyToTransferData) ==> c.server.pending == multiset{})
  }

  predicate OneWay(c: Cell) {
    && (forall op <- c.server.pending :: op.Read? || op.Filled?)
    && (forall op <- c.client.pending :: op.Write?)
    && c.server.sent == []
  }

  /** It waits for one operation while the request goes out, and for two from then on. */
  predicate PlainOpen(c: Cell)
    requires CellOk(c)
  {
    PlainInv(c) && Waits(c)
  }

  /** After such a session has closed. */
  predicate PlainClosed(c: Cell)
    requires CellOk(c)
  {
    !Live(c) && c.chunks != [] && !IsConnect(c) && c.server.sent == []
    && (forall op <- c.server.pending :: !op.Write? && !op.Handshake?)
    && (forall op <- c.client.pending :: op.Write?)
  }

  predicate PlainShut(c: Cell)
    requires CellOk(c)
  {
    PlainClosed(c) && CellWeight(c) <= 3
  }

  predicate ClosedInv(c: Cell)
    requires CellOk(c)
  {
    && Flushing(c, ServerScript(c), ClientScript(c)) && CellWeight(c) <= 3
    && (|c.chunks| > 1 ==> c.client.link == Connected && Greeted(c) <= c.server.sent)
    && (c.client.link == Connected ==> IsConnect(c))
    && ReadInOrder(c)
  }

  ghost predicate HttpInv(c: Cell)
    requires CellOk(c)
  {
    || (!Live(c) && ClosedInv(c))
    || PlainShut(c)
    || (exists t :: WaitInv(c, t))
    || DialInv(c)
    || (exists t :: ReadyInv(c, t))
    || (exists up, down :: RelayInv(c, up, down))
    || PlainOpen(c)
  }

  // ---------- the handlers as explicit changes ----------

  function Asked(ses: Session, response: seq<byte>, host: string, service: string): Session {
    ses.(response := response, host := Name(host), service := service, state := HttpConnectionEstablished)
  }

  lemma WaitReads(c: Cell, buffer: seq<byte>, beyond: seq<byte>)
    requires CellOk(c) && In(c, HttpWaitRequest) && |buffer| <= MAX_BUFFER_SIZE
    ensures var c1 := c.(chunks := c.chunks + [buffer]);
            OnServerRead(c, buffer, beyond)
              == match HttpState.Decide(buffer)
                 case Throw => c1
                 case Refuse => Stop(WriteServer(c1, HttpState.ErrorReply()))
                 case Forward(host, service, connect) =>
                   c1.(session := Some(Asked(c.session.value, if connect then HttpState.DoneReply() else buffer,
                                             host, service)),
                       client := DoStart(c.client.(host := Name(host), service := service)))
  {
    assert OnServerRead(c, buffer, beyond)
        == HttpState.WaitRequestServerRead(c.(chunks := c.chunks + [buffer]), buffer);
  }

  lemma EstablishedConnects(c: Cell)
    requires CellOk(c) && In(c, HttpConnectionEstablished)
    ensures var ses := c.session.value;
            var c1 := c.(session := Some(ses.(state := HttpReadyToTransferData)));
            OnConnect(c) == if Text(ses.response) == HttpHead.HTTP_DONE
                            then c1.(server := DoWrite(c.server, ses.response))
                            else c1.(client := DoWrite(c.client, ses.response))
  {
  }

  lemma WritesAreDone(c: Cell)
    requires CellOk(c) && In(c, HttpReadyToTransferData)
    ensures OnServerWrite(c) == ChangeState(ReadClient(ReadServer(c)), HttpDataTransferMode)
    ensures OnClientWrite(c) == ChangeState(ReadServer(ReadServer(c)), HttpDataTransferMode)
  {
  }

  // ---------- the invariant and the rank, once the next state is known ----------

  lemma Closes(c: Cell, e: Event, c': Cell)
    requires CellOk(c') && Rank(c) > 0 && !Live(c') && ClosedInv(c') && Callback(e)
    ensures HttpInv(c') && Progresses(c, e, c')
  {
  }

  lemma StaysInWait(c: Cell, e: Event, c': Cell, t: Token)
    requires CellOk(c) && In(c, HttpWaitRequest) && CellOk(c') && WaitInv(c', t) && !Callback(e)
    ensures HttpInv(c') && Progresses(c, e, c')
  {
  }

  lemma EntersDial(c: Cell, e: Event, c': Cell)
    requires CellOk(c) && CellOk(c') && DialInv(c')
    requires if Callback(e) then Rank(c) > 2 else Rank(c) == 2
    ensures HttpInv(c') && Progresses(c, e, c')
  {
  }

  lemma EntersReady(c: Cell, e: Event, c': Cell, t: Token)
    requires CellOk(c) && CellOk(c') && ReadyInv(c', t)
    requires if Callback(e) then Rank(c) > 1 else Rank(c) == 1
    ensures HttpInv(c') && Progresses(c, e, c')
  {
  }

  lemma RelayIsKept(c: Cell, up: Lane, down: Lane)
    requires CellOk(c) && RelayInv(c, up, down)
    ensures HttpInv(c) && Rank(c) == 0
  {
  }

  lemma EntersRelay(c: Cell, e: Event, c': Cell, up: Lane, down: Lane)
    requires CellOk(c) && Rank(c) > 0 && CellOk(c') && RelayInv(c', up, down) && Callback(e)
    ensures HttpInv(c') && Progresses(c, e, c')
  {
    RelayIsKept(c', up, down);
  }

  lemma EntersPlain(c: Cell, e: Event, c': Cell)
    requires CellOk(c) && CellOk(c') && PlainOpen(c') && Callback(e)
    requires Rank(c) > (if In(c', HttpReadyToTransferData) then 1 else 0)
    ensures HttpInv(c') && Progresses(c, e, c')
  {
  }

  // ---------- waiting for the head ----------

  /** Closing before anything was connected. */
  lemma ClosedEarly(c: Cell, c': Cell, script: seq<byte>)
    requires CellOk(c') && |c.chunks| <= 1 && Untouched(c'.client)
    requires c.client.link == Connected ==> IsConnect(c)
    requires c'.chunks == c.chunks && c'.client.link == c.client.link && !Live(c')
    requires script <= ServerScript(c')
    requires Flushing(c', script, []) && CellWeight(c') <= 3 && ReadInOrder(c')
    ensures ClosedInv(c')
  {
    SendingGrows(c'.server, script, ServerScript(c'));
    assert |c.chunks| == 1 ==> c.chunks[1..] == [];
  }

  lemma WaitKernel(c: Cell, t: Token, e: Event) returns (t': Token)
    requires CellOk(c) && WaitInv(c, t) && Enabled(c, e) && !e.Done?
    ensures WaitInv(Step(c, e), t')
  {
    t' := GreetingKernel(c, t, [], e);
  }

  lemma WaitShakes(c: Cell, beyond: seq<byte>)
    requires CellOk(c) && WaitInv(c, Shaking) && Handshake in c.server.pending
    ensures WaitInv(Step(c, Done(ServerSide, Handshake, Success, beyond)), Reading)
  {
    StepHandshake(c, beyond);
    GreetingShakes(c, []);
  }

  lemma WaitFails(c: Cell, t: Token, e: Event)
    requires CellOk(c) && WaitInv(c, t) && Enabled(c, e) && Fails(e)
    ensures !Live(Step(c, e)) && ClosedInv(Step(c, e))
  {
    GreetingFails(c, t, [], e);
    GreetingReads(c, t, []);
    TakenReads(c, ServerSide, e.op);
    StopReads(Taken(c, ServerSide, e.op));
    ClosedEarly(c, Stop(Taken(c, ServerSide, e.op)), []);
  }

  /** The 500 reply is being written. */
  predicate Answers500(c: Cell)
    requires CellOk(c)
  {
    var reply := HttpState.ErrorReply();
    Write(|reply|, 0) in c.server.pending && c.server.writeBuffer[..|reply|] == reply && c.server.sent == []
  }

  lemma RefuseAnswers(q: Cell)
    requires CellOk(q) && Quiet(q, [])
    ensures Answers500(Stop(WriteServer(q, HttpState.ErrorReply())))
  {
  }

  /** A refused head: the error reply is started and the session is gone. */
  lemma WaitRefuses(q: Cell)
    requires CellOk(q) && Quiet(q, []) && |q.chunks| == 1 && q.client.link == Unconnected
    ensures var c' := Stop(WriteServer(q, HttpState.ErrorReply())); !Live(c') && ClosedInv(c')
  {
    var reply := HttpState.ErrorReply();
    QuietWrite(q, [], reply);
    assert [] + reply == reply;
    var c1 := WriteServer(q, reply);
    var t := Writing(|reply|, 0);
    PlacedSends(c1.server, t, t, reply);
    StopFlushes(c1, reply, []);
    OneOperationWeight(c1);
    StopWeight(c1);
    GreetingReads(c1, t, reply);
    StopReads(c1);
    ClosedEarly(q, Stop(c1), reply);
  }

  lemma OneOperationWeight(c: Cell)
    requires CellOk(c) && |c.server.pending| == 1 && Handshake !in c.server.pending && Resolve !in c.server.pending
    requires c.client.pending == multiset{}
    ensures CellWeight(c) == 1
  {
  }

  lemma WaitDials(q: Cell, host: string, service: string, connect: bool)
    requires CellOk(q) && Quiet(q, []) && |q.chunks| == 1 && q.client.link == Unconnected
    requires IsConnect(q) == connect && |q.chunks[0]| <= MAX_BUFFER_SIZE
    requires !connect ==> Text(q.chunks[0]) != HttpHead.HTTP_DONE
    requires HttpHead.HeadVerb(Text(q.chunks[0])) != HttpHead.NONE
    ensures var response := if connect then HttpState.DoneReply() else q.chunks[0];
            var c' := q.(session := Some(Asked(q.session.value, response, host, service)),
                         client := DoStart(q.client.(host := Name(host), service := service)));
            CellOk(c') && DialInv(c') && c'.client.pending == multiset{Resolve}
  {
    var response := if connect then HttpState.DoneReply() else q.chunks[0];
    var q1 := q.(session := Some(Asked(q.session.value, response, host, service)));
    QuietDial(q1, [], Name(host), service);
  }

  lemma WaitRecorded(c: Cell, n: nat)
    requires CellOk(c) && WaitInv(c, Loaded(n))
    ensures var q := Recorded(c, n);
            && Quiet(q, []) && In(q, HttpWaitRequest) && q.chunks == [c.server.readBuffer[..n]]
            && q.client.link == Unconnected
  {
    GreetingTurns(c, n, []);
  }

  lemma WaitTurnsAway(c: Cell, n: nat, beyond: seq<byte>)
    requires CellOk(c) && WaitInv(c, Loaded(n)) && Filled(n) in c.server.pending
    requires HttpState.Decide(c.server.readBuffer[..n]).Refuse?
    ensures var c' := Step(c, Done(ServerSide, Filled(n), Success, beyond));
            !Live(c') && ClosedInv(c') && Answers500(c')
  {
    StepServerRead(c, n, beyond);
    WaitReads(Taken(c, ServerSide, Filled(n)), c.server.readBuffer[..n], beyond);
    WaitRecorded(c, n);
    WaitRefuses(Recorded(c, n));
    RefuseAnswers(Recorded(c, n));
  }

  /** A forwarded head tells its kind, and is no 200 reply. */
  lemma ForwardTells(q: Cell, chunk: seq<byte>)
    requires q.chunks == [chunk] && HttpState.Decide(chunk).Forward?
    ensures IsConnect(q) == HttpState.Decide(chunk).connect && Text(chunk) != HttpHead.HTTP_DONE
    ensures HttpHead.HeadVerb(Text(chunk)) != HttpHead.NONE
  {
    HttpHead.OnlyKnownMethodsConnect(Text(chunk));
    HttpHead.AcceptedHeadIsNotTheReply(Text(chunk));
  }

  /** The connection that has started connecting for a forwarded head. */
  function Dialed(q: Cell, chunk: seq<byte>, host: string, service: string, connect: bool): Cell
    requires CellOk(q) && Live(q) && |chunk| <= MAX_BUFFER_SIZE
  {
    q.(session := Some(Asked(q.session.value, if connect then HttpState.DoneReply() else chunk, host, service)),
       client := DoStart(q.client.(host := Name(host), service := service)))
  }

  lemma WaitDialShape(c: Cell, n: nat, beyond: seq<byte>, host: string, service: string, connect: bool)
    requires CellOk(c) && WaitInv(c, Loaded(n)) && Filled(n) in c.server.pending
    requires HttpState.Decide(c.server.readBuffer[..n]) == HttpHead.Forward(host, service, connect)
    ensures Step(c, Done(ServerSide, Filled(n), Success, beyond))
         == Dialed(Recorded(c, n), c.server.readBuffer[..n], host, service, connect)
  {
    StepServerRead(c, n, beyond);
    WaitReads(Taken(c, ServerSide, Filled(n)), c.server.readBuffer[..n], beyond);
  }

  lemma RecordedDials(c: Cell, n: nat, beyond: seq<byte>, host: string, service: string, connect: bool)
    requires CellOk(c) && WaitInv(c, Loaded(n)) && Filled(n) in c.server.pending
    requires HttpState.Decide(c.server.readBuffer[..n]) == HttpHead.Forward(host, service, connect)
    ensures var c' := Dialed(Recorded(c, n), c.server.readBuffer[..n], host, service, connect);
            && DialInv(c') && IsConnect(c') == connect && c'.client.pending == multiset{Resolve}
            && AimsAt(c', Endpoint(Name(host), service)) && c'.chunks == [c.server.readBuffer[..n]]
  {
    WaitRecorded(c, n);
    ForwardTells(Recorded(c, n), c.server.readBuffer[..n]);
    WaitDials(Recorded(c, n), host, service, connect);
  }

  lemma WaitTurnsToDial(c: Cell, n: nat, beyond: seq<byte>, host: string, service: string, connect: bool)
    requires CellOk(c) && WaitInv(c, Loaded(n)) && Filled(n) in c.server.pending
    requires HttpState.Decide(c.server.readBuffer[..n]) == HttpHead.Forward(host, service, connect)
    ensures var c' := Step(c, Done(ServerSide, Filled(n), Success, beyond));
            && DialInv(c') && IsConnect(c') == connect && c'.client.pending == multiset{Resolve}
            && AimsAt(c', Endpoint(Name(host), service)) && c'.chunks == [c.server.readBuffer[..n]]
  {
    WaitDialShape(c, n, beyond, host, service, connect);
    RecordedDials(c, n, beyond, host, service, connect);
  }

  lemma WaitThrows(c: Cell, n: nat, beyond: seq<byte>)
    requires CellOk(c) && WaitInv(c, Loaded(n)) && Filled(n) in c.server.pending
    requires HttpState.Decide(c.server.readBuffer[..n]).Throw?
    ensures Step(c, Done(ServerSide, Filled(n), Success, beyond)) == Recorded(c, n)
  {
    StepServerRead(c, n, beyond);
    WaitReads(Taken(c, ServerSide, Filled(n)), c.server.readBuffer[..n], beyond);
  }

  /** The head decides: the session connects to the decided host and service, or closes,
      or the exception leaves it waiting for nothing. */
  lemma WaitTurns(c: Cell, n: nat, beyond: seq<byte>)
    requires CellOk(c) && WaitInv(c, Loaded(n)) && Filled(n) in c.server.pending
    ensures var c' := Step(c, Done(ServerSide, Filled(n), Success, beyond));
            match HttpState.Decide(c.server.readBuffer[..n])
            case Throw => c' == Recorded(c, n)
            case Refuse => !Live(c') && ClosedInv(c') && Answers500(c')
            case Forward(host, service, connect) =>
              && DialInv(c') && IsConnect(c') == connect && c'.client.pending == multiset{Resolve}
              && AimsAt(c', Endpoint(Name(host), service)) && c'.chunks == [c.server.readBuffer[..n]]
  {
    match HttpState.Decide(c.server.readBuffer[..n])
    case Throw => WaitThrows(c, n, beyond);
    case Refuse => WaitTurnsAway(c, n, beyond);
    case Forward(host, service, connect) => WaitTurnsToDial(c, n, beyond, host, service, connect);
  }

  lemma WaitEnds(c: Cell, n: nat, beyond: seq<byte>)
    requires CellOk(c) && WaitInv(c, Loaded(n)) && Filled(n) in c.server.pending
    requires !HttpState.Decide(c.server.readBuffer[..n]).Throw?
    ensures var c' := Step(c, Done(ServerSide, Filled(n), Success, beyond));
            DialInv(c') || (!Live(c') && ClosedInv(c'))
  {
    WaitTurns(c, n, beyond);
  }

  lemma WaitProgresses(c: Cell, e: Event, c': Cell)
    requires CellOk(c) && In(c, HttpWaitRequest) && Callback(e)
    requires CellOk(c') && (DialInv(c') || (!Live(c') && ClosedInv(c')))
    ensures HttpInv(c') && Progresses(c, e, c')
  {
  }

  lemma WaitMoves(c: Cell, t: Token, e: Event)
    requires CellOk(c) && WaitInv(c, t) && Enabled(c, e) && !e.Done?
    ensures HttpInv(Step(c, e)) && Progresses(c, e, Step(c, e))
  {
    var t' := WaitKernel(c, t, e);
    StaysInWait(c, e, Step(c, e), t');
  }

  lemma WaitRank(c: Cell, t: Token)
    requires CellOk(c) && WaitInv(c, t)
    ensures Rank(c) == 3
  {
  }

  lemma WaitGivesUp(c: Cell, t: Token, e: Event)
    requires CellOk(c) && WaitInv(c, t) && Enabled(c, e) && Fails(e)
    ensures HttpInv(Step(c, e)) && Progresses(c, e, Step(c, e))
  {
    WaitRank(c, t);
    WaitFails(c, t, e);
    Closes(c, e, Step(c, e));
  }

  lemma WaitDone(c: Cell, t: Token, e: Event)
    requires CellOk(c) && WaitInv(c, t) && Enabled(c, e) && e.Done? && !Fails(e) && !Throws(c, e)
    ensures HttpInv(Step(c, e)) && Progresses(c, e, Step(c, e))
  {
    GreetingDone(c, t, [], e);
    if t == Shaking {
      WaitShakes(c, e.beyond);
      StaysInWait(c, e, Step(c, e), Reading);
    } else {
      WaitDecides(c, t, e);
    }
  }

  lemma WaitStep(c: Cell, t: Token, e: Event)
    requires CellOk(c) && WaitInv(c, t) && Enabled(c, e) && !Throws(c, e)
    ensures HttpInv(Step(c, e)) && Progresses(c, e, Step(c, e))
  {
    if !e.Done? {
      WaitMoves(c, t, e);
    } else if Fails(e) {
      WaitGivesUp(c, t, e);
    } else {
      WaitDone(c, t, e);
    }
  }

  lemma WaitDecides(c: Cell, t: Token, e: Event)
    requires CellOk(c) && WaitInv(c, t) && Enabled(c, e) && !Throws(c, e) && t.Loaded?
    requires e == Done(ServerSide, Filled(t.n), Success, e.beyond)
    ensures HttpInv(Step(c, e)) && Progresses(c, e, Step(c, e))
  {
    WaitEnds(c, t.n, e.beyond);
    WaitProgresses(c, e, Step(c, e));
  }

  // ---------- connecting ----------

  /** The client stream has connected: the stored response goes to the side that asked. */
  lemma ConnectShape(c: Cell, beyond: seq<byte>)
    requires CellOk(c) && DialInv(c) && Connecting in c.client.pending
    ensures var c1 := Linked(c, Connecting, Connected);
            var q := c1.(session := Some(c.session.value.(state := HttpReadyToTransferData)));
            Step(c, Done(ClientSide, Connecting, Success, beyond))
              == if IsConnect(c) then q.(server := DoWrite(q.server, HttpState.DoneReply()))
                 else q.(client := DoWrite(q.client, c.chunks[0]))
  {
    StepConnect(c, beyond);
    EstablishedConnects(Linked(c, Connecting, Connected));
  }

  lemma DialConnects(c: Cell, beyond: seq<byte>)
    requires CellOk(c) && DialInv(c) && Connecting in c.client.pending
    ensures var c' := Step(c, Done(ClientSide, Connecting, Success, beyond));
            if IsConnect(c) then ReadyInv(c', Writing(|HttpState.DoneReply()|, 0))
            else PlainOpen(c') && In(c', HttpReadyToTransferData)
                 && c'.client == DoWrite(Linked(c, Connecting, Connected).client, c.chunks[0])
                 && c'.server == c.server && c'.chunks == c.chunks
  {
    var c1 := Linked(c, Connecting, Connected);
    ConnectShape(c, beyond);
    DialingEnds(c, [], Connecting, Connected);
    var q := c1.(session := Some(c.session.value.(state := HttpReadyToTransferData)));
    if IsConnect(c) {
      QuietWrite(q, [], HttpState.DoneReply());
      assert [] + HttpState.DoneReply() == HttpState.DoneReply();
    }
  }

  lemma DialFails(c: Cell, op: Op, ec: ErrorCode, beyond: seq<byte>)
    requires CellOk(c) && DialInv(c) && op in c.client.pending && ec != Success
    ensures var c' := Step(c, Done(ClientSide, op, ec, beyond)); !Live(c') && ClosedInv(c')
  {
    var c1 := Linked(c, op, Failed(ec));
    StepConnectFails(c, op, ec, beyond);
    DialingEnds(c, [], op, Failed(ec));
    ClientErrorStops(c1, ec);
    QuietStops(c1, []);
    QuietReads(c1, []);
    StopReads(c1);
    ClosedEarly(c1, Stop(c1), []);
  }

  lemma DialRank(c: Cell)
    requires CellOk(c) && DialInv(c)
    ensures Rank(c) == 2
  {
  }

  lemma DialGivesUp(c: Cell, op: Op, ec: ErrorCode, beyond: seq<byte>)
    requires CellOk(c) && DialInv(c) && ec != Success && Enabled(c, Done(ClientSide, op, ec, beyond))
    ensures var e := Done(ClientSide, op, ec, beyond);
            HttpInv(Step(c, e)) && Progresses(c, e, Step(c, e))
  {
    var e := Done(ClientSide, op, ec, beyond);
    DialRank(c);
    DialFails(c, op, ec, beyond);
    Closes(c, e, Step(c, e));
  }

  lemma DialSucceeds(c: Cell, beyond: seq<byte>)
    requires CellOk(c) && DialInv(c) && Enabled(c, Done(ClientSide, Connecting, Success, beyond))
    ensures var e := Done(ClientSide, Connecting, Success, beyond);
            HttpInv(Step(c, e)) && Progresses(c, e, Step(c, e))
  {
    var e := Done(ClientSide, Connecting, Success, beyond);
    DialRank(c);
    DialConnects(c, beyond);
    if IsConnect(c) {
      EntersReady(c, e, Step(c, e), Writing(|HttpState.DoneReply()|, 0));
    } else {
      EntersPlain(c, e, Step(c, e));
    }
  }

  lemma DialStep(c: Cell, e: Event)
    requires CellOk(c) && DialInv(c) && Enabled(c, e)
    ensures HttpInv(Step(c, e)) && Progresses(c, e, Step(c, e))
  {
    DialingEnables(c, [], e);
    if e.ec != Success {
      DialGivesUp(c, e.op, e.ec, e.beyond);
    } else if e.op == Resolve {
      DialingResolves(c, [], e.beyond);
      EntersDial(c, e, Step(c, e));
    } else {
      DialSucceeds(c, e.beyond);
    }
  }

  // ---------- answering ----------

  lemma ReadyKernel(c: Cell, t: Token, e: Event) returns (t': Token)
    requires CellOk(c) && ReadyInv(c, t) && Enabled(c, e) && !e.Done?
    ensures ReadyInv(Step(c, e), t')
  {
    t' := GreetingKernel(c, t, HttpState.DoneReply(), e);
  }

  lemma ReadyFails(c: Cell, t: Token, e: Event)
    requires CellOk(c) && ReadyInv(c, t) && Enabled(c, e) && Fails(e)
    ensures !Live(Step(c, e)) && ClosedInv(Step(c, e))
  {
    GreetingFails(c, t, HttpState.DoneReply(), e);
    GreetingReads(c, t, HttpState.DoneReply());
    TakenReads(c, ServerSide, e.op);
    StopReads(Taken(c, ServerSide, e.op));
    ClosedEarly(c, Stop(Taken(c, ServerSide, e.op)), HttpState.DoneReply());
  }

  lemma ReadyRests(c: Cell, len: nat, beyond: seq<byte>) returns (up: Lane, down: Lane)
    requires CellOk(c) && ReadyInv(c, Writing(len, len)) && Write(len, len) in c.server.pending
    ensures RelayInv(Step(c, Done(ServerSide, Write(len, len), Success, beyond)), up, down)
    ensures up == Lane(Reading, Flatten(c.chunks), []) && down == Lane(Reading, [], HttpState.DoneReply())
    ensures Untouched(Step(c, Done(ServerSide, Write(len, len), Success, beyond)).client)
  {
    var c1 := Taken(c, ServerSide, Write(len, len));
    StepServerWrite(c, Write(len, len), beyond);
    WritesAreDone(c1);
    GreetingRests(c, len, HttpState.DoneReply());
    QuietRelay(c1, HttpState.DoneReply(), HttpDataTransferMode);
    up, down := Lane(Reading, Flatten(c.chunks), []), Lane(Reading, [], HttpState.DoneReply());
  }

  lemma ReadyRank(c: Cell, t: Token)
    requires CellOk(c) && ReadyInv(c, t)
    ensures Rank(c) == 1
  {
  }

  lemma ReadySucceeds(c: Cell, len: nat, beyond: seq<byte>)
    requires CellOk(c) && ReadyInv(c, Writing(len, len)) && Write(len, len) in c.server.pending
    ensures var e := Done(ServerSide, Write(len, len), Success, beyond);
            HttpInv(Step(c, e)) && Progresses(c, e, Step(c, e))
  {
    var e := Done(ServerSide, Write(len, len), Success, beyond);
    ReadyRank(c, Writing(len, len));
    var up, down := ReadyRests(c, len, beyond);
    EntersRelay(c, e, Step(c, e), up, down);
  }

  lemma ReadyEnds(c: Cell, t: Token, e: Event)
    requires CellOk(c) && ReadyInv(c, t) && Enabled(c, e) && e.Done? && !Fails(e)
    ensures HttpInv(Step(c, e)) && Progresses(c, e, Step(c, e))
  {
    GreetingDone(c, t, HttpState.DoneReply(), e);
    ReadySucceeds(c, t.len, e.beyond);
  }

  lemma ReadyMoves(c: Cell, t: Token, e: Event)
    requires CellOk(c) && ReadyInv(c, t) && Enabled(c, e) && !e.Done?
    ensures HttpInv(Step(c, e)) && Progresses(c, e, Step(c, e))
  {
    ReadyRank(c, t);
    var t' := ReadyKernel(c, t, e);
    EntersReady(c, e, Step(c, e), t');
  }

  lemma ReadyGivesUp(c: Cell, t: Token, e: Event)
    requires CellOk(c) && ReadyInv(c, t) && Enabled(c, e) && Fails(e)
    ensures HttpInv(Step(c, e)) && Progresses(c, e, Step(c, e))
  {
    ReadyRank(c, t);
    ReadyFails(c, t, e);
    Closes(c, e, Step(c, e));
  }

  lemma ReadyStep(c: Cell, t: Token, e: Event)
    requires CellOk(c) && ReadyInv(c, t) && Enabled(c, e)
    ensures HttpInv(Step(c, e)) && Progresses(c, e, Step(c, e))
  {
    if !e.Done? {
      ReadyMoves(c, t, e);
    } else if Fails(e) {
      ReadyGivesUp(c, t, e);
    } else {
      ReadyEnds(c, t, e);
    }
  }
}
