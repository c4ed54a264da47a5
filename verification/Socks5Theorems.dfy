/** The whole-run properties of SOCKS5 connections. */
module Socks5Theorems {
  import opened Basics
  import opened Transport
  import opened Sessions
  import opened Engine
  import opened Channel
  import opened Duplex
  import opened Dispatch
  import opened Closing
  import opened Relay
  import opened Handshake
  import opened Progress
  import opened Socks5Runs
  import Socks5
  import Socks5State

  // ---------- the remaining two states ----------

  lemma RelaySendsDown(c: Cell, up: Lane, down: Lane)
    requires CellOk(c) && RelayInv(c, up, down)
    ensures Sending(c.server, ServerScript(c))
  {
    var back := Consumed(c.client, down.token);
    assert back[0..] == back;
    PlacedSends(c.server, up.token, down.token, down.greeting + back);
    assert down.greeting + back <= ServerScript(c);
    SendingGrows(c.server, down.greeting + back, ServerScript(c));
  }

  lemma RelaySendsUp(c: Cell, up: Lane, down: Lane)
    requires CellOk(c) && RelayInv(c, up, down)
    ensures Sending(c.client, ClientScript(c))
    ensures Resolve !in c.client.pending && Connecting !in c.client.pending
  {
    RelayedPart(c, up);
    PlacedSends(c.client, down.token, up.token, ClientScript(c));
  }

  lemma RelayedPart(c: Cell, up: Lane)
    requires CellOk(c) && Carries(c.server, c.client, up)
    requires 2 <= |c.chunks| && up.head == Flatten(c.chunks[..2]) && up.greeting == []
    requires Consumed(c.server, up.token) == Flatten(c.chunks)
    ensures up.greeting + Consumed(c.server, up.token)[|up.head|..] == ClientScript(c)
  {
    FlattenConcat(c.chunks[..2], c.chunks[2..]);
    assert c.chunks[..2] + c.chunks[2..] == c.chunks;
    assert [] + ClientScript(c) == ClientScript(c);
  }

  lemma RelayCloses(c: Cell, up: Lane, down: Lane, e: Event)
    requires CellOk(c) && RelayInv(c, up, down) && Enabled(c, e) && Fails(e)
    ensures !Live(Step(c, e)) && ClosedInv(Step(c, e))
  {
    FailureCloses(c, up, down, 2, e);
    RelaySendsDown(c, up, down);
    RelaySendsUp(c, up, down);
    RelayWeight(c, up, down, 2);
    TakenWeight(c, e.side, e.op);
    RelayingReads(c, up, down, 2);
    StopCloses(c, e.side, e.op);
  }

  lemma StopCloses(c: Cell, side: Side, op: Op)
    requires LiveOk(c) && |c.chunks| >= 2 && Socks5.IsValidRequestPacket(c.chunks[1])
    requires c.client.link == Connected && Answers(c) <= c.server.sent
    requires Sending(c.server, ServerScript(c)) && Sending(c.client, ClientScript(c))
    requires Resolve !in c.client.pending && Connecting !in c.client.pending
    requires CellWeight(Taken(c, side, op)) <= 1 && ReadInOrder(c)
    ensures ClosedInv(Stop(Taken(c, side, op)))
  {
    TakenReads(c, side, op);
    StopReads(Taken(c, side, op));
    StopWeight(Taken(c, side, op));
    TakenFlushes(c, side, op, ServerScript(c), ClientScript(c));
  }

  lemma RelayContinues(c: Cell, up: Lane, down: Lane, c': Cell, up': Lane, down': Lane)
    requires CellOk(c) && RelayInv(c, up, down) && CellOk(c')
    requires RelayMoves(c, up, down, 2, c', up', down')
    ensures RelayInv(c', up', down')
  {
    assert c'.chunks[0] == c.chunks[0] && c'.chunks[1] == c.chunks[1];
  }

  lemma RelayedStep(c: Cell, up: Lane, down: Lane, e: Event) returns (up': Lane, down': Lane)
    requires CellOk(c) && RelayInv(c, up, down) && Enabled(c, e)
    ensures if Fails(e) then !Live(Step(c, e)) && ClosedInv(Step(c, e))
            else RelayInv(Step(c, e), up', down') && RelayMoves(c, up, down, 2, Step(c, e), up', down')
  {
    up', down' := RelayStep(c, up, down, 2, e);
    if Fails(e) {
      RelayCloses(c, up, down, e);
    } else {
      RelayContinues(c, up, down, Step(c, e), up', down');
    }
  }

  lemma ClosedStep(c: Cell, e: Event)
    requires CellOk(c) && !Live(c) && ClosedInv(c) && Enabled(c, e)
    ensures !Live(Step(c, e)) && ClosedInv(Step(c, e))
  {
    var c' := Step(c, e);
    ClosedWindsDown(c, e);
    FlushStep(c, ServerScript(c), ClientScript(c), e);
    assert ServerScript(c) <= ServerScript(c');
    SendingGrows(c'.server, ServerScript(c), ServerScript(c'));
  }

  /** Every step keeps the invariant. */
  lemma Socks5Step(c: Cell, e: Event)
    requires CellOk(c) && Socks5Inv(c) && Enabled(c, e)
    ensures Socks5Inv(Step(c, e))
  {
    if !Live(c) {
      ClosedStep(c, e);
    } else if t :| AuthInv(c, t) {
      AuthStep(c, t, e);
    } else if t :| RequestInv(c, t) {
      RequestStep(c, t, e);
    } else if DialInv(c) {
      DialStep(c, e);
    } else if t :| RefusalInv(c, t) {
      RefusalStep(c, t, e);
    } else if t :| ReadyInv(c, t) {
      ReadyStep(c, t, e);
    } else {
      var up, down :| RelayInv(c, up, down);
      var up', down' := RelayedStep(c, up, down, e);
    }
  }

  lemma Socks5Starts(kind: Kind)
    requires kind != TcpClient
    ensures Socks5Inv(Accepted(Socks5, kind))
    ensures Rank(Accepted(Socks5, kind)) == 5
  {
    var t := if kind == TlsServer then Shaking else Reading;
    assert AuthInv(Accepted(Socks5, kind), t);
  }

  lemma {:induction false} Socks5Run(c: Cell, events: seq<Event>)
    requires CellOk(c) && Socks5Inv(c) && Runs(c, events)
    ensures Socks5Inv(After(c, events))
    decreases |events|
  {
    if events != [] {
      Socks5Step(c, events[0]);
      Socks5Run(Step(c, events[0]), events[1..]);
    }
  }

  /** Every state that a session can reach from its acceptance. */
  lemma Reached(kind: Kind, events: seq<Event>)
    requires kind != TcpClient && Runs(Accepted(Socks5, kind), events)
    ensures Socks5Inv(After(Accepted(Socks5, kind), events))
  {
    Socks5Starts(kind);
    Socks5Run(Accepted(Socks5, kind), events);
  }

  // ---------- the output grammar ----------

  /** What may have left both streams. */
  predicate Grammar(c: Cell)
    requires CellOk(c)
  {
    && Sending(c.server, ServerScript(c))
    && Sending(c.client, ClientScript(c))
    && (c.client.sent != [] ==> c.client.link == Connected && Answers(c) <= c.server.sent)
    && (c.client.link.Failed? ==> ClientScript(c) == [])
    && ReadInOrder(c)
  }

  lemma GreetingGrammar(c: Cell, t: Token)
    requires CellOk(c) && Greeting(c, t, Answers(c)) && |c.chunks| <= 2
    ensures Grammar(c)
  {
    GreetingReads(c, t, Answers(c));
    PlacedSends(c.server, t, t, Answers(c));
    assert Answers(c) + [] == Answers(c);
    assert |c.chunks| == 2 ==> c.chunks[2..] == [];
  }

  lemma DialGrammar(c: Cell)
    requires CellOk(c) && DialInv(c)
    ensures Grammar(c)
  {
    assert c.chunks[2..] == [];
  }

  lemma RelayGrammar(c: Cell, up: Lane, down: Lane)
    requires CellOk(c) && RelayInv(c, up, down)
    ensures Grammar(c)
  {
    RelayingReads(c, up, down, 2);
    RelaySendsDown(c, up, down);
    RelaySendsUp(c, up, down);
  }

  lemma ClosedGrammar(c: Cell)
    requires CellOk(c) && !Live(c) && ClosedInv(c)
    ensures Grammar(c)
  {
    assert |c.chunks| == 2 ==> c.chunks[2..] == [];
  }

  lemma GrammarHolds(c: Cell)
    requires CellOk(c) && Socks5Inv(c)
    ensures Grammar(c)
  {
    if !Live(c) {
      ClosedGrammar(c);
    } else if t :| AuthInv(c, t) {
      GreetingGrammar(c, t);
    } else if t :| RequestInv(c, t) {
      AnswersOfOne(c);
      GreetingGrammar(c, t);
    } else if DialInv(c) {
      DialGrammar(c);
    } else if t :| RefusalInv(c, t) {
      GreetingGrammar(c, t);
    } else if t :| ReadyInv(c, t) {
      GreetingGrammar(c, t);
    } else {
      var up, down :| RelayInv(c, up, down);
      RelayGrammar(c, up, down);
    }
  }

  /** In every run the server stream sends a prefix of the two answers followed by what the
      remote host sent, and the client stream a prefix of what was read after the request; the
      outstanding write, if any, is the only one and holds the very next bytes.  Nothing goes
      to the remote host before the success answer has left, and nothing at all after a failure. */
  lemma OutputGrammar(kind: Kind, events: seq<Event>)
    requires kind != TcpClient && Runs(Accepted(Socks5, kind), events)
    ensures Grammar(After(Accepted(Socks5, kind), events))
  {
    Reached(kind, events);
    GrammarHolds(After(Accepted(Socks5, kind), events));
  }

  /** In terms of the sockets alone: what the client stream sends is what arrived on the server
      stream after the two chunks of the handshake. */
  lemma ForwardsWhatArrived(kind: Kind, events: seq<Event>)
    requires kind != TcpClient && Runs(Accepted(Socks5, kind), events)
    ensures var c := After(Accepted(Socks5, kind), events);
            if |c.chunks| < 2 then c.client.sent == []
            else Flatten(c.chunks[..2]) + c.client.sent <= c.server.received
  {
    var c := After(Accepted(Socks5, kind), events);
    OutputGrammar(kind, events);
    if |c.chunks| >= 2 {
      PrefixAfter(c.chunks, 2, c.client.sent, c.server.received);
    }
  }

  // ---------- tokens and byte counts ----------

  /** Before the relay one operation is outstanding in all; in the relay, one per direction,
      and the counters count the bytes delivered and in flight. */
  ghost predicate OneTokenEach(c: Cell)
    requires CellOk(c) && Live(c)
  {
    if c.session.value.state == DataTransferMode then
      exists up, down :: TokensCount(c, up, down, |Answers(c)|)
    else
      |c.server.pending| + |c.client.pending| == 1
  }

  lemma GreetingCounts(c: Cell, t: Token, script: seq<byte>)
    requires CellOk(c) && Greeting(c, t, script)
    ensures |c.server.pending| + |c.client.pending| == 1
  {
  }

  lemma TokensHold(c: Cell)
    requires CellOk(c) && Socks5Inv(c) && Live(c)
    ensures OneTokenEach(c)
  {
    if t :| AuthInv(c, t) {
      GreetingCounts(c, t, []);
    } else if t :| RequestInv(c, t) {
      GreetingCounts(c, t, AuthReply(c.chunks[0]));
    } else if DialInv(c) {
    } else if t :| RefusalInv(c, t) {
      GreetingCounts(c, t, Answers(c));
    } else if t :| ReadyInv(c, t) {
      GreetingCounts(c, t, Answers(c));
    } else {
      var up, down :| RelayInv(c, up, down);
      RelayCounts(c, up, down, 2);
    }
  }

  lemma SingleToken(kind: Kind, events: seq<Event>)
    requires kind != TcpClient && Runs(Accepted(Socks5, kind), events)
    ensures var c := After(Accepted(Socks5, kind), events); Live(c) ==> OneTokenEach(c)
  {
    Reached(kind, events);
    if Live(After(Accepted(Socks5, kind), events)) {
      TokensHold(After(Accepted(Socks5, kind), events));
    }
  }

  lemma TransferIsRelay(c: Cell) returns (up: Lane, down: Lane)
    requires CellOk(c) && Socks5Inv(c) && In(c, DataTransferMode)
    ensures RelayInv(c, up, down)
  {
    up, down :| RelayInv(c, up, down);
  }

  /** From its data-transfer mode on, every run in which the session stays open is a run of two
      lossless pipes, between the bytes read on either side and the bytes sent on the other. */
  lemma RelaysThroughTwoPipes(kind: Kind, events: seq<Event>, more: seq<Event>) returns (trace: seq<(Pipe, Pipe)>)
    requires kind != TcpClient && Runs(Accepted(Socks5, kind), events)
    requires var c := After(Accepted(Socks5, kind), events);
             In(c, DataTransferMode) && Runs(c, more) && Live(After(c, more))
    ensures var c := After(Accepted(Socks5, kind), events);
            IsTrace(trace) && AllLossless(trace) && ShownAlong(c, more, trace, 2, Answers(c))
  {
    var c := After(Accepted(Socks5, kind), events);
    Reached(kind, events);
    var up, down := TransferIsRelay(c);
    trace := RelayRun(c, up, down, 2, more);
  }

  // ---------- the handshake ends ----------

  predicate Shaking5(c: Cell) {
    Live(c) && !IsHttp(c.session.value.state) && c.session.value.state != DataTransferMode
  }

  lemma RankFalls(c: Cell, e: Event)
    requires CellOk(c) && Socks5Inv(c) && Shaking5(c) && Enabled(c, e)
    ensures Progresses(c, e, Step(c, e))
  {
    if t :| AuthInv(c, t) {
      AuthStep(c, t, e);
    } else if t :| RequestInv(c, t) {
      RequestStep(c, t, e);
    } else if DialInv(c) {
      DialStep(c, e);
    } else if t :| RefusalInv(c, t) {
      RefusalStep(c, t, e);
    } else {
      var t :| ReadyInv(c, t);
      ReadyStep(c, t, e);
    }
  }

  lemma RankStaysZero(c: Cell, e: Event)
    requires CellOk(c) && Socks5Inv(c) && !Shaking5(c) && Enabled(c, e)
    ensures Rank(Step(c, e)) == 0
  {
    if !Live(c) {
      ClosedStep(c, e);
    } else {
      NotHttp(c);
      var up, down :| RelayInv(c, up, down);
      var up', down' := RelayedStep(c, up, down, e);
    }
  }

  lemma RankZero(c: Cell)
    requires CellOk(c) && Socks5Inv(c)
    ensures Rank(c) == 0 <==> !Shaking5(c)
  {
    if Live(c) {
      NotHttp(c);
    }
  }

  lemma NotHttp(c: Cell)
    requires CellOk(c) && Socks5Inv(c) && Live(c)
    ensures !IsHttp(c.session.value.state)
  {
  }

  lemma {:induction false} RankBudget(c: Cell, events: seq<Event>)
    requires CellOk(c) && Socks5Inv(c) && Runs(c, events)
    ensures Rank(c) == 0 ==> Rank(After(c, events)) == 0
    ensures Rank(After(c, events)) > 0 ==> Callbacks(events) + Rank(After(c, events)) <= Rank(c)
    decreases |events|
  {
    if events != [] {
      Socks5Step(c, events[0]);
      RankZero(c);
      if Shaking5(c) {
        RankFalls(c, events[0]);
      } else {
        RankStaysZero(c, events[0]);
      }
      RankBudget(Step(c, events[0]), events[1..]);
    }
  }

  /** Over TCP and over TLS, after at most five callbacks a session relays or is closed. */
  lemma HandshakeEnds(kind: Kind, events: seq<Event>)
    requires kind != TcpClient && Runs(Accepted(Socks5, kind), events)
    requires Callbacks(events) >= 5
    ensures var c := After(Accepted(Socks5, kind), events);
            !Live(c) || c.session.value.state == DataTransferMode
  {
    var c := After(Accepted(Socks5, kind), events);
    Socks5Starts(kind);
    RankBudget(Accepted(Socks5, kind), events);
    Socks5Run(Accepted(Socks5, kind), events);
    RankZero(c);
    if Live(c) {
      NotHttp(c);
    }
  }

  // ---------- no session is stuck ----------

  lemma TokensWait(c: Cell)
    requires CellOk(c) && Live(c) && !IsHttp(c.session.value.state) && OneTokenEach(c)
    ensures Waits(c)
  {
    if c.session.value.state == DataTransferMode {
      var up, down :| TokensCount(c, up, down, |Answers(c)|);
      TokensOutstanding(c, up, down);
    }
  }

  lemma LiveWaits(c: Cell)
    requires CellOk(c) && Socks5Inv(c) && Live(c)
    ensures Waits(c)
  {
    NotHttp(c);
    TokensHold(c);
    TokensWait(c);
  }

  lemma TransferStays(c: Cell, e: Event)
    requires CellOk(c) && Socks5Inv(c) && Enabled(c, e) && In(c, DataTransferMode) && Live(Step(c, e))
    ensures Transferring(Step(c, e).session.value.state)
  {
    RankStaysZero(c, e);
    Socks5Step(c, e);
    NotHttp(Step(c, e));
    RankZero(Step(c, e));
  }

  lemma NothingDrops(c: Cell, e: Event)
    requires CellOk(c) && Socks5Inv(c) && Live(c) && Enabled(c, e)
    ensures Waits(c) && DropsNothing(c, Step(c, e))
  {
    LiveWaits(c);
    Socks5Step(c, e);
    if Live(Step(c, e)) {
      LiveWaits(Step(c, e));
      NotHttp(c);
      if c.session.value.state == DataTransferMode {
        TransferStays(c, e);
      }
      WaitsAndDropsNothing(c, Step(c, e));
    }
  }

  /** No event of such a session ends the program. */
  lemma NeverThrows(c: Cell, e: Event)
    requires CellOk(c) && Socks5Inv(c) && Enabled(c, e)
    ensures !Throws(c, e)
  {
    if Live(c) {
      NotHttp(c);
    }
  }

  /** Every live session waits for exactly one operation until it transfers data and then for
      exactly two, and no event makes an open session lose one: no completion is met with
      nothing. */
  lemma NeverStuck(kind: Kind, events: seq<Event>, e: Event)
    requires kind != TcpClient && Runs(Accepted(Socks5, kind), events)
    requires Live(After(Accepted(Socks5, kind), events)) && Enabled(After(Accepted(Socks5, kind), events), e)
    ensures var c := After(Accepted(Socks5, kind), events); Waits(c) && DropsNothing(c, Step(c, e))
  {
    Reached(kind, events);
    NothingDrops(After(Accepted(Socks5, kind), events), e);
  }

  lemma ClosedIsLight(c: Cell)
    requires CellOk(c) && Socks5Inv(c) && !Live(c)
    ensures CellWeight(c) <= 3
  {
  }

  /** A closed session is left with at most three completions, and then with none. */
  lemma ClosedSessionsDie(kind: Kind, events: seq<Event>, more: seq<Event>)
    requires kind != TcpClient && Runs(Accepted(Socks5, kind), events)
    requires var c := After(Accepted(Socks5, kind), events); !Live(c) && Runs(c, more)
    ensures Completions(more) <= 3
  {
    var c := After(Accepted(Socks5, kind), events);
    Reached(kind, events);
    ClosedIsLight(c);
    ClosedDiesOut(c, more);
  }

  // ---------- the greeting ----------

  lemma GreetingToken(c: Cell, n: nat) returns (t: Token)
    requires CellOk(c) && Socks5Inv(c) && In(c, AuthRequest) && Filled(n) in c.server.pending
    ensures t == Loaded(n) && AuthInv(c, t)
  {
    t :| AuthInv(c, t);
    WhoseOperation(c.server, t, t, Filled(n));
  }

  lemma AnswerStands(c: Cell)
    requires CellOk(c) && RequestInv(c, Writing(2, 0)) && c.server.sent == []
    ensures c.server.pending == multiset{Write(2, 0)}
    ensures c.server.writeBuffer[..2] == AuthReply(c.chunks[0])
  {
    assert [] + c.server.writeBuffer[0..2] == c.server.writeBuffer[..2];
  }

  lemma NothingSentYet(c: Cell, t: Token)
    requires CellOk(c) && AuthInv(c, t) && !t.Writing?
    ensures c.server.sent == []
  {
  }

  /** Every method-selection chunk is answered, with 0 exactly if it offers that method and with
      0xff otherwise, and in both cases the session goes on to the request. */
  lemma EveryGreetingIsAnswered(kind: Kind, events: seq<Event>, n: nat, beyond: seq<byte>)
    requires kind != TcpClient && Runs(Accepted(Socks5, kind), events)
    requires var c := After(Accepted(Socks5, kind), events); In(c, AuthRequest) && Filled(n) in c.server.pending
    requires n <= MAX_BUFFER_SIZE
    ensures var c := After(Accepted(Socks5, kind), events);
            var d := Step(c, Done(ServerSide, Filled(n), Success, beyond));
            && In(d, ConnectionRequest) && d.server.pending == multiset{Write(2, 0)}
            && d.server.writeBuffer[..2]
               == [5, if Socks5.OffersNoAuth(c.server.readBuffer[..n]) then 0 else 0xff]
  {
    var c := After(Accepted(Socks5, kind), events);
    var e := Done(ServerSide, Filled(n), Success, beyond);
    Reached(kind, events);
    var t := GreetingToken(c, n);
    NothingSentYet(c, t);
    AuthTurns(c, n, beyond);
    HandlersSendNothing(c, e);
    AnswerStands(Step(c, e));
  }

  /** A new session comes to wait for its greeting. */
  lemma HandshakePasses(start: Cell) returns (c: Cell)
    requires CellOk(start) && AuthInv(start, Shaking)
    ensures CellOk(c) && Reaches(start, c) && AuthInv(c, Reading)
  {
    var e := Done(ServerSide, Handshake, Success, []);
    AuthShakes(start, []);
    c := Step(start, e);
    ReachesSelf(start);
    ReachesStep(start, start, e);
  }

  lemma StartsWaiting(kind: Kind) returns (c: Cell)
    requires kind != TcpClient
    ensures CellOk(c) && Reaches(Accepted(Socks5, kind), c) && AuthInv(c, Reading)
  {
    var start := Accepted(Socks5, kind);
    if kind == TlsServer {
      c := HandshakePasses(start);
    } else {
      ReachesSelf(start);
      c := start;
    }
  }

  lemma GreetingComes(c: Cell, chunk: seq<byte>) returns (d: Cell)
    requires CellOk(c) && AuthInv(c, Reading) && |chunk| <= MAX_BUFFER_SIZE
    ensures CellOk(d) && Reaches(c, d) && AuthInv(d, Loaded(|chunk|))
    ensures d.server.readBuffer[..|chunk|] == chunk && Filled(|chunk|) in d.server.pending
  {
    var e := Arrive(ServerSide, chunk);
    GreetingArrives(c, [], chunk);
    d := Step(c, e);
    ReachesSelf(c);
    ReachesStep(c, c, e);
  }

  lemma GreetingAnswered(c: Cell, chunk: seq<byte>) returns (d: Cell)
    requires CellOk(c) && AuthInv(c, Loaded(|chunk|)) && Filled(|chunk|) in c.server.pending
    requires |chunk| <= MAX_BUFFER_SIZE && c.server.readBuffer[..|chunk|] == chunk
    ensures CellOk(d) && Reaches(c, d) && RequestInv(d, Writing(2, 0)) && d.chunks == [chunk]
  {
    var e := Done(ServerSide, Filled(|chunk|), Success, []);
    AuthTurns(c, |chunk|, []);
    d := Step(c, e);
    ReachesSelf(c);
    ReachesStep(c, c, e);
  }

  lemma AnswerLeaves(c: Cell) returns (d: Cell)
    requires CellOk(c) && RequestInv(c, Writing(2, 0))
    ensures CellOk(d) && Reaches(c, d) && RequestInv(d, Writing(2, 2)) && d.chunks == c.chunks
  {
    var e := Leave(ServerSide, Write(2, 0), 2);
    GreetingLeaves(c, Write(2, 0), AuthReply(c.chunks[0]), 2);
    d := Step(c, e);
    ReachesSelf(c);
    ReachesStep(c, c, e);
  }

  lemma AnswerIsOver(c: Cell) returns (d: Cell)
    requires CellOk(c) && RequestInv(c, Writing(2, 2))
    ensures CellOk(d) && Reaches(c, d) && RequestInv(d, Reading) && d.chunks == c.chunks
  {
    var e := Done(ServerSide, Write(2, 2), Success, []);
    RequestRests(c, 2, []);
    d := Step(c, e);
    ReachesSelf(c);
    ReachesStep(c, c, e);
  }

  lemma RequestComes(c: Cell, chunk: seq<byte>) returns (d: Cell)
    requires CellOk(c) && RequestInv(c, Reading) && |chunk| <= MAX_BUFFER_SIZE
    ensures CellOk(d) && Reaches(c, d) && RequestInv(d, Loaded(|chunk|)) && d.chunks == c.chunks
    ensures d.server.readBuffer[..|chunk|] == chunk && Filled(|chunk|) in d.server.pending
  {
    var e := Arrive(ServerSide, chunk);
    GreetingArrives(c, AuthReply(c.chunks[0]), chunk);
    d := Step(c, e);
    ReachesSelf(c);
    ReachesStep(c, c, e);
  }

  /** Where the client stream connects to. */
  function Target(c: Cell): Endpoint {
    Endpoint(c.client.host, c.client.service)
  }

  lemma RequestTaken(c: Cell, chunk: seq<byte>, beyond: seq<byte>) returns (d: Cell)
    requires CellOk(c) && RequestInv(c, Loaded(|chunk|)) && Filled(|chunk|) in c.server.pending
    requires |chunk| <= MAX_BUFFER_SIZE && c.server.readBuffer[..|chunk|] == chunk
    requires Socks5.Accepts(chunk, beyond)
    ensures CellOk(d) && Reaches(c, d) && DialInv(d) && d.chunks == c.chunks + [chunk]
    ensures d.client.pending == multiset{Resolve}
    ensures Target(d) == Socks5.RemoteAddress(chunk, beyond).value
  {
    var e := Done(ServerSide, Filled(|chunk|), Success, beyond);
    RequestTurns(c, |chunk|, beyond);
    d := Step(c, e);
    ReachesSelf(c);
    ReachesStep(c, c, e);
  }

  /** From its acceptance to waiting for the request, whatever the greeting was. */
  lemma GreetingsPass(kind: Kind, greeting: seq<byte>) returns (d: Cell)
    requires kind != TcpClient && |greeting| <= MAX_BUFFER_SIZE
    ensures CellOk(d) && Reaches(Accepted(Socks5, kind), d) && RequestInv(d, Reading) && d.chunks == [greeting]
  {
    var start := Accepted(Socks5, kind);
    var c := StartsWaiting(kind);
    var c1 := GreetingComes(c, greeting);
    var c2 := GreetingAnswered(c1, greeting);
    var c3 := AnswerLeaves(c2);
    d := AnswerIsOver(c3);
    ReachesOn(start, c, c1);
    ReachesOn(start, c1, c2);
    ReachesOn(start, c2, c3);
    ReachesOn(start, c3, d);
  }

  /** Whatever the greeting offered, a session that has answered it starts a connection for
      every accepted request. */
  lemma AnyGreetingMayConnect(kind: Kind, greeting: seq<byte>, request: seq<byte>, beyond: seq<byte>)
    returns (d: Cell)
    requires kind != TcpClient && |greeting| <= MAX_BUFFER_SIZE && |request| <= MAX_BUFFER_SIZE
    requires Socks5.Accepts(request, beyond)
    ensures CellOk(d) && Reaches(Accepted(Socks5, kind), d) && In(d, ConnectionEstablished)
    ensures d.server.sent == [5, if Socks5.OffersNoAuth(greeting) then 0 else 0xff]
    ensures d.server.received == greeting + request
    ensures DialInv(d) && d.chunks == [greeting] + [request] && d.client.pending == multiset{Resolve}
    ensures Target(d) == Socks5.RemoteAddress(request, beyond).value
  {
    var start := Accepted(Socks5, kind);
    var c := GreetingsPass(kind, greeting);
    var c1 := RequestComes(c, request);
    d := RequestTaken(c1, request, beyond);
    ReachesOn(start, c, c1);
    ReachesOn(start, c1, d);
    assert d.chunks[0] == greeting;
    TwoChunks(greeting, request);
  }

  lemma TwoChunks(a: seq<byte>, b: seq<byte>)
    ensures Flatten([a] + [b]) == a + b
  {
    FlattenSnoc([a], b);
    FlattenSnoc([], a);
    assert [] + [a] == [a];
  }

  /** A concrete refused greeting: method 2 only.  Its session still connects to 127.0.0.1:80. */
  lemma RefusedGreetingExample() returns (d: Cell)
    ensures CellOk(d) && Reaches(Accepted(Socks5, TcpServer), d) && In(d, ConnectionEstablished)
    ensures d.server.sent == [5, 0xff]
  {
    var greeting: seq<byte> := [5, 1, 2];
    var request: seq<byte> := [5, 1, 0, 1, 127, 0, 0, 1, 0, 80];
    assert greeting[2..3] == [2];
    d := AnyGreetingMayConnect(TcpServer, greeting, request, []);
  }

  // ---------- the request and its answer ----------

  /** While a session connects or answers, the stored packet is the request chunk, a valid one,
      in which only the second byte may have been replaced: by 0 after success, and by one of
      the failure codes otherwise. */
  predicate ReplyShape(c: Cell)
    requires Live(c)
  {
    var ses := c.session.value;
    ses.state == ConnectionEstablished || ses.state == ReadyToTransferData ==>
      && Requested(c)
      && |ses.response| == |c.chunks[1]| >= 10
      && (c.client.link == Unconnected ==> ses.response == c.chunks[1])
      && (c.client.link == Connected ==> ses.response == c.chunks[1][1 := 0])
      && (c.client.link.Failed? ==>
            ses.response[1] in {1, 3, 4, 5, 6} && ses.response == c.chunks[1][1 := ses.response[1]])
  }

  lemma ReplyKeepsShape(kind: Kind, events: seq<Event>)
    requires kind != TcpClient && Runs(Accepted(Socks5, kind), events)
    ensures var c := After(Accepted(Socks5, kind), events); Live(c) ==> ReplyShape(c)
  {
    var c := After(Accepted(Socks5, kind), events);
    Reached(kind, events);
    if Live(c) {
      ShapeHolds(c);
    }
  }

  lemma ShapeHolds(c: Cell)
    requires CellOk(c) && Socks5Inv(c) && Live(c)
    ensures ReplyShape(c)
  {
  }

  lemma RequestToken(c: Cell, n: nat) returns (t: Token)
    requires CellOk(c) && Socks5Inv(c) && In(c, ConnectionRequest) && Filled(n) in c.server.pending
    ensures t == Loaded(n) && RequestInv(c, t)
  {
    t :| RequestInv(c, t);
    WhoseOperation(c.server, t, t, Filled(n));
  }

  /** A session that reads a CONNECT request of RFC 1928 section 4 starts connecting to exactly
      the encoded address and port, as soon as the chunk has ten bytes, and closes otherwise. */
  lemma ConnectsWhereAsked(
      kind: Kind, events: seq<Event>, n: nat, beyond: seq<byte>,
      reserved: byte, a: Socks5.Address, port: nat, tail: seq<byte>)
    requires kind != TcpClient && Runs(Accepted(Socks5, kind), events)
    requires Socks5.WellFormed(a) && port < 0x1_0000
    requires var c := After(Accepted(Socks5, kind), events);
             && In(c, ConnectionRequest) && Filled(n) in c.server.pending && n <= MAX_BUFFER_SIZE
             && c.server.readBuffer[..n] == Socks5.EncodeRequest(reserved, a, port) + tail
    ensures var c := After(Accepted(Socks5, kind), events);
            var c' := Step(c, Done(ServerSide, Filled(n), Success, beyond));
            if n >= 10 then
              && In(c', ConnectionEstablished) && c'.client.pending == multiset{Resolve}
              && AimsAt(c', Endpoint(Socks5.HostOf(a), Socks5.Decimal(port)))
              && Socks5.ParseDecimal(c'.client.service) == port
            else !Live(c')
  {
    var c := After(Accepted(Socks5, kind), events);
    Reached(kind, events);
    var t := RequestToken(c, n);
    Socks5.RequestRoundTrip(reserved, a, port, tail, beyond);
    RequestTurns(c, n, beyond);
  }

  lemma RequestTurnsTo(c: Cell, n: nat, beyond: seq<byte>)
    requires CellOk(c) && Socks5Inv(c) && In(c, ConnectionRequest) && Filled(n) in c.server.pending
    requires n <= MAX_BUFFER_SIZE && Socks5.Accepts(c.server.readBuffer[..n], beyond)
    ensures var c' := Step(c, Done(ServerSide, Filled(n), Success, beyond));
            && In(c', ConnectionEstablished)
            && Target(c') == Socks5.RemoteAddress(c.server.readBuffer[..n], beyond).value
  {
    var t := RequestToken(c, n);
    RequestTurns(c, n, beyond);
  }

  /** Every session that is given an accepted request starts connecting, and where to depends on
      the request alone exactly when that is complete: otherwise also on the memory past it. */
  lemma TargetStandsAloneExactlyIfComplete(kind: Kind, events: seq<Event>, n: nat)
    requires kind != TcpClient && Runs(Accepted(Socks5, kind), events)
    requires var c := After(Accepted(Socks5, kind), events);
             && In(c, ConnectionRequest) && Filled(n) in c.server.pending && n <= MAX_BUFFER_SIZE
             && Socks5.Accepts(c.server.readBuffer[..n], [])
    ensures var c := After(Accepted(Socks5, kind), events);
            && (forall beyond :: In(Step(c, Done(ServerSide, Filled(n), Success, beyond)), ConnectionEstablished))
            && ((forall beyond :: Target(Step(c, Done(ServerSide, Filled(n), Success, beyond)))
                               == Target(Step(c, Done(ServerSide, Filled(n), Success, []))))
                <==> Socks5.Complete(c.server.readBuffer[..n]))
  {
    var c := After(Accepted(Socks5, kind), events);
    var packet := c.server.readBuffer[..n];
    Reached(kind, events);
    Socks5.StandsAloneExactlyIfComplete(packet);
    forall beyond
      ensures In(Step(c, Done(ServerSide, Filled(n), Success, beyond)), ConnectionEstablished)
      ensures Socks5.RemoteAddress(packet, beyond)
           == Some(Target(Step(c, Done(ServerSide, Filled(n), Success, beyond))))
    {
      Socks5.AcceptanceStandsAlone(packet, beyond);
      RequestTurnsTo(c, n, beyond);
    }
  }

  /** For every greeting and every accepted request that is not complete, two runs in which the
      very same bytes arrived and the sessions connect to different places. */
  lemma IncompleteRequestsDiverge(kind: Kind, greeting: seq<byte>, request: seq<byte>) returns (d1: Cell, d2: Cell)
    requires kind != TcpClient && |greeting| <= MAX_BUFFER_SIZE && |request| <= MAX_BUFFER_SIZE
    requires Socks5.Accepts(request, []) && !Socks5.Complete(request)
    ensures CellOk(d1) && Reaches(Accepted(Socks5, kind), d1) && In(d1, ConnectionEstablished)
    ensures CellOk(d2) && Reaches(Accepted(Socks5, kind), d2) && In(d2, ConnectionEstablished)
    ensures d1.server.received == d2.server.received == greeting + request && Target(d1) != Target(d2)
  {
    Socks5.StandsAloneExactlyIfComplete(request);
    var beyond :| Socks5.RemoteAddress(request, beyond) != Socks5.RemoteAddress(request, []);
    Socks5.AcceptanceStandsAlone(request, beyond);
    d1 := AnyGreetingMayConnect(kind, greeting, request, beyond);
    d2 := AnyGreetingMayConnect(kind, greeting, request, []);
  }

  lemma AttemptIsDial(c: Cell, op: Op)
    requires CellOk(c) && Socks5Inv(c) && In(c, ConnectionEstablished) && op in c.client.pending
    requires op == Resolve || op == Connecting
    ensures DialInv(c) && c.server.sent == AuthReply(c.chunks[0])
    ensures |c.chunks[1]| >= 10
  {
  }

  /** The write of a reply is outstanding, and the write buffer holds the reply. */
  predicate Holds(s: Stream, reply: seq<byte>) {
    s.pending == multiset{Write(|reply|, 0)} && |reply| <= |s.writeBuffer| && s.writeBuffer[..|reply|] == reply
  }

  lemma AnswerIsHeld(c: Cell, script: seq<byte>, reply: seq<byte>)
    requires CellOk(c) && Greeting(c, Writing(|reply|, 0), script + reply) && c.server.sent == script
    ensures Holds(c.server, reply)
  {
    assert c.server.writeBuffer[0..|reply|] == c.server.writeBuffer[..|reply|];
    assert (script + reply)[|script|..] == reply;
    assert (c.server.sent + c.server.writeBuffer[..|reply|])[|script|..] == c.server.writeBuffer[..|reply|];
  }

  lemma SuccessIsAnswered(c: Cell, beyond: seq<byte>)
    requires CellOk(c) && DialInv(c) && Connecting in c.client.pending && c.server.sent == AuthReply(c.chunks[0])
    requires SameSent(c, Step(c, Done(ClientSide, Connecting, Success, beyond)))
    ensures var d := Step(c, Done(ClientSide, Connecting, Success, beyond));
            In(d, ReadyToTransferData) && d.client.pending == multiset{} && Holds(d.server, c.chunks[1][1 := 0])
  {
    DialConnects(c, beyond);
    ConnectKeeps(c, beyond);
    AnswerIsHeld(Step(c, Done(ClientSide, Connecting, Success, beyond)), AuthReply(c.chunks[0]), c.chunks[1][1 := 0]);
  }

  lemma FailureIsAnswered(c: Cell, op: Op, ec: ErrorCode, beyond: seq<byte>)
    requires CellOk(c) && DialInv(c) && op in c.client.pending && ec != Success
    requires c.server.sent == AuthReply(c.chunks[0]) && SameSent(c, Step(c, Done(ClientSide, op, ec, beyond)))
    ensures var d := Step(c, Done(ClientSide, op, ec, beyond));
            && In(d, ConnectionEstablished) && d.client.pending == multiset{}
            && Holds(d.server, c.chunks[1][1 := Socks5State.ResponseErrorCode(ec)])
  {
    DialFails(c, op, ec, beyond);
    FailureKeeps(c, op, ec, beyond);
    AnswerIsHeld(Step(c, Done(ClientSide, op, ec, beyond)), AuthReply(c.chunks[0]),
                 c.chunks[1][1 := Socks5State.ResponseErrorCode(ec)]);
  }

  predicate AttemptAnswered(request: seq<byte>, ec: ErrorCode, d: Cell) {
    && |request| >= 10 && d.client.pending == multiset{}
    && Holds(d.server, request[1 := if ec == Success then 0 else Socks5State.ResponseErrorCode(ec)])
    && In(d, if ec == Success then ReadyToTransferData else ConnectionEstablished)
  }

  lemma DialIsAnswered(c: Cell, op: Op, ec: ErrorCode, beyond: seq<byte>)
    requires CellOk(c) && DialInv(c) && op in c.client.pending && c.server.sent == AuthReply(c.chunks[0])
    requires op == Connecting || (op == Resolve && ec != Success)
    ensures AttemptAnswered(c.chunks[1], ec, Step(c, Done(ClientSide, op, ec, beyond)))
  {
    HandlersSendNothing(c, Done(ClientSide, op, ec, beyond));
    if ec == Success {
      SuccessIsAnswered(c, beyond);
    } else {
      FailureIsAnswered(c, op, ec, beyond);
    }
  }

  /** In every run, the end of a connection attempt is answered by the request chunk with its
      second byte replaced: by 0, and then the relay can begin; or by the code of the error. */
  lemma EveryAttemptIsAnswered(kind: Kind, events: seq<Event>, op: Op, ec: ErrorCode, beyond: seq<byte>)
    requires kind != TcpClient && Runs(Accepted(Socks5, kind), events)
    requires var c := After(Accepted(Socks5, kind), events);
             && In(c, ConnectionEstablished) && op in c.client.pending
             && (op == Connecting || (op == Resolve && ec != Success))
    ensures var c := After(Accepted(Socks5, kind), events);
            var d := Step(c, Done(ClientSide, op, ec, beyond));
            |c.chunks| == 2 && AttemptAnswered(c.chunks[1], ec, d)
  {
    var c := After(Accepted(Socks5, kind), events);
    Reached(kind, events);
    AttemptIsDial(c, op);
    DialIsAnswered(c, op, ec, beyond);
  }

  // ---------- the totals at the end ----------

  lemma NothingCountedYet(c: Cell)
    requires CellOk(c) && Socks5Inv(c) && Live(c) && !In(c, DataTransferMode)
    ensures c.session.value.toRemote == 0 && c.session.value.toLocal == 0 && c.client.sent == []
  {
    if t :| AuthInv(c, t) {
    } else if t :| RequestInv(c, t) {
    } else if DialInv(c) {
    } else if t :| RefusalInv(c, t) {
    } else {
      var t :| ReadyInv(c, t);
    }
  }

  /** The event that closes a session finds totals that overstate the bytes delivered by at most
      one chunk in each direction; before the relay both are zero and nothing was forwarded. */
  lemma TotalsAtClose(kind: Kind, events: seq<Event>, e: Event)
    requires kind != TcpClient && Runs(Accepted(Socks5, kind), events)
    requires var c := After(Accepted(Socks5, kind), events);
             Live(c) && Enabled(c, e) && !Live(Step(c, e))
    ensures var c := After(Accepted(Socks5, kind), events);
            var ses, d := c.session.value, Step(c, e);
            if In(c, DataTransferMode) then TotalsClose(ses, d, |Answers(c)|)
            else ses.toRemote == 0 && ses.toLocal == 0 && d.client.sent == []
  {
    var c := After(Accepted(Socks5, kind), events);
    Reached(kind, events);
    KernelKeepsOpen(c, e);
    HandlersSendNothing(c, e);
    if In(c, DataTransferMode) {
      TotalsHold(c);
    } else {
      NothingCountedYet(c);
    }
  }

  lemma TotalsHold(c: Cell)
    requires CellOk(c) && Socks5Inv(c) && In(c, DataTransferMode)
    ensures TotalsClose(c.session.value, c, |Answers(c)|)
  {
    TokensHold(c);
    var up, down :| TokensCount(c, up, down, |Answers(c)|);
  }
}
