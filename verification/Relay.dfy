/** The relaying phase, common to SOCKS5 and to HTTP CONNECT: a connection that relays refines
    two independent lossless pipes, one step at a time. */
module Relay {
  import opened Basics
  import opened Transport
  import opened Sessions
  import opened Engine
  import opened Channel
  import opened Duplex
  import opened Dispatch
  import Closing

  /** The up lane runs from the requesting side to the remote host, behind the k chunks of the
      handshake; the down lane runs back, behind what the handshake has answered. */
  predicate Relaying(c: Cell, up: Lane, down: Lane, k: nat)
    requires CellOk(c)
  {
    && Live(c) && Transferring(c.session.value.state) && c.client.link == Connected
    && Coupled(c.server, c.client, up, down)
    && k <= |c.chunks| && up.head == Flatten(c.chunks[..k]) && up.greeting == [] && down.head == []
    && Consumed(c.server, up.token) == Flatten(c.chunks)
    && c.session.value.toRemote == |Flatten(c.chunks)| - |up.head|
    && c.session.value.toLocal == |Consumed(c.client, down.token)|
  }

  function UpPipe(c: Cell, up: Lane): Pipe
    requires CellOk(c) && Carries(c.server, c.client, up)
  {
    PipeOf(c.server, c.client, up)
  }

  function DownPipe(c: Cell, down: Lane): Pipe
    requires CellOk(c) && Carries(c.client, c.server, down)
  {
    PipeOf(c.client, c.server, down)
  }

  predicate SameSession(c: Cell, c': Cell) {
    && Live(c) && Live(c') && c'.session.value.state == c.session.value.state
    && c'.client.link == c.client.link && c.chunks <= c'.chunks
  }

  /** One step of the up pipe, none of the down pipe. */
  predicate UpMoves(c: Cell, up: Lane, down: Lane, k: nat, c': Cell, up': Lane)
    requires CellOk(c) && Relaying(c, up, down, k) && CellOk(c')
  {
    && Relaying(c', up', down, k) && up' == up.(token := up'.token)
    && PipeStep(UpPipe(c, up), UpPipe(c', up'))
    && DownPipe(c', down) == DownPipe(c, down)
    && SameSession(c, c')
  }

  predicate DownMoves(c: Cell, up: Lane, down: Lane, k: nat, c': Cell, down': Lane)
    requires CellOk(c) && Relaying(c, up, down, k) && CellOk(c')
  {
    && Relaying(c', up, down', k) && down' == down.(token := down'.token)
    && UpPipe(c', up) == UpPipe(c, up)
    && PipeStep(DownPipe(c, down), DownPipe(c', down'))
    && SameSession(c, c')
  }

  /** What a step of a relaying connection comes to. */
  predicate RelayMoves(c: Cell, up: Lane, down: Lane, k: nat, c': Cell, up': Lane, down': Lane)
    requires CellOk(c) && Relaying(c, up, down, k) && CellOk(c')
  {
    || (down' == down && UpMoves(c, up, down, k, c', up'))
    || (up' == up && DownMoves(c, up, down, k, c', down'))
  }

  // ---------- the moves, as explicit changes of the connection ----------

  /** A move of the up token that keeps the books is a move of the connection. */
  lemma UpLift(c: Cell, up: Lane, down: Lane, k: nat, c': Cell, t: Token)
    requires CellOk(c) && Relaying(c, up, down, k) && CellOk(c')
    requires Advances(c.server, c.client, up, down, c'.server, c'.client, t)
    requires SameSession(c, c')
    requires Consumed(c'.server, t) == Flatten(c'.chunks)
    requires c'.session.value.toRemote == |Flatten(c'.chunks)| - |up.head|
    requires c'.session.value.toLocal == c.session.value.toLocal
    requires Consumed(c'.client, down.token) == Consumed(c.client, down.token)
    ensures UpMoves(c, up, down, k, c', up.(token := t))
  {
    assert c'.chunks[..k] == c.chunks[..k];
  }

  lemma DownLift(c: Cell, up: Lane, down: Lane, k: nat, c': Cell, t: Token)
    requires CellOk(c) && Relaying(c, up, down, k) && CellOk(c')
    requires Advances(c.client, c.server, down, up, c'.client, c'.server, t)
    requires SameSession(c, c') && c'.chunks == c.chunks && c'.session.value.toRemote == c.session.value.toRemote
    requires Consumed(c'.server, up.token) == Consumed(c.server, up.token)
    requires c'.session.value.toLocal == |Consumed(c'.client, t)|
    ensures DownMoves(c, up, down, k, c', down.(token := t))
  {
  }

  lemma ServerArrives(c: Cell, up: Lane, down: Lane, k: nat, bytes: seq<byte>)
    requires CellOk(c) && Relaying(c, up, down, k) && Read in c.server.pending && |bytes| <= MAX_BUFFER_SIZE
    ensures UpMoves(c, up, down, k, c.(server := Fill(c.server, bytes)), up.(token := Loaded(|bytes|)))
  {
    Arrives(c.server, c.client, up, down, bytes);
    FillInput(c.server, bytes);
    WhoseOperation(c.server, up.token, down.token, Read);
    UpLift(c, up, down, k, c.(server := Fill(c.server, bytes)), Loaded(|bytes|));
  }

  lemma ClientArrives(c: Cell, up: Lane, down: Lane, k: nat, bytes: seq<byte>)
    requires CellOk(c) && Relaying(c, up, down, k) && Read in c.client.pending && |bytes| <= MAX_BUFFER_SIZE
    ensures DownMoves(c, up, down, k, c.(client := Fill(c.client, bytes)), down.(token := Loaded(|bytes|)))
  {
    Arrives(c.client, c.server, down, up, bytes);
    FillInput(c.client, bytes);
    WhoseOperation(c.client, down.token, up.token, Read);
    DownLift(c, up, down, k, c.(client := Fill(c.client, bytes)), Loaded(|bytes|));
  }

  lemma ServerLeaves(c: Cell, up: Lane, down: Lane, k: nat, op: Op, n: nat)
    requires CellOk(c) && Relaying(c, up, down, k)
    requires op in c.server.pending && op.Write? && op.sent + n <= op.len
    ensures DownMoves(c, up, down, k, c.(server := Drain(c.server, op, n)),
                      down.(token := Writing(op.len, op.sent + n)))
  {
    Leaves(c.client, c.server, down, up, op, n);
    WhoseOperation(c.server, up.token, down.token, op);
    DownLift(c, up, down, k, c.(server := Drain(c.server, op, n)), Writing(op.len, op.sent + n));
  }

  lemma ClientLeaves(c: Cell, up: Lane, down: Lane, k: nat, op: Op, n: nat)
    requires CellOk(c) && Relaying(c, up, down, k)
    requires op in c.client.pending && op.Write? && op.sent + n <= op.len
    ensures UpMoves(c, up, down, k, c.(client := Drain(c.client, op, n)), up.(token := Writing(op.len, op.sent + n)))
  {
    Leaves(c.server, c.client, up, down, op, n);
    WhoseOperation(c.client, down.token, up.token, op);
    UpLift(c, up, down, k, c.(client := Drain(c.client, op, n)), Writing(op.len, op.sent + n));
  }

  /** A chunk read from the server side is counted, recorded, and given to the client stream. */
  function UpTurn(c: Cell, n: nat): (r: Cell)
    requires LiveOk(c) && n <= MAX_BUFFER_SIZE
    ensures CellOk(r)
  {
    var chunk, ses := c.server.readBuffer[..n], c.session.value;
    c.(session := Some(ses.(toRemote := ses.toRemote + n)), chunks := c.chunks + [chunk],
       server := Finish(c.server, Filled(n)), client := DoWrite(c.client, chunk))
  }

  function DownTurn(c: Cell, n: nat): (r: Cell)
    requires LiveOk(c) && n <= MAX_BUFFER_SIZE
    ensures CellOk(r)
  {
    var chunk, ses := c.client.readBuffer[..n], c.session.value;
    c.(session := Some(ses.(toLocal := ses.toLocal + n)),
       client := Finish(c.client, Filled(n)), server := DoWrite(c.server, chunk))
  }

  lemma ServerTurns(c: Cell, up: Lane, down: Lane, k: nat, n: nat)
    requires CellOk(c) && Relaying(c, up, down, k) && Filled(n) in c.server.pending && n <= MAX_BUFFER_SIZE
    ensures UpMoves(c, up, down, k, UpTurn(c, n), up.(token := Writing(n, 0)))
  {
    var chunk := c.server.readBuffer[..n];
    Turns(c.server, c.client, up, down, n);
    WhoseOperation(c.server, up.token, down.token, Filled(n));
    ConsumeInput(c.server, n);
    FlattenSnoc(c.chunks, chunk);
    UpLift(c, up, down, k, UpTurn(c, n), Writing(n, 0));
  }

  lemma ClientTurns(c: Cell, up: Lane, down: Lane, k: nat, n: nat)
    requires CellOk(c) && Relaying(c, up, down, k) && Filled(n) in c.client.pending && n <= MAX_BUFFER_SIZE
    ensures DownMoves(c, up, down, k, DownTurn(c, n), down.(token := Writing(n, 0)))
  {
    Turns(c.client, c.server, down, up, n);
    WhoseOperation(c.client, down.token, up.token, Filled(n));
    ConsumeInput(c.client, n);
    DownLift(c, up, down, k, DownTurn(c, n), Writing(n, 0));
  }

  lemma ServerRests(c: Cell, up: Lane, down: Lane, k: nat, op: Op)
    requires CellOk(c) && Relaying(c, up, down, k)
    requires op in c.server.pending && op.Write? && op.sent == op.len
    ensures DownMoves(c, up, down, k,
                      c.(server := Finish(c.server, op), client := DoRead(c.client)), down.(token := Reading))
  {
    Rests(c.client, c.server, down, up, op);
    WhoseOperation(c.server, up.token, down.token, op);
    DownLift(c, up, down, k, c.(server := Finish(c.server, op), client := DoRead(c.client)), Reading);
  }

  lemma ClientRests(c: Cell, up: Lane, down: Lane, k: nat, op: Op)
    requires CellOk(c) && Relaying(c, up, down, k)
    requires op in c.client.pending && op.Write? && op.sent == op.len
    ensures UpMoves(c, up, down, k,
                    c.(client := Finish(c.client, op), server := DoRead(c.server)), up.(token := Reading))
  {
    Rests(c.server, c.client, up, down, op);
    WhoseOperation(c.client, down.token, up.token, op);
    UpLift(c, up, down, k, c.(client := Finish(c.client, op), server := DoRead(c.server)), Reading);
  }

  // ---------- the steps are these moves ----------

  lemma StepUpTurns(c: Cell, n: nat, beyond: seq<byte>)
    requires TransferOk(c) && Filled(n) in c.server.pending && n <= MAX_BUFFER_SIZE
    ensures Step(c, Done(ServerSide, Filled(n), Success, beyond)) == UpTurn(c, n)
  {
    StepServerRead(c, n, beyond);
    TransferServerRead(Taken(c, ServerSide, Filled(n)), c.server.readBuffer[..n], beyond);
  }

  lemma StepDownTurns(c: Cell, n: nat, beyond: seq<byte>)
    requires TransferOk(c) && Filled(n) in c.client.pending && 0 < n <= MAX_BUFFER_SIZE
    ensures Step(c, Done(ClientSide, Filled(n), Success, beyond)) == DownTurn(c, n)
  {
    StepClientRead(c, n, beyond);
    TransferClientRead(Taken(c, ClientSide, Filled(n)), c.client.readBuffer[..n]);
  }

  lemma StepDownRests(c: Cell, op: Op, beyond: seq<byte>)
    requires TransferOk(c) && op in c.server.pending && op.Write? && op.sent == op.len
    ensures Step(c, Done(ServerSide, op, Success, beyond))
         == c.(server := Finish(c.server, op), client := DoRead(c.client))
  {
    StepServerWrite(c, op, beyond);
    TransferWrites(Taken(c, ServerSide, op));
  }

  lemma StepUpRests(c: Cell, op: Op, beyond: seq<byte>)
    requires TransferOk(c) && op in c.client.pending && op.Write? && op.sent == op.len
    ensures Step(c, Done(ClientSide, op, Success, beyond))
         == c.(client := Finish(c.client, op), server := DoRead(c.server))
  {
    StepClientWrite(c, op, beyond);
    TransferWrites(Taken(c, ClientSide, op));
  }

  lemma RelayWeight(c: Cell, up: Lane, down: Lane, k: nat)
    requires CellOk(c) && Relaying(c, up, down, k)
    ensures Closing.CellWeight(c) == 2
  {
    PlacedWeight(c.server, up.token, down.token);
    PlacedWeight(c.client, down.token, up.token);
  }

  lemma PlacedWeight(s: Stream, r: Token, w: Token)
    requires Placed(s, r, w) && !r.Shaking? && !w.Shaking?
    ensures Closing.Weight(s) == (if r.Writing? then 0 else 1) + (if w.Writing? then 1 else 0)
  {
  }

  /** A failed operation closes the session. */
  lemma FailureCloses(c: Cell, up: Lane, down: Lane, k: nat, e: Event)
    requires CellOk(c) && Relaying(c, up, down, k) && Enabled(c, e) && Fails(e)
    ensures Step(c, e) == Stop(Taken(c, e.side, e.op))
  {
    var c1 := Taken(c, e.side, e.op);
    if e.side == ServerSide {
      WhoseOperation(c.server, up.token, down.token, e.op);
      StepServerFails(c, e.op, e.ec, e.beyond);
      ServerErrorStops(c1, e.ec);
    } else {
      WhoseOperation(c.client, down.token, up.token, e.op);
      StepClientFails(c, e.op, e.ec, e.beyond);
      ClientErrorStops(c1, e.ec);
    }
  }

  lemma ServerDoneRelays(c: Cell, up: Lane, down: Lane, k: nat, op: Op, beyond: seq<byte>)
    returns (up': Lane, down': Lane)
    requires CellOk(c) && Relaying(c, up, down, k) && Enabled(c, Done(ServerSide, op, Success, beyond))
    ensures RelayMoves(c, up, down, k, Step(c, Done(ServerSide, op, Success, beyond)), up', down')
  {
    up', down' := up, down;
    WhoseOperation(c.server, up.token, down.token, op);
    if op.Filled? {
      StepUpTurns(c, op.n, beyond);
      ServerTurns(c, up, down, k, op.n);
      up' := up.(token := Writing(op.n, 0));
    } else {
      StepDownRests(c, op, beyond);
      ServerRests(c, up, down, k, op);
      down' := down.(token := Reading);
    }
  }

  lemma ClientDoneRelays(c: Cell, up: Lane, down: Lane, k: nat, op: Op, beyond: seq<byte>)
    returns (up': Lane, down': Lane)
    requires CellOk(c) && Relaying(c, up, down, k) && Enabled(c, Done(ClientSide, op, Success, beyond))
    requires op != Filled(0)
    ensures RelayMoves(c, up, down, k, Step(c, Done(ClientSide, op, Success, beyond)), up', down')
  {
    up', down' := up, down;
    WhoseOperation(c.client, down.token, up.token, op);
    if op.Filled? {
      StepDownTurns(c, op.n, beyond);
      ClientTurns(c, up, down, k, op.n);
      down' := down.(token := Writing(op.n, 0));
    } else {
      StepUpRests(c, op, beyond);
      ClientRests(c, up, down, k, op);
      up' := up.(token := Reading);
    }
  }

  lemma KernelRelays(c: Cell, up: Lane, down: Lane, k: nat, e: Event)
    returns (up': Lane, down': Lane)
    requires CellOk(c) && Relaying(c, up, down, k) && Enabled(c, e) && !e.Done?
    ensures RelayMoves(c, up, down, k, Step(c, e), up', down')
  {
    up', down' := up, down;
    match e {
      case Arrive(ServerSide, bytes) =>
        ServerArrives(c, up, down, k, bytes);
        up' := up.(token := Loaded(|bytes|));
      case Arrive(ClientSide, bytes) =>
        ClientArrives(c, up, down, k, bytes);
        down' := down.(token := Loaded(|bytes|));
      case Leave(ServerSide, op, n) =>
        ServerLeaves(c, up, down, k, op, n);
        down' := down.(token := Writing(op.len, op.sent + n));
      case Leave(ClientSide, op, n) =>
        ClientLeaves(c, up, down, k, op, n);
        up' := up.(token := Writing(op.len, op.sent + n));
    }
  }

  /** Simulation: every step of a relaying connection closes it, or is one step of one of the
      two pipes while the other stands still. */
  lemma RelayStep(c: Cell, up: Lane, down: Lane, k: nat, e: Event)
    returns (up': Lane, down': Lane)
    requires CellOk(c) && Relaying(c, up, down, k) && Enabled(c, e)
    ensures Fails(e) ==> Step(c, e) == Stop(Taken(c, e.side, e.op))
    ensures !Fails(e) ==> RelayMoves(c, up, down, k, Step(c, e), up', down')
  {
    up', down' := up, down;
    if Fails(e) {
      FailureCloses(c, up, down, k, e);
    } else if !e.Done? {
      up', down' := KernelRelays(c, up, down, k, e);
    } else if e.side == ServerSide {
      up', down' := ServerDoneRelays(c, up, down, k, e.op, e.beyond);
    } else {
      up', down' := ClientDoneRelays(c, up, down, k, e.op, e.beyond);
    }
  }

  // ---------- byte counts ----------

  function InFlightOf(t: Token): int {
    if t.Writing? then t.len - t.sent else 0
  }

  /** Each direction has one outstanding operation: {server read, client write} and {client
      read, server write}.  Each counter is the bytes delivered in its direction, not counting
      the answered ones of the handshake, plus those in flight; none are in flight while the
      token is at a read. */
  predicate TokensCount(c: Cell, up: Token, down: Token, answered: nat)
    requires CellOk(c) && Live(c)
  {
    && !up.Shaking? && !down.Shaking?
    && TokensPlaced(c, up, down)
    && c.session.value.toRemote == |c.client.sent| + InFlightOf(up)
    && c.session.value.toLocal == |c.server.sent| - answered + InFlightOf(down)
    && 0 <= InFlightOf(up) <= MAX_BUFFER_SIZE && 0 <= InFlightOf(down) <= MAX_BUFFER_SIZE
  }

  predicate TokensPlaced(c: Cell, up: Token, down: Token) {
    Placed(c.server, up, down) && Placed(c.client, down, up)
  }

  lemma RelayCounts(c: Cell, up: Lane, down: Lane, k: nat)
    requires CellOk(c) && Relaying(c, up, down, k)
    ensures TokensCount(c, up.token, down.token, |down.greeting|)
  {
    LaneCounts(c.server, c.client, up);
    LaneCounts(c.client, c.server, down);
  }

  lemma LaneCounts(from: Stream, to: Stream, d: Lane)
    requires StreamOk(from) && StreamOk(to) && Carries(from, to, d)
    ensures |to.sent| + InFlightOf(d.token) == |d.greeting| + |Consumed(from, d.token)| - |d.head|
    ensures 0 <= InFlightOf(d.token) <= MAX_BUFFER_SIZE
  {
  }

  /** The totals that are logged when a session closes overstate what has been delivered by at
      most one chunk in each direction. */
  predicate TotalsClose(ses: Session, d: Cell, answered: nat) {
    && 0 <= ses.toRemote - |d.client.sent| <= MAX_BUFFER_SIZE
    && 0 <= ses.toLocal - (|d.server.sent| - answered) <= MAX_BUFFER_SIZE
  }

  lemma TokensOutstanding(c: Cell, up: Token, down: Token)
    requires TokensPlaced(c, up, down)
    ensures |c.server.pending| + |c.client.pending| == 2
  {
    TokenParts(up);
    TokenParts(down);
    assert |c.server.pending| == |ReadPart(up)| + |WritePart(down)|;
    assert |c.client.pending| == |ReadPart(down)| + |WritePart(up)|;
  }

  lemma TokenParts(t: Token)
    ensures |ReadPart(t)| + |WritePart(t)| == 1
  {
  }

  // ---------- whole relays ----------

  /** The abstract machine: two pipes, one of which makes a step. */
  predicate TwoPipesStep(a: (Pipe, Pipe), b: (Pipe, Pipe)) {
    (PipeStep(a.0, b.0) && b.1 == a.1) || (b.0 == a.0 && PipeStep(a.1, b.1))
  }

  predicate IsTrace(trace: seq<(Pipe, Pipe)>) {
    trace != [] && forall i :: 0 <= i < |trace| - 1 ==> TwoPipesStep(trace[i], trace[i + 1])
  }

  lemma FirstRelayStep(c: Cell, up: Lane, down: Lane, k: nat, events: seq<Event>)
    returns (up': Lane, down': Lane)
    requires CellOk(c) && Relaying(c, up, down, k) && events != []
    requires Runs(c, events) && Live(After(c, events))
    ensures var c' := Step(c, events[0]);
            && Relaying(c', up', down', k) && down'.greeting == down.greeting
            && TwoPipesStep((UpPipe(c, up), DownPipe(c, down)), (UpPipe(c', up'), DownPipe(c', down')))
  {
    var c1 := Step(c, events[0]);
    if !Live(c1) {
      Closing.ClosedForGood(c1, events[1..]);
    }
    up', down' := RelayStep(c, up, down, k, events[0]);
  }

  /** What comes out of either end of a relay is a prefix of what went in at the other. */
  lemma RelayIsFifo(c: Cell, up: Lane, down: Lane, k: nat)
    requires CellOk(c) && Relaying(c, up, down, k)
    ensures Lossless(UpPipe(c, up)) && Lossless(DownPipe(c, down))
    ensures UpPipe(c, up).sink <= UpPipe(c, up).source && DownPipe(c, down).sink <= DownPipe(c, down).source
  {
    CarriesLossless(c.server, c.client, up);
    CarriesLossless(c.client, c.server, down);
  }

  /** Two pipes as they show at the connection: all that was read from the server side is the
      first k chunks and then the source of the up pipe, and so on. */
  predicate ShownBy(c: Cell, pipes: (Pipe, Pipe), k: nat, greeting: seq<byte>) {
    && k <= |c.chunks|
    && c.server.received == Flatten(c.chunks[..k]) + pipes.0.source && c.client.sent == pipes.0.sink
    && c.client.received == pipes.1.source && c.server.sent == greeting + pipes.1.sink
  }

  lemma RelayingShows(c: Cell, up: Lane, down: Lane, k: nat)
    requires CellOk(c) && Relaying(c, up, down, k)
    ensures ShownBy(c, (UpPipe(c, up), DownPipe(c, down)), k, down.greeting)
  {
    HeadSplits(up.head, Consumed(c.server, up.token), c.server.received);
    assert c.client.sent[0..] == c.client.sent && c.client.received[0..] == c.client.received;
    HeadSplits(down.greeting, down.greeting, c.server.sent);
  }

  lemma HeadSplits(head: seq<byte>, middle: seq<byte>, all: seq<byte>)
    requires head <= middle <= all
    ensures all == head + all[|head|..]
  {
  }

  /** The trace shows, element by element, every connection that the run passes through. */
  predicate ShownAlong(c: Cell, events: seq<Event>, trace: seq<(Pipe, Pipe)>, k: nat, greeting: seq<byte>)
    requires CellOk(c)
  {
    && |trace| == |events| + 1
    && forall i :: 0 <= i <= |events| ==>
                     Runs(c, events[..i]) && ShownBy(After(c, events[..i]), trace[i], k, greeting)
  }

  lemma RunUnfolds(c: Cell, p: seq<Event>, e: Event, q: seq<Event>)
    requires CellOk(c) && p != [] && p[0] == e && p[1..] == q && Enabled(c, e) && !Throws(c, e)
    ensures Runs(c, p) == Runs(Step(c, e), q)
    ensures Runs(c, p) ==> After(c, p) == After(Step(c, e), q)
  {
  }

  lemma PrefixSplits(events: seq<Event>, i: nat)
    requires 0 < i <= |events|
    ensures events[..i] != [] && events[..i][0] == events[0] && events[..i][1..] == events[1..][..i - 1]
  {
  }

  /** A run up to its i-th event, and the same from its second connection on. */
  lemma RunPrefix(c: Cell, events: seq<Event>, i: nat)
    requires CellOk(c) && 0 < i <= |events| && Enabled(c, events[0]) && !Throws(c, events[0])
    ensures Runs(c, events[..i]) == Runs(Step(c, events[0]), events[1..][..i - 1])
    ensures Runs(c, events[..i]) ==> After(c, events[..i]) == After(Step(c, events[0]), events[1..][..i - 1])
  {
    PrefixSplits(events, i);
    RunUnfolds(c, events[..i], events[0], events[1..][..i - 1]);
  }

  lemma ShownAlongGrows(c: Cell, events: seq<Event>, first: (Pipe, Pipe), rest: seq<(Pipe, Pipe)>, k: nat,
                        greeting: seq<byte>)
    requires CellOk(c) && Runs(c, events) && events != [] && ShownBy(c, first, k, greeting)
    requires ShownAlong(Step(c, events[0]), events[1..], rest, k, greeting)
    ensures ShownAlong(c, events, [first] + rest, k, greeting)
  {
    var trace := [first] + rest;
    forall i | 0 <= i <= |events|
      ensures Runs(c, events[..i]) && ShownBy(After(c, events[..i]), trace[i], k, greeting)
    {
      if i > 0 {
        RunPrefix(c, events, i);
        assert trace[i] == rest[i - 1];
      }
    }
  }

  predicate AllLossless(trace: seq<(Pipe, Pipe)>) {
    forall i :: 0 <= i < |trace| ==> Lossless(trace[i].0) && Lossless(trace[i].1)
  }

  lemma TraceGrows(first: (Pipe, Pipe), rest: seq<(Pipe, Pipe)>)
    requires IsTrace(rest) && TwoPipesStep(first, rest[0]) && AllLossless(rest)
    requires Lossless(first.0) && Lossless(first.1)
    ensures IsTrace([first] + rest) && AllLossless([first] + rest)
  {
  }

  /** Refinement: a run of a relaying connection that is still open at its end is, step by
      step, a run of the abstract machine of two lossless pipes, and the pipes show at every
      connection on the way. */
  lemma {:induction false} RelayRun(c: Cell, up: Lane, down: Lane, k: nat, events: seq<Event>)
    returns (trace: seq<(Pipe, Pipe)>)
    requires CellOk(c) && Relaying(c, up, down, k) && Runs(c, events) && Live(After(c, events))
    ensures ShownAlong(c, events, trace, k, down.greeting)
    ensures IsTrace(trace) && AllLossless(trace)
    ensures trace[0] == (UpPipe(c, up), DownPipe(c, down))
    decreases |events|
  {
    var first := (UpPipe(c, up), DownPipe(c, down));
    RelayingShows(c, up, down, k);
    RelayIsFifo(c, up, down, k);
    if events == [] {
      trace := [first];
    } else {
      var up', down' := FirstRelayStep(c, up, down, k, events);
      var rest := RelayRun(Step(c, events[0]), up', down', k, events[1..]);
      TraceGrows(first, rest);
      ShownAlongGrows(c, events, first, rest, k, down.greeting);
      trace := [first] + rest;
    }
  }
}
