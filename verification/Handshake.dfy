/** The phases before the relay, as both protocols use them: one token on the server stream,
    or one connection attempt on the client stream. */
module Handshake {
  import opened Basics
  import opened Transport
  import opened Sessions
  import opened Engine
  import opened Channel
  import opened Duplex
  import opened Dispatch
  import opened Closing
  import opened Relay

  predicate In(c: Cell, state: Phase) { Live(c) && c.session.value.state == state }

  /** The connection once a finished read of the server side has been recorded. */
  function Recorded(c: Cell, n: nat): (q: Cell)
    requires CellOk(c) && n <= MAX_BUFFER_SIZE
    ensures CellOk(q)
  {
    Taken(c, ServerSide, Filled(n)).(chunks := c.chunks + [c.server.readBuffer[..n]])
  }

  /** The session connects to this endpoint, and its client stream has been told so. */
  predicate AimsAt(c: Cell, to: Endpoint) {
    && Live(c) && Endpoint(c.session.value.host, c.session.value.service) == to
    && Endpoint(c.client.host, c.client.service) == to
  }

  /** Nothing has passed through the client stream yet. */
  predicate Untouched(s: Stream) {
    s.received == [] && s.sent == []
  }

  /** The one outstanding operation belongs to the token, on the server stream; all that the
      server stream has been given to send is the script. */
  predicate Greeting(c: Cell, t: Token, script: seq<byte>)
    requires CellOk(c)
  {
    && Live(c) && c.session.value.toRemote == 0 && c.session.value.toLocal == 0
    && TokenOk(t) && Placed(c.server, t, t)
    && InputOk(c.server, t) && Consumed(c.server, t) == Flatten(c.chunks)
    && OutputOk(c.server, t, script)
    && c.client.pending == multiset{} && Untouched(c.client)
  }

  /** No operation is outstanding: the moment inside a handler, before the next one is started. */
  predicate Quiet(c: Cell, script: seq<byte>)
    requires CellOk(c)
  {
    && Live(c) && c.session.value.toRemote == 0 && c.session.value.toLocal == 0
    && c.server.pending == multiset{}
    && c.server.received == Flatten(c.chunks) && c.server.sent == script
    && c.client.pending == multiset{} && Untouched(c.client)
  }

  /** What the session was given to read is, in order, what arrived on the server stream first. */
  predicate ReadInOrder(c: Cell) {
    Flatten(c.chunks) <= c.server.received
  }

  lemma GreetingReads(c: Cell, t: Token, script: seq<byte>)
    requires CellOk(c) && Greeting(c, t, script)
    ensures ReadInOrder(c)
  {
  }

  lemma QuietReads(c: Cell, script: seq<byte>)
    requires CellOk(c) && Quiet(c, script)
    ensures ReadInOrder(c)
  {
  }

  lemma RelayingReads(c: Cell, up: Lane, down: Lane, k: nat)
    requires CellOk(c) && Relaying(c, up, down, k)
    ensures ReadInOrder(c)
  {
  }

  lemma StopReads(c: Cell)
    requires CellOk(c) && ReadInOrder(c)
    ensures ReadInOrder(Stop(c))
  {
  }

  lemma TakenReads(c: Cell, side: Side, op: Op)
    requires CellOk(c) && ReadInOrder(c)
    ensures ReadInOrder(Taken(c, side, op))
  {
  }

  /** The one outstanding operation is the connection attempt of the client stream. */
  predicate Dialing(c: Cell, script: seq<byte>)
    requires CellOk(c)
  {
    && Live(c) && c.session.value.toRemote == 0 && c.session.value.toLocal == 0
    && c.server.pending == multiset{}
    && c.server.received == Flatten(c.chunks) && c.server.sent == script
    && (c.client.pending == multiset{Resolve} || c.client.pending == multiset{Connecting})
    && Untouched(c.client) && c.client.link == Unconnected
  }

  // ---------- from quiet to the next operation ----------

  lemma QuietRead(c: Cell, script: seq<byte>)
    requires CellOk(c) && Quiet(c, script)
    ensures Greeting(c.(server := DoRead(c.server)), Reading, script)
  {
  }

  lemma QuietWrite(c: Cell, script: seq<byte>, event: seq<byte>)
    requires CellOk(c) && Quiet(c, script) && |event| <= MAX_BUFFER_SIZE
    ensures Greeting(c.(server := DoWrite(c.server, event)), Writing(|event|, 0), script + event)
  {
    WriteOutput(c.server, event, script);
  }

  lemma QuietDial(c: Cell, script: seq<byte>, host: HostText, service: string)
    requires CellOk(c) && Quiet(c, script) && c.client.link == Unconnected
    ensures Dialing(Connect(c, host, service), script)
  {
  }

  /** Both streams once a read has been started on each of them. */
  lemma QuietUp(c: Cell, script: seq<byte>)
    requires CellOk(c) && Quiet(c, script)
    ensures Carries(DoRead(c.server), DoRead(c.client), Lane(Reading, Flatten(c.chunks), []))
  {
    assert c.server.received[|Flatten(c.chunks)|..] == [];
  }

  lemma QuietDown(c: Cell, script: seq<byte>)
    requires CellOk(c) && Quiet(c, script)
    ensures Carries(DoRead(c.client), DoRead(c.server), Lane(Reading, [], script))
  {
    assert c.client.received[0..] == [];
    assert script + [] == script;
  }

  lemma QuietCouples(c: Cell, script: seq<byte>)
    requires CellOk(c) && Quiet(c, script)
    ensures Coupled(DoRead(c.server), DoRead(c.client),
                    Lane(Reading, Flatten(c.chunks), []), Lane(Reading, [], script))
  {
    QuietUp(c, script);
    QuietDown(c, script);
  }

  /** Reading on both sides starts the relay. */
  lemma QuietRelay(c: Cell, script: seq<byte>, state: Phase)
    requires CellOk(c) && Quiet(c, script) && c.client.link == Connected && Transferring(state)
    ensures var c' := ChangeState(ReadClient(ReadServer(c)), state);
            Relaying(c', Lane(Reading, Flatten(c.chunks), []), Lane(Reading, [], script), |c.chunks|)
  {
    QuietCouples(c, script);
    assert c.chunks[..|c.chunks|] == c.chunks;
  }

  // ---------- from one operation to quiet ----------

  /** The connection once its only server operation is over and its handler runs. */
  lemma GreetingTurns(c: Cell, n: nat, script: seq<byte>)
    requires CellOk(c) && Greeting(c, Loaded(n), script)
    ensures var chunk := c.server.readBuffer[..n];
            Quiet(Taken(c, ServerSide, Filled(n)).(chunks := c.chunks + [chunk]), script)
  {
    var chunk := c.server.readBuffer[..n];
    ConsumeInput(c.server, n);
    FlattenSnoc(c.chunks, chunk);
  }

  lemma GreetingRests(c: Cell, len: nat, script: seq<byte>)
    requires CellOk(c) && Greeting(c, Writing(len, len), script)
    ensures Quiet(Taken(c, ServerSide, Write(len, len)), script)
  {
    WriteIsOver(c.server, len, script);
  }

  lemma GreetingShakes(c: Cell, script: seq<byte>)
    requires CellOk(c) && Greeting(c, Shaking, script)
    ensures Greeting(c.(server := DoRead(Finish(c.server, Handshake))), Reading, script)
  {
  }

  lemma GreetingArrives(c: Cell, script: seq<byte>, bytes: seq<byte>)
    requires CellOk(c) && Greeting(c, Reading, script) && |bytes| <= MAX_BUFFER_SIZE
    ensures Read in c.server.pending
    ensures Greeting(c.(server := Fill(c.server, bytes)), Loaded(|bytes|), script)
  {
    PlacedFill(c.server, Reading, bytes);
    FillInput(c.server, bytes);
  }

  lemma DrainKeepsInput(s: Stream, op: Op, k: nat)
    requires StreamOk(s) && op in s.pending && op.Write? && op.sent + k <= op.len
    requires InputOk(s, Writing(op.len, op.sent)) && TokenOk(Writing(op.len, op.sent))
    ensures InputOk(Drain(s, op, k), Writing(op.len, op.sent + k))
    ensures Consumed(Drain(s, op, k), Writing(op.len, op.sent + k)) == Consumed(s, Writing(op.len, op.sent))
  {
  }

  lemma GreetingLeaves(c: Cell, op: Op, script: seq<byte>, k: nat)
    requires CellOk(c) && op.Write? && Greeting(c, Writing(op.len, op.sent), script) && op.sent + k <= op.len
    ensures op in c.server.pending
    ensures Greeting(c.(server := Drain(c.server, op, k)), Writing(op.len, op.sent + k), script)
  {
    PlacedDrain(c.server, Writing(op.len, op.sent), op, k);
    DrainKeepsInput(c.server, op, k);
    DrainOutput(c.server, op, k, script);
  }

  /** Only the token can be moved. */
  lemma GreetingMoves(c: Cell, t: Token, script: seq<byte>, e: Event)
    requires CellOk(c) && Greeting(c, t, script) && Enabled(c, e) && !e.Done?
    ensures e.side == ServerSide
    ensures e.Arrive? ==> t.Reading?
    ensures e.Leave? ==> t == Writing(e.op.len, e.op.sent)
  {
    WhoseOperation(c.server, t, t, if e.Arrive? then Read else e.op);
  }

  lemma GreetingReceives(c: Cell, script: seq<byte>, bytes: seq<byte>)
    requires CellOk(c) && Greeting(c, Reading, script) && Enabled(c, Arrive(ServerSide, bytes))
    ensures var c' := Step(c, Arrive(ServerSide, bytes));
            c' == c.(server := c'.server) && Greeting(c', Loaded(|bytes|), script)
  {
    GreetingArrives(c, script, bytes);
  }

  lemma GreetingSends(c: Cell, script: seq<byte>, op: Op, k: nat)
    requires CellOk(c) && Enabled(c, Leave(ServerSide, op, k))
    requires op.Write? && Greeting(c, Writing(op.len, op.sent), script)
    ensures var c' := Step(c, Leave(ServerSide, op, k));
            c' == c.(server := c'.server) && Greeting(c', Writing(op.len, op.sent + k), script)
  {
    GreetingLeaves(c, op, script, k);
  }

  /** The kernel moves the token on. */
  lemma GreetingKernel(c: Cell, t: Token, script: seq<byte>, e: Event) returns (t': Token)
    requires CellOk(c) && Greeting(c, t, script) && Enabled(c, e) && !e.Done?
    ensures e.side == ServerSide
    ensures Step(c, e) == c.(server := Step(c, e).server)
    ensures Greeting(Step(c, e), t', script)
    ensures (t.Reading? && t'.Loaded?) || (t.Writing? && t'.Writing?)
  {
    GreetingMoves(c, t, script, e);
    if e.Arrive? {
      t' := Loaded(|e.bytes|);
      GreetingReceives(c, script, e.bytes);
    } else {
      t' := Writing(e.op.len, e.op.sent + e.k);
      GreetingSends(c, script, e.op, e.k);
    }
  }

  /** A completion is that of the token. */
  lemma GreetingDone(c: Cell, t: Token, script: seq<byte>, e: Event)
    requires CellOk(c) && Greeting(c, t, script) && Enabled(c, e) && e.Done?
    ensures e.side == ServerSide
    ensures match t
            case Shaking => e.op == Handshake
            case Reading => e.op == Read && Fails(e)
            case Loaded(n) => e.op == Filled(n)
            case Writing(len, sent) => e.op == Write(len, sent) && (!Fails(e) ==> sent == len)
  {
    WhoseOperation(c.server, t, t, e.op);
  }

  /** A failure stops the session. */
  lemma GreetingFails(c: Cell, t: Token, script: seq<byte>, e: Event)
    requires CellOk(c) && Greeting(c, t, script) && Enabled(c, e) && Fails(e)
    ensures Step(c, e) == Stop(Taken(c, ServerSide, e.op))
    ensures Flushing(Step(c, e), script, []) && CellWeight(Step(c, e)) <= 3
  {
    GreetingWeight(c, t, script);
    TakenWeight(c, ServerSide, e.op);
    StopWeight(Taken(c, ServerSide, e.op));
    GreetingDone(c, t, script, e);
    StepServerFails(c, e.op, e.ec, e.beyond);
    var c1 := Taken(c, ServerSide, e.op);
    ServerErrorStops(c1, e.ec);
    PlacedSends(c.server, t, t, script);
    FinishSends(c.server, script, e.op);
    StopFlushes(c1, script, []);
  }

  lemma GreetingWeight(c: Cell, t: Token, script: seq<byte>)
    requires CellOk(c) && Greeting(c, t, script)
    ensures CellWeight(c) <= 2
  {
  }

  /** A quiet connection may be stopped. */
  lemma QuietStops(c: Cell, script: seq<byte>)
    requires CellOk(c) && Quiet(c, script)
    ensures Flushing(Stop(c), script, []) && CellWeight(Stop(c)) <= 3
  {
    StopWeight(c);
    StopFlushes(c, script, []);
  }

  // ---------- the connection attempt ----------

  lemma DialingEnables(c: Cell, script: seq<byte>, e: Event)
    requires CellOk(c) && Dialing(c, script) && Enabled(c, e)
    ensures e.Done? && e.side == ClientSide && (e.op == Resolve || e.op == Connecting)
    ensures c.client.pending == multiset{e.op}
  {
  }

  lemma DialingResolves(c: Cell, script: seq<byte>, beyond: seq<byte>)
    requires CellOk(c) && Dialing(c, script) && Enabled(c, Done(ClientSide, Resolve, Success, beyond))
    ensures var c' := Step(c, Done(ClientSide, Resolve, Success, beyond));
            Dialing(c', script) && c' == c.(client := c.client.(pending := multiset{Connecting}))
  {
    StepResolve(c, beyond);
  }

  lemma DialingEnds(c: Cell, script: seq<byte>, op: Op, link: Link)
    requires CellOk(c) && Dialing(c, script) && op in c.client.pending
    ensures Quiet(Linked(c, op, link), script)
  {
  }
}
