/** When writes overlap: exactly the sessions whose head names another method than CONNECT can
    start a second write on a stream before the first is over, and then corrupt what they
    forward. */
module HttpOverlap {
  import opened Basics
  import opened Transport
  import opened Sessions
  import opened Engine
  import opened Channel
  import opened Dispatch
  import opened Closing
  import opened Relay
  import opened Handshake
  import opened HttpRuns
  import HttpTheorems
  import HttpHead
  import HttpState

  predicate SingleWrites(c: Cell) {
    AtMostOneWrite(c.server) && AtMostOneWrite(c.client)
  }

  /** What the session has been given to forward: for CONNECT, all after the head; for another
      method, the head as well. */
  function ToForward(c: Cell): seq<byte> {
    if IsConnect(c) then ClientScript(c) else Flatten(c.chunks)
  }

  ghost predicate NeverOverlaps(c: Cell)
    requires CellOk(c)
  {
    forall d :: Reaches(c, d) ==> SingleWrites(d)
  }

  ghost predicate KeepsOrder(c: Cell)
    requires CellOk(c)
  {
    forall d :: Reaches(c, d) ==> d.client.sent <= ToForward(d)
  }

  // ---------- CONNECT ----------

  lemma DialChunks(c: Cell, e: Event)
    requires CellOk(c) && DialInv(c) && IsConnect(c) && Enabled(c, e)
    ensures Step(c, e).chunks == c.chunks
  {
    DialingEnables(c, [], e);
    if e.ec != Success {
      StepConnectFails(c, e.op, e.ec, e.beyond);
      ClientErrorStops(Linked(c, e.op, Failed(e.ec)), e.ec);
    } else if e.op == Resolve {
      StepResolve(c, e.beyond);
    } else {
      StepConnect(c, e.beyond);
      EstablishedConnects(Linked(c, Connecting, Connected));
    }
  }

  lemma ReadyChunks(c: Cell, t: Token, e: Event)
    requires CellOk(c) && ReadyInv(c, t) && Enabled(c, e)
    ensures Step(c, e).chunks == c.chunks
  {
    if e.Done? {
      GreetingDone(c, t, HttpState.DoneReply(), e);
      if Fails(e) {
        GreetingFails(c, t, HttpState.DoneReply(), e);
      } else {
        StepServerWrite(c, e.op, e.beyond);
        WritesAreDone(Taken(c, ServerSide, e.op));
      }
    }
  }

  lemma StopKeepsChunks(c: Cell, side: Side, op: Op)
    requires CellOk(c)
    ensures Stop(Taken(c, side, op)).chunks == c.chunks
  {
  }

  lemma MovesKeepChunks(c: Cell, up: Lane, down: Lane, c': Cell, up': Lane, down': Lane)
    requires CellOk(c) && Relaying(c, up, down, 1) && CellOk(c') && RelayMoves(c, up, down, 1, c', up', down')
    ensures c.chunks <= c'.chunks
  {
  }

  lemma RelayChunks(c: Cell, up: Lane, down: Lane, e: Event)
    requires CellOk(c) && RelayInv(c, up, down) && Enabled(c, e)
    ensures c.chunks <= Step(c, e).chunks
  {
    var up', down' := RelayStep(c, up, down, 1, e);
    if Fails(e) {
      StopKeepsChunks(c, e.side, e.op);
    } else {
      MovesKeepChunks(c, up, down, Step(c, e), up', down');
    }
  }

  lemma ConnectChunks(c: Cell, e: Event)
    requires CellOk(c) && HttpInv(c) && IsConnect(c) && Enabled(c, e)
    ensures c.chunks <= Step(c, e).chunks
  {
    if !Live(c) {
      ClosedStays(c, e);
    } else if DialInv(c) {
      DialChunks(c, e);
    } else if t :| ReadyInv(c, t) {
      ReadyChunks(c, t, e);
    } else {
      var up, down :| RelayInv(c, up, down);
      RelayChunks(c, up, down, e);
    }
  }

  lemma SameHead(c: Cell, d: Cell)
    requires c.chunks != [] && c.chunks <= d.chunks
    ensures IsConnect(d) == IsConnect(c)
  {
  }

  lemma ConnectStays(c: Cell, e: Event)
    requires CellOk(c) && HttpInv(c) && IsConnect(c) && Enabled(c, e) && !Throws(c, e)
    ensures HttpInv(Step(c, e)) && IsConnect(Step(c, e))
  {
    HttpTheorems.HttpStep(c, e);
    ConnectChunks(c, e);
    SameHead(c, Step(c, e));
  }

  lemma {:induction false} ConnectRun(c: Cell, events: seq<Event>)
    requires CellOk(c) && HttpInv(c) && IsConnect(c) && Runs(c, events)
    ensures HttpInv(After(c, events)) && IsConnect(After(c, events))
    decreases |events|
  {
    if events != [] {
      ConnectStays(c, events[0]);
      ConnectRun(Step(c, events[0]), events[1..]);
    }
  }

  lemma ConnectIsSound(c: Cell)
    requires CellOk(c) && HttpInv(c) && IsConnect(c)
    ensures NeverOverlaps(c) && KeepsOrder(c)
  {
    forall d | Reaches(c, d) ensures SingleWrites(d) && d.client.sent <= ToForward(d) {
      var events :| Runs(c, events) && After(c, events) == d;
      ConnectRun(c, events);
      HttpTheorems.GrammarHolds(d);
    }
  }

  // ---------- another method: the run that goes wrong ----------

  /** The request is being forwarded. */
  predicate Forwarding(c: Cell, head: seq<byte>, sent: nat)
    requires CellOk(c)
  {
    && PlainInv(c) && In(c, HttpReadyToTransferData) && c.chunks == [head]
    && c.client.pending == multiset{Write(|head|, sent)} && sent <= |head| <= MAX_BUFFER_SIZE
    && c.client.sent == head[..sent] && c.client.writeBuffer[..|head|] == head
  }

  function Copies(op: Op, n: nat): multiset<Op> {
    multiset{op}[op := n]
  }

  /** The request is out; readers server reads are outstanding and writes one-byte writes, which
      share the first byte of the write buffer. */
  predicate Racing(c: Cell, chunks: seq<seq<byte>>, sent: seq<byte>, readers: nat, unsent: nat, all: nat)
    requires CellOk(c)
  {
    && PlainInv(c) && In(c, HttpDataTransferMode) && c.chunks == chunks && unsent <= all
    && c.server.pending == Copies(Read, readers)
    && c.client.pending == Copies(Write(1, 0), unsent) + Copies(Write(1, 1), all - unsent)
    && c.client.sent == sent
  }

  lemma PlainDials(c: Cell, d: Cell)
    requires CellOk(c) && DialInv(c) && !IsConnect(c) && Connecting in c.client.pending
    requires d == Step(c, Done(ClientSide, Connecting, Success, []))
    ensures Forwarding(d, c.chunks[0], 0)
  {
    DialConnects(c, []);
    assert d.client.writeBuffer[..|c.chunks[0]|] == c.chunks[0];
    assert c.chunks == [c.chunks[0]];
  }

  lemma ForwardingLeaves(c: Cell, head: seq<byte>) returns (d: Cell)
    requires CellOk(c) && Forwarding(c, head, 0)
    ensures Enabled(c, Leave(ClientSide, Write(|head|, 0), |head|))
    ensures d == Step(c, Leave(ClientSide, Write(|head|, 0), |head|))
    ensures Forwarding(d, head, |head|)
  {
    var e := Leave(ClientSide, Write(|head|, 0), |head|);
    HttpTheorems.PlainKernel(c, e);
    d := Step(c, e);
    assert c.client.writeBuffer[0..|head|] == head;
    assert head[..|head|] == head;
  }

  lemma ForwardingEnds(c: Cell, head: seq<byte>) returns (d: Cell)
    requires CellOk(c) && Forwarding(c, head, |head|)
    ensures Enabled(c, Done(ClientSide, Write(|head|, |head|), Success, []))
    ensures d == Step(c, Done(ClientSide, Write(|head|, |head|), Success, []))
    ensures Racing(d, [head], head, 2, 0, 0)
  {
    var op := Write(|head|, |head|);
    HttpTheorems.PlainWrites(c, op, []);
    d := Step(c, Done(ClientSide, op, Success, []));
    assert head[..|head|] == head;
    assert d.server.pending == multiset{Read, Read};
    assert d.client.pending == multiset{};
  }

  lemma ByteArrives(c: Cell, readers: nat, all: nat, b: byte)
    requires CellOk(c) && PlainInv(c) && In(c, HttpDataTransferMode) && readers > 0
    requires c.server.pending == Copies(Read, readers)
    ensures Enabled(c, Arrive(ServerSide, [b]))
    ensures var d := Step(c, Arrive(ServerSide, [b]));
            && PlainInv(d) && In(d, HttpDataTransferMode) && d.client == c.client && d.chunks == c.chunks
            && d.server.pending == Copies(Read, readers - 1) + multiset{Filled(1)}
            && d.server.readBuffer[..1] == [b]
  {
    HttpTheorems.PlainKernel(c, Arrive(ServerSide, [b]));
  }

  lemma ByteTurns(c: Cell, readers: nat, all: nat, b: byte)
    requires CellOk(c) && PlainInv(c) && In(c, HttpDataTransferMode)
    requires c.server.pending == Copies(Read, readers) + multiset{Filled(1)}
    requires c.client.pending == Copies(Write(1, 0), all) && c.server.readBuffer[..1] == [b]
    ensures Enabled(c, Done(ServerSide, Filled(1), Success, []))
    ensures var d := Step(c, Done(ServerSide, Filled(1), Success, []));
            && PlainInv(d) && In(d, HttpDataTransferMode) && d.chunks == c.chunks + [[b]]
            && d.server.pending == Copies(Read, readers)
            && d.client.pending == Copies(Write(1, 0), all + 1)
            && d.client.sent == c.client.sent && d.client.writeBuffer[0] == b
  {
    HttpTheorems.PlainReads(c, 1, []);
  }

  /** One of the outstanding reads brings a byte, and the byte is put into the write buffer. */
  lemma ByteRaces(c: Cell, chunks: seq<seq<byte>>, sent: seq<byte>, readers: nat, all: nat, b: byte)
    returns (d: Cell)
    requires CellOk(c) && Racing(c, chunks, sent, readers, all, all) && readers > 0
    ensures CellOk(d) && Reaches(c, d)
    ensures Racing(d, chunks + [[b]], sent, readers - 1, all + 1, all + 1) && d.client.writeBuffer[0] == b
  {
    ByteArrives(c, readers, all, b);
    var c1 := Step(c, Arrive(ServerSide, [b]));
    assert c.client.pending == Copies(Write(1, 0), all);
    ByteTurns(c1, readers - 1, all, b);
    d := Step(c1, Done(ServerSide, Filled(1), Success, []));
    ReachesSelf(d);
    StepThenReach(c1, Done(ServerSide, Filled(1), Success, []), d);
    StepThenReach(c, Arrive(ServerSide, [b]), d);
  }

  lemma CopyMoves(p: multiset<Op>, from: Op, to: Op, m: nat, n: nat)
    requires from != to && m > 0 && p == Copies(from, m) + Copies(to, n)
    ensures from in p && p - multiset{from} + multiset{to} == Copies(from, m - 1) + Copies(to, n + 1)
  {
  }

  lemma DrainByte(s: Stream, unsent: nat, all: nat)
    requires StreamOk(s) && 0 < unsent <= all
    requires s.pending == Copies(Write(1, 0), unsent) + Copies(Write(1, 1), all - unsent)
    ensures Write(1, 0) in s.pending
    ensures var d := Drain(s, Write(1, 0), 1);
            && d.pending == Copies(Write(1, 0), unsent - 1) + Copies(Write(1, 1), all - (unsent - 1))
            && d.sent == s.sent + [s.writeBuffer[0]] && d.writeBuffer == s.writeBuffer
  {
    CopyMoves(s.pending, Write(1, 0), Write(1, 1), unsent, all - unsent);
    assert s.writeBuffer[0..1] == [s.writeBuffer[0]];
  }

  lemma BufferStep(c: Cell, unsent: nat, all: nat)
    requires CellOk(c) && PlainInv(c) && In(c, HttpDataTransferMode) && 0 < unsent <= all
    requires c.client.pending == Copies(Write(1, 0), unsent) + Copies(Write(1, 1), all - unsent)
    requires c.server.pending == multiset{}
    ensures Enabled(c, Leave(ClientSide, Write(1, 0), 1))
    ensures var d := Step(c, Leave(ClientSide, Write(1, 0), 1));
            && PlainInv(d) && In(d, HttpDataTransferMode) && d.chunks == c.chunks
            && d.server.pending == multiset{}
            && d.client.pending == Copies(Write(1, 0), unsent - 1) + Copies(Write(1, 1), all - (unsent - 1))
            && d.client.sent == c.client.sent + [c.client.writeBuffer[0]]
            && d.client.writeBuffer == c.client.writeBuffer
  {
    DrainByte(c.client, unsent, all);
    HttpTheorems.PlainKernel(c, Leave(ClientSide, Write(1, 0), 1));
    assert Step(c, Leave(ClientSide, Write(1, 0), 1)) == c.(client := Drain(c.client, Write(1, 0), 1));
  }

  /** One of the writes hands over whatever the buffer holds now. */
  lemma BufferLeaves(c: Cell, chunks: seq<seq<byte>>, sent: seq<byte>, unsent: nat, all: nat) returns (d: Cell)
    requires CellOk(c) && Racing(c, chunks, sent, 0, unsent, all) && unsent > 0
    ensures CellOk(d) && Reaches(c, d)
    ensures Racing(d, chunks, sent + [c.client.writeBuffer[0]], 0, unsent - 1, all)
    ensures d.client.writeBuffer == c.client.writeBuffer
  {
    assert c.server.pending == multiset{};
    BufferStep(c, unsent, all);
    d := Step(c, Leave(ClientSide, Write(1, 0), 1));
    ReachesSelf(d);
    StepThenReach(c, Leave(ClientSide, Write(1, 0), 1), d);
  }

  function Raced(head: seq<byte>, a: byte, b: byte): seq<seq<byte>> {
    [head] + [[a]] + [[b]]
  }

  lemma FirstByte(c: Cell, head: seq<byte>, a: byte) returns (d: Cell)
    requires CellOk(c) && Racing(c, [head], head, 2, 0, 0)
    ensures CellOk(d) && Reaches(c, d) && Racing(d, [head] + [[a]], head, 1, 1, 1)
  {
    d := ByteRaces(c, [head], head, 2, 0, a);
  }

  lemma SecondByte(c: Cell, head: seq<byte>, a: byte, b: byte) returns (d: Cell)
    requires CellOk(c) && Racing(c, [head] + [[a]], head, 1, 1, 1)
    ensures CellOk(d) && Reaches(c, d)
    ensures Racing(d, Raced(head, a, b), head, 0, 2, 2) && d.client.writeBuffer[0] == b
  {
    d := ByteRaces(c, [head] + [[a]], head, 1, 1, b);
  }

  /** Two bytes in, and both writes are outstanding over one buffer. */
  lemma TwoWrites(c: Cell, head: seq<byte>, a: byte, b: byte) returns (d: Cell)
    requires CellOk(c) && Racing(c, [head], head, 2, 0, 0)
    ensures CellOk(d) && Reaches(c, d)
    ensures Racing(d, Raced(head, a, b), head, 0, 2, 2) && d.client.writeBuffer[0] == b
  {
    var c1 := FirstByte(c, head, a);
    d := SecondByte(c1, head, a, b);
    ReachesOn(c, c1, d);
  }

  /** From the connection attempt to the race. */
  lemma PlainReachesRace(c: Cell) returns (d: Cell)
    requires CellOk(c) && DialInv(c) && !IsConnect(c)
    ensures CellOk(d) && Reaches(c, d) && Racing(d, [c.chunks[0]], c.chunks[0], 2, 0, 0)
  {
    var head := c.chunks[0];
    if Resolve in c.client.pending {
      var e := Done(ClientSide, Resolve, Success, []);
      DialingResolves(c, [], []);
      d := RaceFrom(Step(c, e));
      StepThenReach(c, e, d);
    } else {
      d := RaceFrom(c);
    }
  }

  lemma RaceFrom(c: Cell) returns (d: Cell)
    requires CellOk(c) && DialInv(c) && !IsConnect(c) && Connecting in c.client.pending
    ensures CellOk(d) && Reaches(c, d) && Racing(d, [c.chunks[0]], c.chunks[0], 2, 0, 0)
  {
    var head, e := c.chunks[0], Done(ClientSide, Connecting, Success, []);
    var c1 := Step(c, e);
    PlainDials(c, c1);
    var c2 := ForwardingLeaves(c1, head);
    d := ForwardingEnds(c2, head);
    ReachesSelf(d);
    StepThenReach(c2, Done(ClientSide, Write(|head|, |head|), Success, []), d);
    StepThenReach(c1, Leave(ClientSide, Write(|head|, 0), |head|), d);
    StepThenReach(c, e, d);
  }

  /** The byte in the buffer is sent twice, and the byte before it never. */
  lemma BothLeave(race: Cell, head: seq<byte>, a: byte, b: byte) returns (wrong: Cell)
    requires CellOk(race) && Racing(race, Raced(head, a, b), head, 0, 2, 2) && race.client.writeBuffer[0] == b
    ensures CellOk(wrong) && Reaches(race, wrong)
    ensures Racing(wrong, Raced(head, a, b), head + [b] + [b], 0, 0, 2)
  {
    var c1 := BufferLeaves(race, Raced(head, a, b), head, 2, 2);
    wrong := BufferLeaves(c1, Raced(head, a, b), head + [b], 1, 2);
    ReachesOn(race, c1, wrong);
  }

  lemma PlainGoesWrong(c: Cell, a: byte, b: byte) returns (race: Cell, wrong: Cell)
    requires CellOk(c) && DialInv(c) && !IsConnect(c)
    ensures CellOk(race) && Reaches(c, race) && CellOk(wrong) && Reaches(c, wrong)
    ensures race.client.pending[Write(1, 0)] == 2
    ensures wrong.chunks == Raced(c.chunks[0], a, b) && !IsConnect(wrong)
    ensures wrong.client.sent == c.chunks[0] + [b] + [b]
  {
    var start := PlainReachesRace(c);
    race := TwoWrites(start, c.chunks[0], a, b);
    wrong := BothLeave(race, c.chunks[0], a, b);
    ReachesOn(c, start, race);
    ReachesOn(c, race, wrong);
  }

  lemma FlattenRaced(head: seq<byte>, a: byte, b: byte)
    ensures Flatten(Raced(head, a, b)) == head + [a] + [b]
  {
    FlattenSnoc([head] + [[a]], [b]);
    FlattenSnoc([head], [a]);
    FlattenSnoc([], head);
    assert [head] == [] + [head];
  }

  lemma OverlapSeen(race: Cell)
    requires race.client.pending[Write(1, 0)] == 2
    ensures !SingleWrites(race)
  {
    assert Write(1, 0) in race.client.pending;
  }

  lemma DisorderSeen(wrong: Cell, head: seq<byte>)
    requires wrong.chunks == Raced(head, 1, 2) && !IsConnect(wrong) && wrong.client.sent == head + [2] + [2]
    ensures !(wrong.client.sent <= ToForward(wrong))
  {
    FlattenRaced(head, 1, 2);
    assert wrong.client.sent[|head|] == 2;
    assert (head + [1] + [2])[|head|] == 1;
  }

  lemma PlainIsUnsound(c: Cell)
    requires CellOk(c) && DialInv(c) && !IsConnect(c)
    ensures !NeverOverlaps(c) && !KeepsOrder(c)
  {
    var race, wrong := PlainGoesWrong(c, 1, 2);
    OverlapSeen(race);
    DisorderSeen(wrong, c.chunks[0]);
  }

  lemma SoundFrom(c: Cell)
    requires CellOk(c) && HttpInv(c) && DialInv(c)
    ensures (NeverOverlaps(c) <==> IsConnect(c)) && (KeepsOrder(c) <==> IsConnect(c))
  {
    if IsConnect(c) {
      ConnectIsSound(c);
    } else {
      PlainIsUnsound(c);
    }
  }

  /** For every HTTP session that has started to connect: in all of its further runs no two
      writes overlap, and in all of them what is forwarded is in order, exactly when its head
      names CONNECT. */
  lemma SoundExactlyForConnect(kind: Kind, events: seq<Event>)
    requires kind != TcpClient && Runs(Accepted(Http, kind), events)
    requires In(After(Accepted(Http, kind), events), HttpConnectionEstablished)
    ensures var c := After(Accepted(Http, kind), events);
            && (NeverOverlaps(c) <==> IsConnect(c))
            && (KeepsOrder(c) <==> IsConnect(c))
  {
    var c := After(Accepted(Http, kind), events);
    HttpTheorems.Reached(kind, events);
    HttpTheorems.MarkerTells(c);
    SoundFrom(c);
  }

  // ---------- such sessions exist ----------

  /** A new session comes to wait for its head. */
  lemma HandshakePasses(start: Cell) returns (c: Cell)
    requires CellOk(start) && WaitInv(start, Shaking)
    ensures CellOk(c) && Reaches(start, c) && WaitInv(c, Reading)
  {
    var e := Done(ServerSide, Handshake, Success, []);
    WaitShakes(start, []);
    c := Step(start, e);
    ReachesSelf(start);
    ReachesStep(start, start, e);
  }

  lemma StartsWaiting(kind: Kind) returns (c: Cell)
    requires kind != TcpClient
    ensures CellOk(c) && Reaches(Accepted(Http, kind), c) && WaitInv(c, Reading)
  {
    var start := Accepted(Http, kind);
    if kind == TlsServer {
      c := HandshakePasses(start);
    } else {
      ReachesSelf(start);
      c := start;
    }
  }

  lemma HeadArrives(c: Cell, chunk: seq<byte>) returns (d: Cell)
    requires CellOk(c) && WaitInv(c, Reading) && |chunk| <= MAX_BUFFER_SIZE
    ensures CellOk(d) && Reaches(c, d) && WaitInv(d, Loaded(|chunk|))
    ensures d.server.readBuffer[..|chunk|] == chunk && Filled(|chunk|) in d.server.pending
  {
    var e := Arrive(ServerSide, chunk);
    GreetingArrives(c, [], chunk);
    d := Step(c, e);
    ReachesSelf(c);
    ReachesStep(c, c, e);
  }

  lemma HeadTurns(c: Cell, chunk: seq<byte>, beyond: seq<byte>) returns (d: Cell)
    requires CellOk(c) && WaitInv(c, Loaded(|chunk|)) && Filled(|chunk|) in c.server.pending
    requires |chunk| <= MAX_BUFFER_SIZE && c.server.readBuffer[..|chunk|] == chunk
    requires HttpState.Decide(chunk).Forward?
    ensures CellOk(d) && Reaches(c, d) && DialInv(d) && d.client.pending == multiset{Resolve}
    ensures IsConnect(d) == HttpState.Decide(chunk).connect && d.chunks == [chunk]
  {
    var e := Done(ServerSide, Filled(|chunk|), Success, beyond);
    WaitTurns(c, |chunk|, beyond);
    d := Step(c, e);
    ReachesSelf(c);
    ReachesStep(c, c, e);
  }

  /** Every head that is forwarded brings some session from its acceptance to connecting. */
  lemma ForwardedHeadsConnect(kind: Kind, chunk: seq<byte>, beyond: seq<byte>) returns (d: Cell)
    requires kind != TcpClient && |chunk| <= MAX_BUFFER_SIZE && HttpState.Decide(chunk).Forward?
    ensures CellOk(d) && Reaches(Accepted(Http, kind), d) && DialInv(d) && d.client.pending == multiset{Resolve}
    ensures IsConnect(d) == HttpState.Decide(chunk).connect && d.chunks == [chunk]
  {
    var c := StartsWaiting(kind);
    var c1 := HeadArrives(c, chunk);
    d := HeadTurns(c1, chunk, beyond);
    ReachesOn(c, c1, d);
    ReachesOn(Accepted(Http, kind), c, d);
  }

  /** Every head that throws can reach a waiting session, and then ends the program. */
  lemma ThrowingHeadsArrive(kind: Kind, chunk: seq<byte>) returns (d: Cell, e: Event)
    requires kind != TcpClient && |chunk| <= MAX_BUFFER_SIZE && HttpState.Decide(chunk).Throw?
    ensures CellOk(d) && Reaches(Accepted(Http, kind), d) && Enabled(d, e) && Throws(d, e)
  {
    var c := StartsWaiting(kind);
    d := HeadArrives(c, chunk);
    ReachesOn(Accepted(Http, kind), c, d);
    e := Done(ServerSide, Filled(|chunk|), Success, []);
  }

  /** Every request of another method in its usual form leads some session, from its acceptance,
      to connecting, and from there both to overlapping writes and to a corrupted forward. */
  lemma EveryPlainRequestGoesWrong(
      kind: Kind, chunk: seq<byte>, name: string, scheme: string, path: string, version: string,
      before: string, after: string)
    returns (d: Cell)
    requires kind != TcpClient && |chunk| <= MAX_BUFFER_SIZE
    requires HttpHead.PlainParts(name, scheme, path, version, before + (HttpHead.HOST + after))
    requires HttpHead.NamesHostAfter(before, after) && |after| > 1
    requires Text(chunk) == HttpHead.PlainHead(name, scheme, path, version, before + (HttpHead.HOST + after))
    ensures CellOk(d) && Reaches(Accepted(Http, kind), d) && In(d, HttpConnectionEstablished)
    ensures !NeverOverlaps(d) && !KeepsOrder(d)
  {
    HttpHead.PlainHeadRoundTrip(name, scheme, path, version, before, after);
    d := ForwardedHeadsConnect(kind, chunk, []);
    PlainIsUnsound(d);
  }

  /** A concrete request: GET http://h HTTP/1.1, with the one header line Host: h. */
  lemma GetGoesWrongExample() returns (d: Cell)
    ensures CellOk(d) && Reaches(Accepted(Http, TcpServer), d) && In(d, HttpConnectionEstablished)
    ensures !NeverOverlaps(d) && !KeepsOrder(d)
  {
    var line := "" + (HttpHead.HOST + " h");
    var head := HttpHead.PlainHead("GET", "http", "//h", "HTTP/1.1", line);
    LatinHead();
    HttpHead.NameComesFirst(" h");
    d := EveryPlainRequestGoesWrong(TcpServer, Octets(head), "GET", "http", "//h", "HTTP/1.1", "", " h");
  }

  lemma LatinHead()
    ensures var line := "" + (HttpHead.HOST + " h");
            var head := HttpHead.PlainHead("GET", "http", "//h", "HTTP/1.1", line);
            IsLatin(head) && |head| <= MAX_BUFFER_SIZE && HttpHead.PlainParts("GET", "http", "//h", "HTTP/1.1", line)
  {
    HttpHead.PlainHeadSize("GET", "http", "//h", "HTTP/1.1", "" + (HttpHead.HOST + " h"));
  }
}
