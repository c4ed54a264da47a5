/** Sessions can be served: runs from the acceptance in which requests are answered and bytes go
    through in both directions. */
module Service {
  import opened Basics
  import opened Transport
  import opened Sessions
  import opened Engine
  import opened Channel
  import opened Relay
  import opened Handshake
  import Socks5
  import Socks5Runs
  import Socks5Theorems
  import HttpState
  import HttpRuns
  import HttpOverlap

  /** One event, after which the program goes on. */
  lemma Goes(c: Cell, e: Event) returns (d: Cell)
    requires LiveOk(c) && c.session.value.state != HttpWaitRequest && Enabled(c, e)
    ensures CellOk(d) && d == Step(c, e) && Reaches(c, d)
  {
    d := Step(c, e);
    ReachesSelf(c);
    ReachesStep(c, c, e);
  }

  // ---------- one chunk through a relay ----------

  /** What the relay of one direction must not touch. */
  predicate SameInput(c: Cell, d: Cell) {
    d.server.received == c.server.received && d.client.received == c.client.received
  }

  lemma UpArrives(c: Cell, up: Lane, down: Lane, k: nat, x: seq<byte>) returns (d: Cell)
    requires CellOk(c) && Relaying(c, up, down, k) && up.token == Reading && |x| <= MAX_BUFFER_SIZE
    ensures CellOk(d) && Reaches(c, d) && Relaying(d, up.(token := Loaded(|x|)), down, k)
    ensures d.server.received == c.server.received + x && d.client == c.client && d.server.sent == c.server.sent
  {
    ServerArrives(c, up, down, k, x);
    d := Goes(c, Arrive(ServerSide, x));
  }

  lemma UpTurns(c: Cell, up: Lane, down: Lane, k: nat, n: nat) returns (d: Cell)
    requires CellOk(c) && Relaying(c, up, down, k) && up.token == Loaded(n) && n <= MAX_BUFFER_SIZE
    ensures CellOk(d) && Reaches(c, d) && Relaying(d, up.(token := Writing(n, 0)), down, k)
    ensures SameInput(c, d) && d.server.sent == c.server.sent
  {
    assert Filled(n) in c.server.pending;
    StepUpTurns(c, n, []);
    ServerTurns(c, up, down, k, n);
    d := Goes(c, Done(ServerSide, Filled(n), Success, []));
  }

  lemma UpLeaves(c: Cell, up: Lane, down: Lane, k: nat, n: nat) returns (d: Cell)
    requires CellOk(c) && Relaying(c, up, down, k) && up.token == Writing(n, 0)
    ensures CellOk(d) && Reaches(c, d) && Relaying(d, up.(token := Writing(n, n)), down, k)
    ensures SameInput(c, d) && d.server.sent == c.server.sent
  {
    assert Write(n, 0) in c.client.pending;
    ClientLeaves(c, up, down, k, Write(n, 0), n);
    d := Goes(c, Leave(ClientSide, Write(n, 0), n));
  }

  lemma UpRests(c: Cell, up: Lane, down: Lane, k: nat, n: nat) returns (d: Cell)
    requires CellOk(c) && Relaying(c, up, down, k) && up.token == Writing(n, n)
    ensures CellOk(d) && Reaches(c, d) && Relaying(d, up.(token := Reading), down, k)
    ensures SameInput(c, d) && d.server.sent == c.server.sent
  {
    assert Write(n, n) in c.client.pending;
    StepUpRests(c, Write(n, n), []);
    ClientRests(c, up, down, k, Write(n, n));
    d := Goes(c, Done(ClientSide, Write(n, n), Success, []));
  }

  /** Between two chunks all that has arrived has been sent on. */
  lemma UpSent(c: Cell, up: Lane, down: Lane, k: nat)
    requires CellOk(c) && Relaying(c, up, down, k) && up.token == Reading
    ensures up.head <= c.server.received && c.client.sent == c.server.received[|up.head|..]
  {
  }

  lemma SliceGrows(h: seq<byte>, r: seq<byte>, x: seq<byte>)
    requires h <= r
    ensures (r + x)[|h|..] == r[|h|..] + x
  {
  }

  lemma UpGrows(c: Cell, d: Cell, up: Lane, down: Lane, k: nat, x: seq<byte>)
    requires CellOk(c) && Relaying(c, up, down, k) && CellOk(d) && Relaying(d, up, down, k)
    requires up.token == Reading && d.server.received == c.server.received + x
    ensures d.client.sent == c.client.sent + x
  {
    UpSent(c, up, down, k);
    UpSent(d, up, down, k);
    SliceGrows(up.head, c.server.received, x);
  }

  lemma UpEnters(c: Cell, up: Lane, down: Lane, k: nat, x: seq<byte>) returns (d: Cell)
    requires CellOk(c) && Relaying(c, up, down, k) && up.token == Reading && |x| <= MAX_BUFFER_SIZE
    ensures CellOk(d) && Reaches(c, d) && Relaying(d, up.(token := Writing(|x|, 0)), down, k)
    ensures d.server.received == c.server.received + x && d.client.received == c.client.received
    ensures d.server.sent == c.server.sent
  {
    var c1 := UpArrives(c, up, down, k, x);
    d := UpTurns(c1, up.(token := Loaded(|x|)), down, k, |x|);
    ReachesOn(c, c1, d);
  }

  lemma UpExits(c: Cell, up: Lane, down: Lane, k: nat, n: nat) returns (d: Cell)
    requires CellOk(c) && Relaying(c, up, down, k) && up.token == Writing(n, 0)
    ensures CellOk(d) && Reaches(c, d) && Relaying(d, up.(token := Reading), down, k)
    ensures SameInput(c, d) && d.server.sent == c.server.sent
  {
    var c1 := UpLeaves(c, up, down, k, n);
    d := UpRests(c1, up.(token := Writing(n, n)), down, k, n);
    ReachesOn(c, c1, d);
  }

  /** One chunk from the requesting side reaches the remote host. */
  lemma UpServed(c: Cell, up: Lane, down: Lane, k: nat, x: seq<byte>) returns (d: Cell)
    requires CellOk(c) && Relaying(c, up, down, k) && up.token == Reading && |x| <= MAX_BUFFER_SIZE
    ensures CellOk(d) && Reaches(c, d) && Relaying(d, up, down, k)
    ensures d.server.received == c.server.received + x && d.client.received == c.client.received
    ensures d.client.sent == c.client.sent + x && d.server.sent == c.server.sent
  {
    var c1 := UpEnters(c, up, down, k, x);
    d := UpExits(c1, up.(token := Writing(|x|, 0)), down, k, |x|);
    ReachesOn(c, c1, d);
    assert up.(token := Writing(|x|, 0)).(token := Reading) == up;
    UpGrows(c, d, up, down, k, x);
  }

  lemma DownArrives(c: Cell, up: Lane, down: Lane, k: nat, y: seq<byte>) returns (d: Cell)
    requires CellOk(c) && Relaying(c, up, down, k) && down.token == Reading && |y| <= MAX_BUFFER_SIZE
    ensures CellOk(d) && Reaches(c, d) && Relaying(d, up, down.(token := Loaded(|y|)), k)
    ensures d.client.received == c.client.received + y && d.server == c.server && d.client.sent == c.client.sent
  {
    ClientArrives(c, up, down, k, y);
    d := Goes(c, Arrive(ClientSide, y));
  }

  lemma DownTurns(c: Cell, up: Lane, down: Lane, k: nat, n: nat) returns (d: Cell)
    requires CellOk(c) && Relaying(c, up, down, k) && down.token == Loaded(n) && 0 < n <= MAX_BUFFER_SIZE
    ensures CellOk(d) && Reaches(c, d) && Relaying(d, up, down.(token := Writing(n, 0)), k)
    ensures SameInput(c, d) && d.client.sent == c.client.sent
  {
    assert Filled(n) in c.client.pending;
    StepDownTurns(c, n, []);
    ClientTurns(c, up, down, k, n);
    d := Goes(c, Done(ClientSide, Filled(n), Success, []));
  }

  lemma DownLeaves(c: Cell, up: Lane, down: Lane, k: nat, n: nat) returns (d: Cell)
    requires CellOk(c) && Relaying(c, up, down, k) && down.token == Writing(n, 0)
    ensures CellOk(d) && Reaches(c, d) && Relaying(d, up, down.(token := Writing(n, n)), k)
    ensures SameInput(c, d) && d.client.sent == c.client.sent
  {
    assert Write(n, 0) in c.server.pending;
    ServerLeaves(c, up, down, k, Write(n, 0), n);
    d := Goes(c, Leave(ServerSide, Write(n, 0), n));
  }

  lemma DownRests(c: Cell, up: Lane, down: Lane, k: nat, n: nat) returns (d: Cell)
    requires CellOk(c) && Relaying(c, up, down, k) && down.token == Writing(n, n)
    ensures CellOk(d) && Reaches(c, d) && Relaying(d, up, down.(token := Reading), k)
    ensures SameInput(c, d) && d.client.sent == c.client.sent
  {
    assert Write(n, n) in c.server.pending;
    StepDownRests(c, Write(n, n), []);
    ServerRests(c, up, down, k, Write(n, n));
    d := Goes(c, Done(ServerSide, Write(n, n), Success, []));
  }

  lemma DownSent(c: Cell, up: Lane, down: Lane, k: nat)
    requires CellOk(c) && Relaying(c, up, down, k) && down.token == Reading
    ensures c.server.sent == down.greeting + c.client.received
  {
    assert c.client.received[0..] == c.client.received;
  }

  lemma DownGrows(c: Cell, d: Cell, up: Lane, down: Lane, k: nat, y: seq<byte>)
    requires CellOk(c) && Relaying(c, up, down, k) && CellOk(d) && Relaying(d, up, down, k)
    requires down.token == Reading && d.client.received == c.client.received + y
    ensures d.server.sent == c.server.sent + y
  {
    DownSent(c, up, down, k);
    DownSent(d, up, down, k);
  }

  lemma DownEnters(c: Cell, up: Lane, down: Lane, k: nat, y: seq<byte>) returns (d: Cell)
    requires CellOk(c) && Relaying(c, up, down, k) && down.token == Reading && 0 < |y| <= MAX_BUFFER_SIZE
    ensures CellOk(d) && Reaches(c, d) && Relaying(d, up, down.(token := Writing(|y|, 0)), k)
    ensures d.client.received == c.client.received + y && d.server.received == c.server.received
    ensures d.client.sent == c.client.sent
  {
    var c1 := DownArrives(c, up, down, k, y);
    d := DownTurns(c1, up, down.(token := Loaded(|y|)), k, |y|);
    ReachesOn(c, c1, d);
  }

  lemma DownExits(c: Cell, up: Lane, down: Lane, k: nat, n: nat) returns (d: Cell)
    requires CellOk(c) && Relaying(c, up, down, k) && down.token == Writing(n, 0)
    ensures CellOk(d) && Reaches(c, d) && Relaying(d, up, down.(token := Reading), k)
    ensures SameInput(c, d) && d.client.sent == c.client.sent
  {
    var c1 := DownLeaves(c, up, down, k, n);
    d := DownRests(c1, up, down.(token := Writing(n, n)), k, n);
    ReachesOn(c, c1, d);
  }

  /** One chunk from the remote host reaches the requesting side. */
  lemma DownServed(c: Cell, up: Lane, down: Lane, k: nat, y: seq<byte>) returns (d: Cell)
    requires CellOk(c) && Relaying(c, up, down, k) && down.token == Reading && 0 < |y| <= MAX_BUFFER_SIZE
    ensures CellOk(d) && Reaches(c, d) && Relaying(d, up, down, k)
    ensures d.client.received == c.client.received + y && d.server.received == c.server.received
    ensures d.server.sent == c.server.sent + y && d.client.sent == c.client.sent
  {
    var c1 := DownEnters(c, up, down, k, y);
    d := DownExits(c1, up, down.(token := Writing(|y|, 0)), k, |y|);
    ReachesOn(c, c1, d);
    assert down.(token := Writing(|y|, 0)).(token := Reading) == down;
    DownGrows(c, d, up, down, k, y);
  }

  lemma AtFirst(c: Cell, up: Lane, down: Lane, k: nat)
    requires CellOk(c) && Relaying(c, up, down, k) && Untouched(c.client)
    requires up.token == Reading && down.token == Reading
    ensures c.server.received == up.head && c.server.sent == down.greeting
  {
    UpSent(c, up, down, k);
    DownSent(c, up, down, k);
  }

  /** Both directions, from where the relay starts. */
  lemma BothServed(c: Cell, up: Lane, down: Lane, k: nat, x: seq<byte>, y: seq<byte>) returns (d: Cell)
    requires CellOk(c) && Relaying(c, up, down, k) && Untouched(c.client)
    requires up.token == Reading && down.token == Reading
    requires |x| <= MAX_BUFFER_SIZE && 0 < |y| <= MAX_BUFFER_SIZE
    ensures CellOk(d) && Reaches(c, d) && Relaying(d, up, down, k)
    ensures d.server.received == up.head + x && d.client.sent == x
    ensures d.client.received == y && d.server.sent == down.greeting + y
  {
    AtFirst(c, up, down, k);
    var c1 := UpServed(c, up, down, k, x);
    d := DownServed(c1, up, down, k, y);
    ReachesOn(c, c1, d);
  }

  // ---------- from the acceptance ----------

  lemma Socks5Resolves(c: Cell) returns (d: Cell)
    requires CellOk(c) && Socks5Runs.DialInv(c) && c.client.pending == multiset{Resolve}
    ensures CellOk(d) && Reaches(c, d) && Socks5Runs.DialInv(d) && d.chunks == c.chunks
    ensures d.client.pending == multiset{Connecting}
  {
    DialingResolves(c, Socks5Runs.AuthReply(c.chunks[0]), []);
    d := Goes(c, Done(ClientSide, Resolve, Success, []));
  }

  lemma Socks5Connects(c: Cell) returns (d: Cell)
    requires CellOk(c) && Socks5Runs.DialInv(c) && c.client.pending == multiset{Connecting}
    ensures CellOk(d) && Reaches(c, d) && Socks5Runs.ReadyInv(d, Writing(|c.chunks[1]|, 0)) && d.chunks == c.chunks
  {
    Socks5Runs.DialConnects(c, []);
    Socks5Runs.ConnectKeeps(c, []);
    d := Goes(c, Done(ClientSide, Connecting, Success, []));
  }

  lemma Socks5Answers(c: Cell, n: nat) returns (d: Cell)
    requires CellOk(c) && Socks5Runs.ReadyInv(c, Writing(n, 0))
    ensures CellOk(d) && Reaches(c, d) && Socks5Runs.ReadyInv(d, Writing(n, n)) && d.chunks == c.chunks
  {
    assert Write(n, 0) in c.server.pending;
    GreetingSends(c, Socks5Runs.Answers(c), Write(n, 0), n);
    d := Goes(c, Leave(ServerSide, Write(n, 0), n));
  }

  lemma Socks5Relays(c: Cell, n: nat) returns (d: Cell, up: Lane, down: Lane)
    requires CellOk(c) && Socks5Runs.ReadyInv(c, Writing(n, n))
    ensures CellOk(d) && Reaches(c, d) && Socks5Runs.RelayInv(d, up, down) && Untouched(d.client)
    ensures up == Lane(Reading, Flatten(c.chunks), []) && down == Lane(Reading, [], Socks5Runs.Answers(c))
  {
    assert Write(n, n) in c.server.pending;
    up, down := Socks5Runs.ReadyRests(c, n, []);
    d := Goes(c, Done(ServerSide, Write(n, n), Success, []));
  }

  /** A session that is connecting comes to the relay, once its answer has gone out. */
  lemma Socks5Starts(c: Cell) returns (d: Cell, up: Lane, down: Lane)
    requires CellOk(c) && Socks5Runs.DialInv(c) && c.client.pending == multiset{Resolve}
    ensures CellOk(d) && Reaches(c, d) && Socks5Runs.RelayInv(d, up, down) && Untouched(d.client)
    ensures up == Lane(Reading, Flatten(c.chunks), [])
    ensures down == Lane(Reading, [], Socks5Runs.AuthReply(c.chunks[0]) + c.chunks[1][1 := 0])
  {
    var c1 := Socks5Resolves(c);
    var c2 := Socks5Connects(c1);
    var c3 := Socks5Answers(c2, |c.chunks[1]|);
    d, up, down := Socks5Relays(c3, |c.chunks[1]|);
    ReachesOn(c, c1, c2);
    ReachesOn(c, c2, c3);
    ReachesOn(c, c3, d);
  }

  /** Every accepted request can be served: some run answers it with success, sends any chunk x of
      the requesting side to the remote host, and any chunk y of the remote host back. */
  lemma Socks5Serves(kind: Kind, greeting: seq<byte>, request: seq<byte>, beyond: seq<byte>, x: seq<byte>, y: seq<byte>)
    returns (d: Cell)
    requires kind != TcpClient && |greeting| <= MAX_BUFFER_SIZE && |request| <= MAX_BUFFER_SIZE
    requires Socks5.Accepts(request, beyond) && |x| <= MAX_BUFFER_SIZE && 0 < |y| <= MAX_BUFFER_SIZE
    ensures CellOk(d) && Reaches(Accepted(Socks5, kind), d) && Live(d)
    ensures d.server.received == greeting + request + x && d.client.sent == x
    ensures d.client.received == y
    ensures d.server.sent == [5, if Socks5.OffersNoAuth(greeting) then 0 else 0xff] + request[1 := 0] + y
  {
    var start := Accepted(Socks5, kind);
    var c := Socks5Theorems.AnyGreetingMayConnect(kind, greeting, request, beyond);
    var c1, up, down := Socks5Starts(c);
    Socks5Theorems.TwoChunks(greeting, request);
    d := BothServed(c1, up, down, 2, x, y);
    ReachesOn(start, c, c1);
    ReachesOn(start, c1, d);
  }

  lemma HttpResolves(c: Cell) returns (d: Cell)
    requires CellOk(c) && HttpRuns.DialInv(c) && c.client.pending == multiset{Resolve}
    ensures CellOk(d) && Reaches(c, d) && HttpRuns.DialInv(d) && d.chunks == c.chunks
    ensures d.client.pending == multiset{Connecting}
  {
    DialingResolves(c, [], []);
    d := Goes(c, Done(ClientSide, Resolve, Success, []));
  }

  lemma HttpConnects(c: Cell) returns (d: Cell)
    requires CellOk(c) && HttpRuns.DialInv(c) && HttpRuns.IsConnect(c) && c.client.pending == multiset{Connecting}
    ensures CellOk(d) && Reaches(c, d) && d.chunks == c.chunks
    ensures HttpRuns.ReadyInv(d, Writing(|HttpState.DoneReply()|, 0))
  {
    HttpRuns.DialConnects(c, []);
    HttpRuns.ConnectShape(c, []);
    d := Goes(c, Done(ClientSide, Connecting, Success, []));
  }

  lemma HttpAnswers(c: Cell, n: nat) returns (d: Cell)
    requires CellOk(c) && HttpRuns.ReadyInv(c, Writing(n, 0))
    ensures CellOk(d) && Reaches(c, d) && HttpRuns.ReadyInv(d, Writing(n, n)) && d.chunks == c.chunks
  {
    assert Write(n, 0) in c.server.pending;
    GreetingSends(c, HttpState.DoneReply(), Write(n, 0), n);
    d := Goes(c, Leave(ServerSide, Write(n, 0), n));
  }

  lemma HttpRelays(c: Cell, n: nat) returns (d: Cell, up: Lane, down: Lane)
    requires CellOk(c) && HttpRuns.ReadyInv(c, Writing(n, n))
    ensures CellOk(d) && Reaches(c, d) && HttpRuns.RelayInv(d, up, down) && Untouched(d.client)
    ensures up == Lane(Reading, Flatten(c.chunks), []) && down == Lane(Reading, [], HttpState.DoneReply())
  {
    assert Write(n, n) in c.server.pending;
    up, down := HttpRuns.ReadyRests(c, n, []);
    d := Goes(c, Done(ServerSide, Write(n, n), Success, []));
  }

  lemma HttpStarts(c: Cell) returns (d: Cell, up: Lane, down: Lane)
    requires CellOk(c) && HttpRuns.DialInv(c) && HttpRuns.IsConnect(c) && c.client.pending == multiset{Resolve}
    ensures CellOk(d) && Reaches(c, d) && HttpRuns.RelayInv(d, up, down) && Untouched(d.client)
    ensures up == Lane(Reading, Flatten(c.chunks), []) && down == Lane(Reading, [], HttpState.DoneReply())
  {
    var c1 := HttpResolves(c);
    var c2 := HttpConnects(c1);
    var c3 := HttpAnswers(c2, |HttpState.DoneReply()|);
    d, up, down := HttpRelays(c3, |HttpState.DoneReply()|);
    ReachesOn(c, c1, c2);
    ReachesOn(c, c2, c3);
    ReachesOn(c, c3, d);
  }

  lemma OneChunk(a: seq<byte>)
    ensures Flatten([a]) == a
  {
    FlattenSnoc([], a);
    assert [] + [a] == [a];
  }

  lemma HttpServesFrom(c: Cell, head: seq<byte>, x: seq<byte>, y: seq<byte>) returns (d: Cell)
    requires CellOk(c) && HttpRuns.DialInv(c) && HttpRuns.IsConnect(c) && c.client.pending == multiset{Resolve}
    requires c.chunks == [head] && |x| <= MAX_BUFFER_SIZE && 0 < |y| <= MAX_BUFFER_SIZE
    ensures CellOk(d) && Reaches(c, d) && Live(d)
    ensures d.server.received == head + x && d.client.sent == x
    ensures d.client.received == y && d.server.sent == HttpState.DoneReply() + y
  {
    var c1, up, down := HttpStarts(c);
    OneChunk(head);
    d := BothServed(c1, up, down, 1, x, y);
    ReachesOn(c, c1, d);
  }

  /** So can every forwarded CONNECT head, after the 200 reply. */
  lemma ConnectServes(kind: Kind, head: seq<byte>, x: seq<byte>, y: seq<byte>) returns (d: Cell)
    requires kind != TcpClient && |head| <= MAX_BUFFER_SIZE
    requires HttpState.Decide(head).Forward? && HttpState.Decide(head).connect
    requires |x| <= MAX_BUFFER_SIZE && 0 < |y| <= MAX_BUFFER_SIZE
    ensures CellOk(d) && Reaches(Accepted(Http, kind), d) && Live(d)
    ensures d.server.received == head + x && d.client.sent == x
    ensures d.client.received == y && d.server.sent == HttpState.DoneReply() + y
  {
    var start := Accepted(Http, kind);
    var c := HttpOverlap.ForwardedHeadsConnect(kind, head, []);
    d := HttpServesFrom(c, head, x, y);
    ReachesOn(start, c, d);
  }
}
