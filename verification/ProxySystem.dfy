/** The whole proxy: an acceptor that hands out identifiers, and all connections it has
    accepted, interleaved in any order. */
module ProxySystem {
  import opened Basics
  import opened Transport
  import opened Sessions
  import opened Engine
  import opened Closing
  import Socks5Theorems
  import HttpRuns
  import HttpTheorems
  import HttpForwarding
  import HttpHead

  /** The acceptor is waiting to give its next connection the identifier streamId; cells holds
      every connection ever accepted, open or closed.  Once the program has ended, nothing
      happens any more. */
  datatype System = System(
    protocol: Protocol,
    kind: Kind,
    streamId: nat,
    accepting: bool,
    cells: map<nat, Cell>,
    ended: bool)

  datatype SystemEvent =
    | Accept(open: bool, ok: bool)
    | At(id: nat, event: Event)

  /** The constructor of the server ends by starting the first accept. */
  function Boot(protocol: Protocol, kind: Kind): System {
    System(protocol, kind, 1, true, map[], false)
  }

  /** The manager's session map. */
  function LiveSessions(s: System): map<nat, Session> {
    map id | id in s.cells && Live(s.cells[id]) :: s.cells[id].session.value
  }

  predicate SystemOk(s: System) {
    && s.kind != TcpClient
    && forall id <- s.cells :: id < s.streamId && CellOk(s.cells[id])
  }

  predicate CanHappen(s: System, e: SystemEvent)
    requires SystemOk(s)
  {
    && !s.ended
    && match e
       case Accept(_, _) => s.accepting
       case At(id, event) => id in s.cells && Enabled(s.cells[id], event)
  }

  function Next(s: System, e: SystemEvent): (r: System)
    requires SystemOk(s) && CanHappen(s, e)
    ensures SystemOk(r) && r.kind == s.kind && r.protocol == s.protocol
  {
    match e
    case Accept(open, ok) =>
      if !open then s.(accepting := false)
      else
        s.(cells := if ok then s.cells[s.streamId := Accepted(s.protocol, s.kind)] else s.cells,
           streamId := s.streamId + 1)
    case At(id, event) =>
      s.(cells := s.cells[id := Step(s.cells[id], event)], ended := Throws(s.cells[id], event))
  }

  predicate Happens(s: System, events: seq<SystemEvent>)
    requires SystemOk(s)
    decreases |events|
  {
    events == [] || (CanHappen(s, events[0]) && Happens(Next(s, events[0]), events[1..]))
  }

  function Finally(s: System, events: seq<SystemEvent>): (r: System)
    requires SystemOk(s) && Happens(s, events)
    ensures SystemOk(r) && r.kind == s.kind && r.protocol == s.protocol
    decreases |events|
  {
    if events == [] then s else Finally(Next(s, events[0]), events[1..])
  }

  /** The events of one connection, in order. */
  function Local(events: seq<SystemEvent>, id: nat): seq<Event> {
    if events == [] then []
    else if events[0].At? && events[0].id == id then [events[0].event] + Local(events[1..], id)
    else Local(events[1..], id)
  }

  // ---------- isolation ----------

  lemma FirstLocal(c: Cell, e: Event, rest: seq<Event>)
    requires CellOk(c) && Enabled(c, e) && !Throws(c, e) && Runs(Step(c, e), rest)
    ensures Runs(c, [e] + rest) && After(c, [e] + rest) == After(Step(c, e), rest)
  {
    assert ([e] + rest)[1..] == rest;
  }

  lemma EndedIsLast(s: System, events: seq<SystemEvent>)
    requires SystemOk(s) && Happens(s, events) && s.ended
    ensures events == []
  {
  }

  /** Seen from one connection, a run of the whole proxy is a run of that connection alone. */
  lemma {:induction false} ProjectionOfKnown(s: System, events: seq<SystemEvent>, id: nat)
    requires SystemOk(s) && Happens(s, events) && id in s.cells && !Finally(s, events).ended
    ensures id in Finally(s, events).cells && Runs(s.cells[id], Local(events, id))
    ensures Finally(s, events).cells[id] == After(s.cells[id], Local(events, id))
    decreases |events|
  {
    if events != [] {
      var e := events[0];
      if Next(s, e).ended {
        EndedIsLast(Next(s, e), events[1..]);
      }
      ProjectionOfKnown(Next(s, e), events[1..], id);
      if e.At? && e.id == id {
        FirstLocal(s.cells[id], e.event, Local(events[1..], id));
      }
    }
  }

  /** An identifier that has been passed over is never used. */
  lemma {:induction false} PassedOver(s: System, events: seq<SystemEvent>, id: nat)
    requires SystemOk(s) && Happens(s, events) && id !in s.cells && id < s.streamId
    ensures id !in Finally(s, events).cells
    decreases |events|
  {
    if events != [] {
      PassedOver(Next(s, events[0]), events[1..], id);
    }
  }

  /** A connection enters the system just accepted, or not at all. */
  lemma Enters(s: System, e: SystemEvent, id: nat)
    requires SystemOk(s) && CanHappen(s, e) && id !in s.cells
    ensures !(e.At? && e.id == id)
    ensures id in Next(s, e).cells ==> Next(s, e).cells[id] == Accepted(s.protocol, s.kind)
  {
  }

  lemma {:induction false} ProjectionOfNew(s: System, events: seq<SystemEvent>, id: nat)
    requires SystemOk(s) && Happens(s, events) && id !in s.cells && id in Finally(s, events).cells
    requires !Finally(s, events).ended
    ensures Runs(Accepted(s.protocol, s.kind), Local(events, id))
    ensures Finally(s, events).cells[id] == After(Accepted(s.protocol, s.kind), Local(events, id))
    decreases |events|
  {
    var s1 := Next(s, events[0]);
    Enters(s, events[0], id);
    assert Local(events, id) == Local(events[1..], id);
    if id in s1.cells {
      ProjectionOfKnown(s1, events[1..], id);
    } else {
      ProjectionOfNew(s1, events[1..], id);
    }
  }

  /** Every connection of every run of the proxy has had a run of its own from its acceptance,
      up to the event that ends the program, if one has. */
  lemma Projection(protocol: Protocol, kind: Kind, events: seq<SystemEvent>, id: nat)
    requires kind != TcpClient && Happens(Boot(protocol, kind), events)
    requires !Finally(Boot(protocol, kind), events).ended && id in Finally(Boot(protocol, kind), events).cells
    ensures Runs(Accepted(protocol, kind), Local(events, id))
    ensures Finally(Boot(protocol, kind), events).cells[id] == After(Accepted(protocol, kind), Local(events, id))
  {
    ProjectionOfNew(Boot(protocol, kind), events, id);
  }

  lemma UpdatesCommute<T>(m: map<nat, T>, i: nat, x: T, j: nat, y: T)
    requires i != j
    ensures m[i := x][j := y] == m[j := y][i := x]
  {
  }

  lemma NextAt(s: System, i: nat, e: Event, x: Cell)
    requires SystemOk(s) && CanHappen(s, At(i, e)) && x == Step(s.cells[i], e)
    ensures Next(s, At(i, e)) == s.(cells := s.cells[i := x], ended := Throws(s.cells[i], e))
  {
  }

  /** The second of two events of different connections sees its connection as it was. */
  lemma NextOther(s: System, i: nat, x: Cell, j: nat, f: Event, y: Cell)
    requires SystemOk(s) && CellOk(x) && i in s.cells && i != j
    requires CanHappen(s, At(j, f)) && y == Step(s.cells[j], f) && !Throws(s.cells[j], f)
    ensures var s1 := s.(cells := s.cells[i := x]);
            && SystemOk(s1) && CanHappen(s1, At(j, f))
            && Next(s1, At(j, f)) == s.(cells := s.cells[i := x][j := y])
  {
    var s1 := s.(cells := s.cells[i := x]);
    NextAt(s1, j, f, y);
  }

  /** Events of different connections commute, unless one of them ends the program and so keeps
      the other from happening. */
  lemma DifferentConnectionsCommute(s: System, i: nat, e: Event, j: nat, f: Event)
    requires SystemOk(s) && i != j && CanHappen(s, At(i, e)) && CanHappen(s, At(j, f))
    ensures CanHappen(Next(s, At(i, e)), At(j, f)) <==> !Throws(s.cells[i], e)
    ensures CanHappen(Next(s, At(j, f)), At(i, e)) <==> !Throws(s.cells[j], f)
    ensures !Throws(s.cells[i], e) && !Throws(s.cells[j], f) ==>
              Next(Next(s, At(i, e)), At(j, f)) == Next(Next(s, At(j, f)), At(i, e))
  {
    OtherStays(s, i, e, j, f);
    OtherStays(s, j, f, i, e);
    if !Throws(s.cells[i], e) && !Throws(s.cells[j], f) {
      Commute(s, i, e, j, f);
    }
  }

  lemma OtherStays(s: System, i: nat, e: Event, j: nat, f: Event)
    requires SystemOk(s) && i != j && CanHappen(s, At(i, e)) && CanHappen(s, At(j, f))
    ensures CanHappen(Next(s, At(i, e)), At(j, f)) <==> !Throws(s.cells[i], e)
  {
    NextAt(s, i, e, Step(s.cells[i], e));
  }

  lemma Commute(s: System, i: nat, e: Event, j: nat, f: Event)
    requires SystemOk(s) && i != j && CanHappen(s, At(i, e)) && CanHappen(s, At(j, f))
    requires !Throws(s.cells[i], e) && !Throws(s.cells[j], f)
    requires CanHappen(Next(s, At(i, e)), At(j, f)) && CanHappen(Next(s, At(j, f)), At(i, e))
    ensures Next(Next(s, At(i, e)), At(j, f)) == Next(Next(s, At(j, f)), At(i, e))
  {
    var x, y := Step(s.cells[i], e), Step(s.cells[j], f);
    NextAt(s, i, e, x);
    NextAt(s, j, f, y);
    NextOther(s, i, x, j, f, y);
    NextOther(s, j, y, i, e, x);
    UpdatesCommute(s.cells, i, x, j, y);
  }

  // ---------- identifiers ----------

  /** A good accept inserts one new connection, under an identifier never used before, which is
      at once a session of the map; every other connection stays, and the next identifier is
      larger. */
  lemma InsertsAreFresh(s: System)
    requires SystemOk(s) && CanHappen(s, Accept(true, true))
    ensures var d := Next(s, Accept(true, true));
            && s.streamId !in s.cells && d.streamId == s.streamId + 1
            && d.cells == s.cells[s.streamId := Accepted(s.protocol, s.kind)]
            && s.streamId !in LiveSessions(s)
            && LiveSessions(d) == LiveSessions(s)[s.streamId := Accepted(s.protocol, s.kind).session.value]
  {
    LivesGrow(s, s.streamId, Accepted(s.protocol, s.kind));
  }

  lemma LivesGrow(s: System, id: nat, c: Cell)
    requires Live(c)
    ensures LiveSessions(s.(cells := s.cells[id := c], streamId := id + 1)) == LiveSessions(s)[id := c.session.value]
  {
  }

  /** A failed accept inserts nothing; the acceptor goes on after it as after a good one, and
      stops only when it has been closed. */
  lemma AcceptingGoesOn(s: System, open: bool, ok: bool)
    requires SystemOk(s) && CanHappen(s, Accept(open, ok))
    ensures var d := Next(s, Accept(open, ok));
            && (d.accepting <==> open) && d.ended == s.ended
            && (!(open && ok) ==> d.cells == s.cells)
            && (open ==> d.streamId == s.streamId + 1)
            && forall o, k :: CanHappen(d, Accept(o, k)) <==> open
  {
  }

  function GoodAccepts(events: seq<SystemEvent>): nat {
    if events == [] then 0 else (if events[0] == Accept(true, true) then 1 else 0) + GoodAccepts(events[1..])
  }

  function OpenAccepts(events: seq<SystemEvent>): nat {
    if events == [] then 0
    else (if events[0].Accept? && events[0].open then 1 else 0) + OpenAccepts(events[1..])
  }

  lemma NextCounts(s: System, e: SystemEvent)
    requires SystemOk(s) && CanHappen(s, e)
    ensures |Next(s, e).cells| == |s.cells| + (if e == Accept(true, true) then 1 else 0)
    ensures Next(s, e).streamId == s.streamId + (if e.Accept? && e.open then 1 else 0)
    ensures Next(s, e).accepting <==> s.accepting && !(e.Accept? && !e.open)
  {
    if e == Accept(true, true) {
      InsertsAreFresh(s);
    } else if e.At? {
      assert Next(s, e).cells.Keys == s.cells.Keys;
    }
  }

  lemma {:induction false} AcceptsCountFrom(s: System, events: seq<SystemEvent>)
    requires SystemOk(s) && Happens(s, events)
    ensures |Finally(s, events).cells| == |s.cells| + GoodAccepts(events)
    ensures Finally(s, events).streamId == s.streamId + OpenAccepts(events)
    ensures Finally(s, events).accepting <==> s.accepting && forall e <- events :: !(e.Accept? && !e.open)
    decreases |events|
  {
    if events != [] {
      NextCounts(s, events[0]);
      AcceptsCountFrom(Next(s, events[0]), events[1..]);
      assert forall e <- events :: e == events[0] || e in events[1..];
    }
  }

  /** In every run, there are as many connections as good accepts, the identifier waiting is one
      more than the open accepts so far, and another accept can happen until the acceptor has been
      closed or the program has ended. */
  lemma EveryGoodAcceptEnters(protocol: Protocol, kind: Kind, events: seq<SystemEvent>)
    requires kind != TcpClient && Happens(Boot(protocol, kind), events)
    ensures var s := Finally(Boot(protocol, kind), events);
            && |s.cells| == GoodAccepts(events) && s.streamId == 1 + OpenAccepts(events)
            && forall open, ok ::
                 CanHappen(s, Accept(open, ok)) <==> !s.ended && forall e <- events :: !(e.Accept? && !e.open)
  {
    AcceptsCountFrom(Boot(protocol, kind), events);
  }

  /** A connection is closed at most once: from then on it stays in the state of the closed,
      whatever else the proxy does. */
  lemma {:induction false} ClosedStaysClosed(s: System, events: seq<SystemEvent>, id: nat)
    requires SystemOk(s) && Happens(s, events) && id in s.cells && !Live(s.cells[id])
    ensures id in Finally(s, events).cells && !Live(Finally(s, events).cells[id])
    ensures id !in LiveSessions(Finally(s, events))
    decreases |events|
  {
    if events != [] {
      var e := events[0];
      if e.At? && e.id == id {
        ClosedStays(s.cells[id], e.event);
      }
      ClosedStaysClosed(Next(s, e), events[1..], id);
    }
  }

  /** Whatever completes on a closed connection leaves the session map as it is, and the program
      goes on. */
  lemma LateCompletionsAreHarmless(s: System, id: nat, e: Event)
    requires SystemOk(s) && CanHappen(s, At(id, e)) && !Live(s.cells[id])
    ensures LiveSessions(Next(s, At(id, e))) == LiveSessions(s) && !Next(s, At(id, e)).ended
    ensures forall j <- s.cells :: j != id ==> Next(s, At(id, e)).cells[j] == s.cells[j]
  {
    ClosedStays(s.cells[id], e);
    var s1 := Next(s, At(id, e));
    forall j | j in LiveSessions(s) || j in LiveSessions(s1)
      ensures j in LiveSessions(s) && j in LiveSessions(s1) && LiveSessions(s)[j] == LiveSessions(s1)[j]
    {
    }
  }

  // ---------- the end of the program ----------

  /** A waiting HTTP session is handed a head that takes its host from outside. */
  predicate HandsOverEndingHead(c: Cell, e: Event)
    requires CellOk(c) && Enabled(c, e)
  {
    && e.Done? && e.side == ServerSide && e.op.Filled? && e.ec == Success
    && Live(c) && c.session.value.state == HttpWaitRequest
    && HttpHead.ReadsOutside(Text(c.server.readBuffer[..e.op.n]))
  }

  /** The program ends exactly by such an event; no other event of any connection, and no accept,
      stops the others. */
  lemma EndsExactlyByHead(s: System, e: SystemEvent)
    requires SystemOk(s) && CanHappen(s, e)
    ensures Next(s, e).ended <==> e.At? && HandsOverEndingHead(s.cells[e.id], e.event)
  {
    if e.At? && e.event.Done? && e.event.side == ServerSide && e.event.op.Filled? {
      HttpHead.ThrowsExactlyOutside(Text(s.cells[e.id].server.readBuffer[..e.event.op.n]));
    }
  }

  lemma SplitRun(s: System, events: seq<SystemEvent>, init: seq<SystemEvent>, last: SystemEvent)
    requires SystemOk(s) && events != [] && Happens(s, events) && events == init + [last] && init != []
    ensures CanHappen(s, init[0]) && events[0] == init[0] && events[1..] == init[1..] + [last]
  {
  }

  /** A run that has ended the program is a run that has not, and one more event. */
  lemma {:induction false} EndsLast(s: System, init: seq<SystemEvent>, last: SystemEvent)
    requires SystemOk(s) && Happens(s, init + [last])
    ensures Happens(s, init) && !Finally(s, init).ended && CanHappen(Finally(s, init), last)
    ensures Finally(s, init + [last]) == Next(Finally(s, init), last)
    decreases |init|
  {
    var events := init + [last];
    if init == [] {
      assert events[0] == last && events[1..] == [];
    } else {
      SplitRun(s, events, init, last);
      EndsLast(Next(s, init[0]), init[1..], last);
    }
  }

  /** A SOCKS5 proxy never ends by an exception, whatever its peers send. */
  lemma Socks5NeverEnds(kind: Kind, events: seq<SystemEvent>)
    requires kind != TcpClient && Happens(Boot(Socks5, kind), events)
    ensures !Finally(Boot(Socks5, kind), events).ended
  {
    if events != [] {
      var s := Boot(Socks5, kind);
      var init, last := events[..|events| - 1], events[|events| - 1];
      assert events == init + [last];
      EndsLast(s, init, last);
      if last.At? {
        Projection(Socks5, kind, init, last.id);
        Socks5Theorems.Reached(kind, Local(init, last.id));
        Socks5Theorems.NeverThrows(Finally(s, init).cells[last.id], last.event);
      }
    }
  }

  // ---------- the per-connection theorems, for all connections at once ----------

  predicate Grammar(protocol: Protocol, c: Cell)
    requires CellOk(c)
  {
    match protocol
    case Socks5 => Socks5Theorems.Grammar(c)
    case Http => HttpTheorems.Grammar(c) && (HttpRuns.IsConnect(c) || HttpForwarding.HeadFirst(c))
  }

  lemma GrammarSoFar(protocol: Protocol, kind: Kind, events: seq<SystemEvent>, id: nat)
    requires kind != TcpClient && Happens(Boot(protocol, kind), events)
    requires !Finally(Boot(protocol, kind), events).ended && id in Finally(Boot(protocol, kind), events).cells
    ensures Grammar(protocol, Finally(Boot(protocol, kind), events).cells[id])
  {
    Projection(protocol, kind, events, id);
    match protocol
    case Socks5 => Socks5Theorems.OutputGrammar(kind, Local(events, id));
    case Http =>
      HttpTheorems.OutputGrammar(kind, Local(events, id));
      if !HttpRuns.IsConnect(Finally(Boot(protocol, kind), events).cells[id]) {
        HttpForwarding.HeadGoesFirst(kind, Local(events, id));
      }
  }

  /** The event that ends the program keeps the grammar, too. */
  lemma GrammarAtTheEnd(kind: Kind, init: seq<SystemEvent>, last: SystemEvent, id: nat)
    requires kind != TcpClient && Happens(Boot(Http, kind), init) && !Finally(Boot(Http, kind), init).ended
    requires CanHappen(Finally(Boot(Http, kind), init), last)
    requires var s := Next(Finally(Boot(Http, kind), init), last); s.ended && id in s.cells
    ensures Grammar(Http, Next(Finally(Boot(Http, kind), init), last).cells[id])
  {
    var s := Finally(Boot(Http, kind), init);
    GrammarSoFar(Http, kind, init, id);
    if last.id == id {
      Projection(Http, kind, init, id);
      HttpTheorems.Reached(kind, Local(init, id));
      HttpTheorems.ThrowKeepsGrammar(s.cells[id], last.event);
      HttpForwarding.UnsentIsHeadFirst(Step(s.cells[id], last.event));
    }
  }

  /** In every run of the proxy, every connection keeps to its output grammar. */
  lemma EveryConnectionKeepsItsGrammar(protocol: Protocol, kind: Kind, events: seq<SystemEvent>, id: nat)
    requires kind != TcpClient && Happens(Boot(protocol, kind), events)
    requires id in Finally(Boot(protocol, kind), events).cells
    ensures Grammar(protocol, Finally(Boot(protocol, kind), events).cells[id])
  {
    if !Finally(Boot(protocol, kind), events).ended {
      GrammarSoFar(protocol, kind, events, id);
    } else if protocol == Socks5 {
      Socks5NeverEnds(kind, events);
    } else {
      var init, last := events[..|events| - 1], events[|events| - 1];
      assert events == init + [last];
      EndsLast(Boot(protocol, kind), init, last);
      GrammarAtTheEnd(kind, init, last, id);
    }
  }
}
