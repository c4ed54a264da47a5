/** What a session of another method than CONNECT forwards: its head first and intact, and then
    as many bytes as it has read, whatever becomes of their order. */
module HttpForwarding {
  import opened Basics
  import opened Transport
  import opened Sessions
  import opened Engine
  import opened Channel
  import opened Dispatch
  import opened Closing
  import opened Relay
  import opened Handshake
  import opened HttpRuns
  import HttpTheorems
  import HttpOverlap

  // ---------- the bytes that outstanding writes still hold ----------

  function Unsent(op: Op): nat {
    if op.Write? && op.sent <= op.len then op.len - op.sent else 0
  }

  ghost function Held(p: multiset<Op>): nat
    decreases |p|
  {
    if p == multiset{} then 0 else
      var op :| op in p;
      Unsent(op) + Held(p - multiset{op})
  }

  lemma FirstCounted(p: multiset<Op>) returns (x: Op)
    requires p != multiset{}
    ensures x in p && Held(p) == Unsent(x) + Held(p - multiset{x})
  {
    x :| x in p && Held(p) == Unsent(x) + Held(p - multiset{x});
  }

  lemma TwoTaken(p: multiset<Op>, x: Op, y: Op)
    requires x in p && y in p && x != y
    ensures y in p - multiset{x} && x in p - multiset{y}
    ensures p - multiset{x} - multiset{y} == p - multiset{y} - multiset{x}
    ensures |p - multiset{x}| < |p| && |p - multiset{y}| < |p|
  {
  }

  /** The order in which the operations are counted does not matter. */
  lemma {:induction false} HeldTakes(p: multiset<Op>, op: Op)
    requires op in p
    ensures Held(p) == Unsent(op) + Held(p - multiset{op})
    decreases |p|
  {
    var x := FirstCounted(p);
    if x != op {
      TwoTaken(p, x, op);
      HeldTakes(p - multiset{x}, op);
      HeldTakes(p - multiset{op}, x);
    }
  }

  lemma HeldAdds(p: multiset<Op>, op: Op)
    ensures Held(p + multiset{op}) == Held(p) + Unsent(op)
  {
    HeldTakes(p + multiset{op}, op);
    assert p + multiset{op} - multiset{op} == p;
  }

  lemma HeldDrains(p: multiset<Op>, op: Op, k: nat)
    requires op in p && op.Write? && op.sent + k <= op.len
    ensures Held(p - multiset{op} + multiset{Write(op.len, op.sent + k)}) == Held(p) - k
  {
    HeldTakes(p, op);
    HeldAdds(p - multiset{op}, Write(op.len, op.sent + k));
  }

  lemma NothingHeld()
    ensures Held(multiset{}) == 0
  {
  }

  lemma {:induction false} HeldBound(p: multiset<Op>)
    requires forall op <- p :: OpOk(op)
    ensures Held(p) <= |p| * MAX_BUFFER_SIZE
    decreases |p|
  {
    if p != multiset{} {
      var op :| op in p;
      HeldTakes(p, op);
      HeldBound(p - multiset{op});
    }
  }

  // ---------- what is forwarded, state by state ----------

  /** The head is on its way. */
  predicate HeadLeaving(c: Cell)
    requires CellOk(c)
  {
    && In(c, HttpReadyToTransferData) && |c.chunks| == 1 && |c.chunks[0]| <= MAX_BUFFER_SIZE
    && c.client.sent <= c.chunks[0]
    && c.client.pending == multiset{Write(|c.chunks[0]|, |c.client.sent|)}
    && c.client.writeBuffer[..|c.chunks[0]|] == c.chunks[0]
    && c.session.value.toRemote == 0 && c.session.value.toLocal == 0
  }

  /** The head has gone out; every byte read after it has been counted, and has been sent or is
      in the hands of a write. */
  ghost predicate HeadGone(c: Cell)
    requires CellOk(c)
  {
    && In(c, HttpDataTransferMode) && c.chunks != [] && c.chunks[0] <= c.client.sent
    && |c.client.sent| + Held(c.client.pending) == |Flatten(c.chunks)|
    && c.session.value.toRemote == |Flatten(c.chunks)| - |c.chunks[0]| && c.session.value.toLocal == 0
  }

  /** After the close, the writes that are still out may go on. */
  ghost predicate Settled(c: Cell)
    requires CellOk(c)
  {
    && PlainClosed(c)
    && |c.client.sent| + Held(c.client.pending) <= |Flatten(c.chunks)|
    && (c.chunks[0] <= c.client.sent || (c.client.sent <= c.chunks[0] && c.client.pending == multiset{}))
  }

  ghost predicate Account(c: Cell)
    requires CellOk(c)
  {
    c.chunks != [] && !IsConnect(c) ==>
      && (In(c, HttpReadyToTransferData) ==> HeadLeaving(c))
      && (In(c, HttpDataTransferMode) ==> HeadGone(c))
      && (!Live(c) ==> ClosedInv(c) || Settled(c))
  }

  // ---------- the head leaves ----------

  lemma DialLeaves(c: Cell, beyond: seq<byte>)
    requires CellOk(c) && DialInv(c) && !IsConnect(c) && Connecting in c.client.pending
    ensures HeadLeaving(Step(c, Done(ClientSide, Connecting, Success, beyond)))
  {
    ConnectShape(c, beyond);
    DialingEnds(c, [], Connecting, Connected);
  }

  lemma HeadIsAll(c: Cell)
    requires |c.chunks| == 1
    ensures Flatten(c.chunks) == c.chunks[0]
  {
    FlattenSnoc([], c.chunks[0]);
    assert c.chunks == [] + [c.chunks[0]];
  }

  lemma LeavingDrains(c: Cell, op: Op, k: nat)
    requires CellOk(c) && HeadLeaving(c) && op in c.client.pending && op.sent + k <= op.len
    ensures HeadLeaving(c.(client := Drain(c.client, op, k)))
  {
    var head, sent := c.chunks[0], c.client.sent;
    assert sent + c.client.writeBuffer[|sent|..|sent| + k] == head[..|sent| + k];
  }

  lemma LeavingEnds(c: Cell, op: Op)
    requires CellOk(c) && HeadLeaving(c) && op in c.client.pending && op.sent == op.len
    ensures HeadGone(HttpTheorems.Doubled(c, op))
  {
    assert c.client.pending - multiset{op} == multiset{};
    NothingHeld();
    HeadIsAll(c);
  }

  // ---------- the rest follows ----------

  lemma GoneDrains(c: Cell, op: Op, k: nat)
    requires CellOk(c) && HeadGone(c) && op in c.client.pending && op.Write? && op.sent + k <= op.len
    ensures HeadGone(c.(client := Drain(c.client, op, k)))
  {
    HeldDrains(c.client.pending, op, k);
  }

  lemma GoneReads(c: Cell, n: nat)
    requires CellOk(c) && HeadGone(c) && n <= MAX_BUFFER_SIZE
    ensures HeadGone(UpTurn(c, n))
  {
    FlattenSnoc(c.chunks, c.server.readBuffer[..n]);
    HeldAdds(c.client.pending, Write(n, 0));
  }

  lemma GoneWrites(c: Cell, op: Op)
    requires CellOk(c) && HeadGone(c) && op in c.client.pending && op.Write? && op.sent == op.len
    ensures HeadGone(c.(client := Finish(c.client, op), server := DoRead(c.server)))
  {
    HeldTakes(c.client.pending, op);
  }

  // ---------- the session closes ----------

  lemma HeldShrinks(p: multiset<Op>, side: Side, op: Op)
    ensures Held(if side == ClientSide then p - multiset{op} else p) <= Held(p)
  {
    if op in p {
      HeldTakes(p, op);
    } else {
      assert p - multiset{op} == p;
    }
  }

  lemma TakenSettles(c: Cell, side: Side, op: Op)
    requires CellOk(c) && (HeadLeaving(c) || HeadGone(c)) && op in Of(c, side).pending
    requires HeadLeaving(c) ==> side == ClientSide
    requires PlainClosed(Stop(Taken(c, side, op)))
    ensures Settled(Stop(Taken(c, side, op)))
  {
    HeldShrinks(c.client.pending, side, op);
    if HeadLeaving(c) {
      HeadIsAll(c);
      assert c.client.pending - multiset{op} == multiset{};
    }
  }

  lemma FailureSettles(c: Cell, e: Event)
    requires CellOk(c) && PlainInv(c) && (HeadLeaving(c) || HeadGone(c)) && Enabled(c, e) && Fails(e)
    ensures Settled(Step(c, e))
  {
    HttpTheorems.PlainFailure(c, e);
    HttpTheorems.PlainFails(c, e);
    TakenSettles(c, e.side, e.op);
  }

  lemma SettledDrains(c: Cell, op: Op, k: nat)
    requires CellOk(c) && Settled(c) && op in c.client.pending && op.Write? && op.sent + k <= op.len
    requires PlainClosed(c.(client := Drain(c.client, op, k)))
    ensures Settled(c.(client := Drain(c.client, op, k)))
  {
    HeldDrains(c.client.pending, op, k);
  }

  lemma SettledEnds(c: Cell, op: Op)
    requires CellOk(c) && Settled(c) && PlainClosed(c.(client := Finish(c.client, op)))
    ensures Settled(c.(client := Finish(c.client, op)))
  {
    HeldShrinks(c.client.pending, ClientSide, op);
    assert c.client.pending == multiset{} ==> c.client.pending - multiset{op} == multiset{};
  }

  lemma ServerMovesSettled(c: Cell, c': Cell)
    requires CellOk(c) && Settled(c) && CellOk(c') && PlainClosed(c')
    requires c'.client == c.client && c'.chunks == c.chunks
    ensures Settled(c')
  {
  }

  lemma SettledStep(c: Cell, e: Event)
    requires CellOk(c) && Settled(c) && Enabled(c, e)
    ensures Settled(Step(c, e))
  {
    HttpTheorems.PlainClosedStep(c, e);
    if e.side == ServerSide {
      if e.Done? {
        ServerDoneClosed(c, e.op, e.ec, e.beyond);
      }
      ServerMovesSettled(c, Step(c, e));
    } else if e.Leave? {
      SettledDrains(c, e.op, e.k);
    } else if e.Done? {
      ClientDoneClosed(c, e.op, e.ec, e.beyond);
      SettledEnds(c, e.op);
    }
  }

  // ---------- all states ----------

  /** Nothing of a head is on its way. */
  lemma AccountsForNothing(c: Cell)
    requires CellOk(c) && (c.chunks == [] || DialInv(c) || (!Live(c) && ClosedInv(c)))
    ensures Account(c)
  {
  }

  lemma WaitAccount(c: Cell, t: Token, e: Event)
    requires CellOk(c) && WaitInv(c, t) && Enabled(c, e) && !Throws(c, e)
    ensures Account(Step(c, e))
  {
    if !e.Done? {
      var t' := WaitKernel(c, t, e);
    } else if Fails(e) {
      WaitFails(c, t, e);
    } else {
      GreetingDone(c, t, [], e);
      if t == Shaking {
        WaitShakes(c, e.beyond);
      } else {
        WaitEnds(c, t.n, e.beyond);
      }
    }
    AccountsForNothing(Step(c, e));
  }

  lemma DialAccount(c: Cell, e: Event)
    requires CellOk(c) && DialInv(c) && !IsConnect(c) && Enabled(c, e)
    ensures Account(Step(c, e))
  {
    DialingEnables(c, [], e);
    if e.ec != Success {
      DialFails(c, e.op, e.ec, e.beyond);
      AccountsForNothing(Step(c, e));
    } else if e.op == Resolve {
      DialingResolves(c, [], e.beyond);
      AccountsForNothing(Step(c, e));
    } else {
      DialLeaves(c, e.beyond);
    }
  }

  lemma PlainSendsAccount(c: Cell, op: Op, k: nat)
    requires CellOk(c) && (HeadLeaving(c) || HeadGone(c)) && op in c.client.pending
    requires op.Write? && op.sent + k <= op.len
    ensures var c' := c.(client := Drain(c.client, op, k)); HeadLeaving(c') || HeadGone(c')
  {
    if HeadLeaving(c) {
      LeavingDrains(c, op, k);
    } else {
      GoneDrains(c, op, k);
    }
  }

  lemma ServerMovesAccount(c: Cell, s: Stream)
    requires CellOk(c) && (HeadLeaving(c) || HeadGone(c)) && CellOk(c.(server := s))
    ensures HeadLeaving(c.(server := s)) || HeadGone(c.(server := s))
  {
  }

  lemma PlainKernelAccount(c: Cell, e: Event)
    requires CellOk(c) && PlainInv(c) && (HeadLeaving(c) || HeadGone(c)) && Enabled(c, e) && !e.Done?
    ensures HeadLeaving(Step(c, e)) || HeadGone(Step(c, e))
  {
    if e.Leave? {
      PlainSendsAccount(c, e.op, e.k);
    } else {
      ServerMovesAccount(c, Fill(c.server, e.bytes));
    }
  }

  lemma PlainWritesAccount(c: Cell, op: Op, beyond: seq<byte>)
    requires CellOk(c) && PlainInv(c) && (HeadLeaving(c) || HeadGone(c))
    requires op in c.client.pending && op.Write? && op.sent == op.len
    ensures HeadGone(Step(c, Done(ClientSide, op, Success, beyond)))
  {
    HttpTheorems.PlainWrites(c, op, beyond);
    if HeadLeaving(c) {
      LeavingEnds(c, op);
    } else {
      GoneWrites(c, op);
    }
  }

  lemma PlainReadsAccount(c: Cell, n: nat, beyond: seq<byte>)
    requires CellOk(c) && PlainInv(c) && (HeadLeaving(c) || HeadGone(c)) && Filled(n) in c.server.pending
    ensures HeadGone(Step(c, Done(ServerSide, Filled(n), Success, beyond)))
  {
    HttpTheorems.PlainReads(c, n, beyond);
    GoneReads(c, n);
  }

  lemma EitherAccounts(c: Cell)
    requires CellOk(c) && (HeadLeaving(c) || HeadGone(c) || Settled(c))
    ensures Account(c)
  {
  }

  lemma PlainAccount(c: Cell, e: Event)
    requires CellOk(c) && PlainInv(c) && (HeadLeaving(c) || HeadGone(c)) && Enabled(c, e)
    ensures Account(Step(c, e))
  {
    if !e.Done? {
      PlainKernelAccount(c, e);
    } else if Fails(e) {
      FailureSettles(c, e);
    } else {
      HttpTheorems.PlainDone(c, e);
      if e.side == ServerSide {
        PlainReadsAccount(c, e.op.n, e.beyond);
      } else {
        PlainWritesAccount(c, e.op, e.beyond);
      }
    }
    EitherAccounts(Step(c, e));
  }

  lemma ClosedAccount(c: Cell, e: Event)
    requires CellOk(c) && HttpInv(c) && !Live(c) && !IsConnect(c) && Account(c) && Enabled(c, e)
    ensures Account(Step(c, e))
  {
    if ClosedInv(c) {
      HttpTheorems.ClosedStep(c, e);
      AccountsForNothing(Step(c, e));
    } else {
      SettledStep(c, e);
      EitherAccounts(Step(c, e));
    }
  }

  lemma ConnectAccount(c: Cell, e: Event)
    requires CellOk(c) && HttpInv(c) && IsConnect(c) && Enabled(c, e) && !Throws(c, e)
    ensures Account(Step(c, e))
  {
    HttpOverlap.ConnectStays(c, e);
  }

  lemma AccountStep(c: Cell, e: Event)
    requires CellOk(c) && HttpInv(c) && Account(c) && Enabled(c, e) && !Throws(c, e)
    ensures Account(Step(c, e))
  {
    if IsConnect(c) {
      ConnectAccount(c, e);
    } else if !Live(c) {
      ClosedAccount(c, e);
    } else if t :| WaitInv(c, t) {
      WaitAccount(c, t, e);
    } else if DialInv(c) {
      DialAccount(c, e);
    } else {
      PlainAccount(c, e);
    }
  }

  lemma {:induction false} AccountRun(c: Cell, events: seq<Event>)
    requires CellOk(c) && HttpInv(c) && Account(c) && Runs(c, events)
    ensures HttpInv(After(c, events)) && Account(After(c, events))
    decreases |events|
  {
    if events != [] {
      AccountStep(c, events[0]);
      HttpTheorems.HttpStep(c, events[0]);
      AccountRun(Step(c, events[0]), events[1..]);
    }
  }

  lemma Reached(kind: Kind, events: seq<Event>)
    requires kind != TcpClient && Runs(Accepted(Http, kind), events)
    ensures HttpInv(After(Accepted(Http, kind), events)) && Account(After(Accepted(Http, kind), events))
  {
    HttpTheorems.HttpStarts(kind);
    AccountsForNothing(Accepted(Http, kind));
    AccountRun(Accepted(Http, kind), events);
  }

  // ---------- the results ----------

  /** The head goes out first, all of it before anything else, and never more bytes go out than
      have been read. */
  predicate HeadFirst(c: Cell) {
    c.chunks != [] ==>
      && (c.client.sent <= c.chunks[0] || c.chunks[0] <= c.client.sent)
      && |c.client.sent| <= |Flatten(c.chunks)|
  }

  lemma UnsentIsHeadFirst(c: Cell)
    requires c.client.sent == []
    ensures HeadFirst(c)
  {
  }

  lemma LeavingIsHeadFirst(c: Cell)
    requires CellOk(c) && HeadLeaving(c)
    ensures HeadFirst(c)
  {
    HeadIsAll(c);
  }

  lemma NeverConnectedSendsNothing(c: Cell)
    requires CellOk(c) && ClosedInv(c) && !IsConnect(c)
    ensures c.client.sent == []
  {
    assert |c.chunks| == 1 ==> c.chunks[1..] == [];
  }

  lemma AccountIsHeadFirst(c: Cell)
    requires CellOk(c) && HttpInv(c) && Account(c) && !IsConnect(c)
    ensures HeadFirst(c)
  {
    if c.chunks == [] {
    } else if !Live(c) {
      if ClosedInv(c) {
        NeverConnectedSendsNothing(c);
      }
    } else if DialInv(c) {
      UnsentIsHeadFirst(c);
    } else if HeadLeaving(c) {
      LeavingIsHeadFirst(c);
    } else {
      assert HeadGone(c);
    }
  }

  /** In every run of a session of another method. */
  lemma HeadGoesFirst(kind: Kind, events: seq<Event>)
    requires kind != TcpClient && Runs(Accepted(Http, kind), events)
    requires !IsConnect(After(Accepted(Http, kind), events))
    ensures HeadFirst(After(Accepted(Http, kind), events))
  {
    Reached(kind, events);
    AccountIsHeadFirst(After(Accepted(Http, kind), events));
  }

  /** While such a session transfers data, the bytes sent and those that its outstanding writes
      still hold are as many as the head has and the total counts. */
  lemma BytesAreCounted(kind: Kind, events: seq<Event>)
    requires kind != TcpClient && Runs(Accepted(Http, kind), events)
    requires var c := After(Accepted(Http, kind), events); In(c, HttpDataTransferMode) && !IsConnect(c)
    ensures var c := After(Accepted(Http, kind), events);
            && c.chunks != [] && c.chunks[0] <= c.client.sent
            && |c.client.sent| + Held(c.client.pending) == |c.chunks[0]| + c.session.value.toRemote
  {
    Reached(kind, events);
  }

  lemma ClosingAccount(c: Cell)
    requires CellOk(c) && PlainOpen(c) && HeadGone(c)
    ensures |c.client.sent| <= |c.chunks[0]| + c.session.value.toRemote
    ensures |c.chunks[0]| + c.session.value.toRemote <= |c.client.sent| + 2 * MAX_BUFFER_SIZE
  {
    HeldBound(c.client.pending);
  }

  /** What a session of another method has counted when it closes: its head is not in the total,
      and at most two chunks were counted and not delivered. */
  predicate CountedAtClose(ses: Session, d: Cell) {
    && ses.toLocal == 0 && d.server.sent == [] && d.chunks != []
    && if ses.state == HttpDataTransferMode then
         |d.client.sent| <= |d.chunks[0]| + ses.toRemote <= |d.client.sent| + 2 * MAX_BUFFER_SIZE
       else
         ses.toRemote == 0 && d.client.sent <= d.chunks[0]
  }

  lemma TotalsHold(c: Cell)
    requires CellOk(c) && HttpInv(c) && Account(c) && Live(c) && c.chunks != [] && !IsConnect(c)
    ensures CountedAtClose(c.session.value, c)
  {
    if PlainOpen(c) && In(c, HttpDataTransferMode) {
      ClosingAccount(c);
    }
  }

  lemma OnlyFailuresClose(c: Cell, e: Event)
    requires CellOk(c) && (DialInv(c) || PlainOpen(c)) && !IsConnect(c) && Enabled(c, e) && !Live(Step(c, e))
    ensures Step(c, e).chunks == c.chunks
  {
    if DialInv(c) {
      DialingEnables(c, [], e);
      DialStops(c, e);
    } else {
      PlainStops(c, e);
    }
  }

  lemma DialStops(c: Cell, e: Event)
    requires CellOk(c) && DialInv(c) && !IsConnect(c) && Enabled(c, e) && e.Done? && e.side == ClientSide
    requires e.op == Resolve || e.op == Connecting
    ensures !Live(Step(c, e)) ==> Step(c, e).chunks == c.chunks
  {
    if e.ec != Success {
      StepConnectFails(c, e.op, e.ec, e.beyond);
      ClientErrorStops(Linked(c, e.op, Failed(e.ec)), e.ec);
    } else if e.op == Resolve {
      DialingResolves(c, [], e.beyond);
    } else {
      DialConnects(c, e.beyond);
    }
  }

  lemma PlainStops(c: Cell, e: Event)
    requires CellOk(c) && PlainOpen(c) && Enabled(c, e) && !Live(Step(c, e))
    ensures Step(c, e).chunks == c.chunks
  {
    if !e.Done? {
      HttpTheorems.PlainKernel(c, e);
    } else if Fails(e) {
      HttpTheorems.PlainFailure(c, e);
    } else {
      HttpTheorems.PlainDone(c, e);
      if e.side == ServerSide {
        HttpTheorems.PlainReads(c, e.op.n, e.beyond);
      } else {
        HttpTheorems.PlainWrites(c, e.op, e.beyond);
      }
    }
  }

  /** Whatever event closes a session of another method. */
  lemma TotalsAtClose(kind: Kind, events: seq<Event>, e: Event)
    requires kind != TcpClient && Runs(Accepted(Http, kind), events)
    requires var c := After(Accepted(Http, kind), events);
             Live(c) && c.chunks != [] && !IsConnect(c) && Enabled(c, e) && !Live(Step(c, e))
    ensures var c := After(Accepted(Http, kind), events);
            CountedAtClose(c.session.value, Step(c, e))
  {
    var c := After(Accepted(Http, kind), events);
    Reached(kind, events);
    TotalsHold(c);
    KernelKeepsOpen(c, e);
    HandlersSendNothing(c, e);
    OnlyFailuresClose(c, e);
  }
}
