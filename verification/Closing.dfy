/** A closed connection: its session is out of the map, and what is left of its outstanding
    operations runs out without touching anything else. */
module Closing {
  import opened Basics
  import opened Transport
  import opened Sessions
  import opened Engine
  import opened Channel
  import opened Duplex
  import opened Dispatch

  predicate AtMostOneWrite(s: Stream) {
    forall a, b :: a in s.pending && b in s.pending && a.Write? && b.Write? ==> a == b && s.pending[a] == 1
  }

  /** What has left the stream is a prefix of the script, and stays one when the outstanding
      write goes on. */
  predicate Sending(s: Stream, script: seq<byte>)
    requires StreamOk(s)
  {
    && s.sent <= script
    && AtMostOneWrite(s)
    && forall op <- s.pending :: op.Write? ==> s.sent + s.writeBuffer[op.sent..op.len] <= script
  }

  lemma PlacedSends(s: Stream, r: Token, w: Token, script: seq<byte>)
    requires StreamOk(s) && Placed(s, r, w) && TokenOk(w) && OutputOk(s, w, script)
    ensures Sending(s, script)
  {
  }

  lemma FillSends(s: Stream, script: seq<byte>, bytes: seq<byte>)
    requires StreamOk(s) && Sending(s, script) && Read in s.pending && |bytes| <= MAX_BUFFER_SIZE
    ensures Sending(Fill(s, bytes), script)
  {
    var s' := Fill(s, bytes);
    assert forall op <- s'.pending :: op.Write? ==> op in s.pending && s'.pending[op] == s.pending[op];
  }

  lemma DrainSends(s: Stream, script: seq<byte>, op: Op, k: nat)
    requires StreamOk(s) && Sending(s, script)
    requires op in s.pending && op.Write? && op.sent + k <= op.len
    ensures Sending(Drain(s, op, k), script)
  {
    var s', op' := Drain(s, op, k), Write(op.len, op.sent + k);
    DrainOutput(s, op, k, s.sent + s.writeBuffer[op.sent..op.len]);
    assert s'.sent + s'.writeBuffer[op'.sent..op'.len] == s.sent + s.writeBuffer[op.sent..op.len];
    OnlyDrained(s, op, op');
  }

  lemma OnlyDrained(s: Stream, op: Op, op': Op)
    requires AtMostOneWrite(s) && op in s.pending && op.Write? && op'.Write?
    ensures var p := s.pending - multiset{op} + multiset{op'};
            forall a <- p :: a.Write? ==> a == op' && p[a] == 1
  {
    assert op' in s.pending ==> op' == op;
  }

  lemma FinishSends(s: Stream, script: seq<byte>, op: Op)
    requires StreamOk(s) && Sending(s, script)
    ensures Sending(Finish(s, op), script)
  {
    var s' := Finish(s, op);
    assert forall a <- s'.pending :: a in s.pending && s'.pending[a] <= s.pending[a];
  }

  lemma StartSends(s: Stream, script: seq<byte>, op: Op)
    requires StreamOk(s) && Sending(s, script) && !op.Write? && OpOk(op)
    ensures Sending(Start(s, op), script)
  {
    var s' := Start(s, op);
    assert forall a <- s'.pending :: a.Write? ==> a in s.pending && s'.pending[a] == s.pending[a];
  }

  lemma StopSends(s: Stream, script: seq<byte>)
    requires StreamOk(s) && Sending(s, script)
    ensures Sending(DoStop(s), script)
  {
    if s.kind == TlsServer && s.open {
      StartSends(s, script, Shutdown);
      StartSends(Start(s, Shutdown), script, NullWrite);
    }
  }

  lemma SendingGrows(s: Stream, script: seq<byte>, more: seq<byte>)
    requires StreamOk(s) && Sending(s, script) && script <= more
    ensures Sending(s, more)
  {
  }

  /** Out of the map, with both outputs on their scripts and no connection attempt under way. */
  predicate Flushing(c: Cell, down: seq<byte>, up: seq<byte>)
    requires CellOk(c)
  {
    && !Live(c)
    && Sending(c.server, down) && Sending(c.client, up)
    && Resolve !in c.client.pending && Connecting !in c.client.pending
  }

  /** Stopping a connection whose outputs are on their scripts leaves it flushing. */
  lemma StopFlushes(c: Cell, down: seq<byte>, up: seq<byte>)
    requires LiveOk(c) && Sending(c.server, down) && Sending(c.client, up)
    requires Resolve !in c.client.pending && Connecting !in c.client.pending
    ensures Flushing(Stop(c), down, up)
  {
    StopSends(c.server, down);
  }

  /** Also when an operation has just ended. */
  lemma TakenFlushes(c: Cell, side: Side, op: Op, down: seq<byte>, up: seq<byte>)
    requires LiveOk(c) && Sending(c.server, down) && Sending(c.client, up)
    requires Resolve !in c.client.pending && Connecting !in c.client.pending
    ensures Flushing(Stop(Taken(c, side, op)), down, up)
    ensures StreamsKeep(c, Stop(Taken(c, side, op)))
  {
    if side == ServerSide {
      FinishSends(c.server, down, op);
    } else {
      FinishSends(c.client, up, op);
    }
    StopFlushes(Taken(c, side, op), down, up);
  }

  predicate StreamsKeep(c: Cell, c': Cell) {
    && c'.chunks == c.chunks && c'.client.link == c.client.link
    && c'.server.sent == c.server.sent && c'.client.received == c.client.received
  }

  /** What a step leaves alone once the session is closed. */
  predicate OnlyStreamsMove(c: Cell, c': Cell) {
    && c'.session == c.session && c'.chunks == c.chunks && c'.client.link == c.client.link
    && c.server.received <= c'.server.received && c.client.received <= c'.client.received
    && c.server.sent <= c'.server.sent && c.client.sent <= c'.client.sent
  }

  lemma ArriveFlushes(c: Cell, down: seq<byte>, up: seq<byte>, side: Side, bytes: seq<byte>)
    requires CellOk(c) && Flushing(c, down, up) && Enabled(c, Arrive(side, bytes))
    ensures var c' := Step(c, Arrive(side, bytes)); Flushing(c', down, up) && OnlyStreamsMove(c, c')
  {
    FillSends(Of(c, side), if side == ServerSide then down else up, bytes);
  }

  lemma LeaveFlushes(c: Cell, down: seq<byte>, up: seq<byte>, side: Side, op: Op, k: nat)
    requires CellOk(c) && Flushing(c, down, up) && Enabled(c, Leave(side, op, k))
    ensures var c' := Step(c, Leave(side, op, k)); Flushing(c', down, up) && OnlyStreamsMove(c, c')
  {
    DrainSends(Of(c, side), if side == ServerSide then down else up, op, k);
  }

  lemma KernelFlushes(c: Cell, down: seq<byte>, up: seq<byte>, e: Event)
    requires CellOk(c) && Flushing(c, down, up) && Enabled(c, e) && !e.Done?
    ensures Flushing(Step(c, e), down, up) && OnlyStreamsMove(c, Step(c, e))
  {
    if e.Arrive? {
      ArriveFlushes(c, down, up, e.side, e.bytes);
    } else {
      LeaveFlushes(c, down, up, e.side, e.op, e.k);
    }
  }

  /** The effect of a completion on a closed connection: the operation is gone, and at most one
      further operation, of a lower kind, has been started. */
  function ServerEcho(s: Stream, op: Op, ec: ErrorCode): (r: Stream)
    requires StreamOk(s)
    ensures StreamOk(r)
  {
    var s1 := Finish(s, op);
    if op.Handshake? && ec == Success then DoRead(s1)
    else if op.Shutdown? || op.NullWrite? then s1.(open := false)
    else s1
  }

  lemma ServerDoneClosed(c: Cell, op: Op, ec: ErrorCode, beyond: seq<byte>)
    requires CellOk(c) && !Live(c) && Enabled(c, Done(ServerSide, op, ec, beyond))
    ensures Step(c, Done(ServerSide, op, ec, beyond)) == c.(server := ServerEcho(c.server, op, ec))
  {
  }

  lemma ClientDoneClosed(c: Cell, op: Op, ec: ErrorCode, beyond: seq<byte>)
    requires CellOk(c) && !Live(c) && Enabled(c, Done(ClientSide, op, ec, beyond))
    requires !op.Resolve? && !op.Connecting?
    ensures Step(c, Done(ClientSide, op, ec, beyond)) == c.(client := Finish(c.client, op))
  {
  }

  lemma EchoSends(s: Stream, script: seq<byte>, op: Op, ec: ErrorCode)
    requires StreamOk(s) && Sending(s, script)
    ensures Sending(ServerEcho(s, op, ec), script)
  {
    FinishSends(s, script, op);
    StartSends(Finish(s, op), script, Read);
  }

  lemma ServerDoneFlushes(c: Cell, down: seq<byte>, up: seq<byte>, op: Op, ec: ErrorCode, beyond: seq<byte>)
    requires CellOk(c) && Flushing(c, down, up) && Enabled(c, Done(ServerSide, op, ec, beyond))
    ensures var c' := Step(c, Done(ServerSide, op, ec, beyond)); Flushing(c', down, up) && OnlyStreamsMove(c, c')
  {
    ServerDoneClosed(c, op, ec, beyond);
    EchoSends(c.server, down, op, ec);
  }

  lemma ClientDoneFlushes(c: Cell, down: seq<byte>, up: seq<byte>, op: Op, ec: ErrorCode, beyond: seq<byte>)
    requires CellOk(c) && Flushing(c, down, up) && Enabled(c, Done(ClientSide, op, ec, beyond))
    ensures var c' := Step(c, Done(ClientSide, op, ec, beyond)); Flushing(c', down, up) && OnlyStreamsMove(c, c')
  {
    ClientDoneClosed(c, op, ec, beyond);
    FinishSends(c.client, up, op);
  }

  lemma DoneFlushes(c: Cell, down: seq<byte>, up: seq<byte>, e: Event)
    requires CellOk(c) && Flushing(c, down, up) && Enabled(c, e) && e.Done?
    ensures Flushing(Step(c, e), down, up) && OnlyStreamsMove(c, Step(c, e))
  {
    if e.side == ServerSide {
      ServerDoneFlushes(c, down, up, e.op, e.ec, e.beyond);
    } else {
      ClientDoneFlushes(c, down, up, e.op, e.ec, e.beyond);
    }
  }

  lemma FlushStep(c: Cell, down: seq<byte>, up: seq<byte>, e: Event)
    requires CellOk(c) && Flushing(c, down, up) && Enabled(c, e)
    ensures Flushing(Step(c, e), down, up) && OnlyStreamsMove(c, Step(c, e))
  {
    if e.Done? {
      DoneFlushes(c, down, up, e);
    } else {
      KernelFlushes(c, down, up, e);
    }
  }

  // ---------- closed for good ----------

  /** Only a completion closes a session. */
  lemma KernelKeepsOpen(c: Cell, e: Event)
    requires CellOk(c) && Enabled(c, e)
    ensures e.Done? || Live(Step(c, e)) == Live(c)
  {
  }

  /** No step brings a closed session back or gives it anything to read. */
  lemma ClosedStays(c: Cell, e: Event)
    requires CellOk(c) && !Live(c) && Enabled(c, e)
    ensures !Live(Step(c, e)) && Step(c, e).chunks == c.chunks
  {
    if e.Done? && e.side == ServerSide {
      ServerDoneClosed(c, e.op, e.ec, e.beyond);
    } else if e.Done? {
      ClientSideClosed(c, e);
    }
  }

  lemma ClientSideClosed(c: Cell, e: Event)
    requires CellOk(c) && !Live(c) && Enabled(c, e) && e.Done? && e.side == ClientSide
    ensures Step(c, e) == c.(client := Step(c, e).client)
    ensures Step(c, e).client.pending
         == c.client.pending - multiset{e.op}
            + (if e.op == Resolve && e.ec == Success then multiset{Connecting} else multiset{})
  {
    if e.op == Resolve && e.ec == Success {
      StepResolve(c, e.beyond);
    } else if e.op == Resolve || e.op == Connecting {
      AttemptClosed(c, e);
    } else {
      ClientDoneClosed(c, e.op, e.ec, e.beyond);
    }
  }

  lemma AttemptClosed(c: Cell, e: Event)
    requires CellOk(c) && !Live(c) && Enabled(c, e) && e.Done? && e.side == ClientSide
    requires (e.op == Resolve && e.ec != Success) || e.op == Connecting
    ensures var link := if e.ec == Success then Connected else Failed(e.ec);
            Step(c, e) == Linked(c, e.op, link)
  {
    if e.ec == Success {
      StepConnect(c, e.beyond);
    } else {
      StepConnectFails(c, e.op, e.ec, e.beyond);
    }
  }

  lemma {:induction false} ClosedForGood(c: Cell, events: seq<Event>)
    requires CellOk(c) && !Live(c) && Runs(c, events)
    ensures !Live(After(c, events)) && After(c, events).chunks == c.chunks
    decreases |events|
  {
    if events != [] {
      ClosedStays(c, events[0]);
      ClosedForGood(Step(c, events[0]), events[1..]);
    }
  }

  // ---------- winding down ----------

  /** The completions a stream can still cause: one per operation, and one more for each
      operation whose success starts another. */
  function Weight(s: Stream): nat {
    |s.pending| + s.pending[Resolve] + s.pending[Handshake]
  }

  function CellWeight(c: Cell): nat {
    Weight(c.server) + Weight(c.client)
  }

  lemma FillWeight(s: Stream, bytes: seq<byte>)
    requires StreamOk(s) && Read in s.pending && |bytes| <= MAX_BUFFER_SIZE
    ensures Weight(Fill(s, bytes)) == Weight(s)
  {
  }

  lemma DrainWeight(s: Stream, op: Op, k: nat)
    requires StreamOk(s) && op in s.pending && op.Write? && op.sent + k <= op.len
    ensures Weight(Drain(s, op, k)) == Weight(s)
  {
  }

  lemma EchoWeight(s: Stream, op: Op, ec: ErrorCode)
    requires StreamOk(s) && op in s.pending
    ensures Weight(ServerEcho(s, op, ec)) < Weight(s)
  {
  }

  lemma ClientWeight(s: Stream, s': Stream, op: Op, more: multiset<Op>)
    requires op in s.pending && s'.pending == s.pending - multiset{op} + more
    requires more == if op == Resolve then multiset{Connecting} else multiset{}
    ensures Weight(s') < Weight(s)
  {
  }

  lemma FinishWeight(s: Stream, s': Stream, op: Op)
    requires op in s.pending && s'.pending == s.pending - multiset{op}
    ensures Weight(s') < Weight(s)
  {
  }

  lemma TakenWeight(c: Cell, side: Side, op: Op)
    requires CellOk(c) && op in Of(c, side).pending
    ensures CellWeight(Taken(c, side, op)) < CellWeight(c)
  {
    FinishWeight(Of(c, side), Finish(Of(c, side), op), op);
  }

  lemma StopWeight(c: Cell)
    requires CellOk(c)
    ensures CellWeight(Stop(c)) <= CellWeight(c) + 2
  {
  }

  lemma ClientDoneWeight(c: Cell, e: Event)
    requires CellOk(c) && !Live(c) && Enabled(c, e) && e.Done? && e.side == ClientSide
    ensures CellWeight(Step(c, e)) < CellWeight(c)
  {
    ClientSideClosed(c, e);
    if e.op == Resolve && e.ec == Success {
      ClientWeight(c.client, Step(c, e).client, e.op, multiset{Connecting});
    } else {
      FinishWeight(c.client, Step(c, e).client, e.op);
    }
  }

  lemma KernelKeepsWeight(c: Cell, e: Event)
    requires CellOk(c) && Enabled(c, e) && !e.Done?
    ensures CellWeight(Step(c, e)) == CellWeight(c)
  {
    if e.Arrive? {
      FillWeight(Of(c, e.side), e.bytes);
    } else {
      DrainWeight(Of(c, e.side), e.op, e.k);
    }
  }

  /** Every completion of a closed connection uses weight up, and nothing adds any. */
  lemma ClosedWindsDown(c: Cell, e: Event)
    requires CellOk(c) && !Live(c) && Enabled(c, e)
    ensures if e.Done? then CellWeight(Step(c, e)) < CellWeight(c) else CellWeight(Step(c, e)) == CellWeight(c)
  {
    if !e.Done? {
      KernelKeepsWeight(c, e);
    } else if e.side == ServerSide {
      ServerDoneClosed(c, e.op, e.ec, e.beyond);
      EchoWeight(c.server, e.op, e.ec);
    } else {
      ClientDoneWeight(c, e);
    }
  }

  function Completions(events: seq<Event>): nat {
    if events == [] then 0 else (if events[0].Done? then 1 else 0) + Completions(events[1..])
  }

  /** A closed connection dies out: it completes at most as many operations as it weighs. */
  lemma {:induction false} ClosedDiesOut(c: Cell, events: seq<Event>)
    requires CellOk(c) && !Live(c) && Runs(c, events)
    ensures Completions(events) + CellWeight(After(c, events)) <= CellWeight(c)
    decreases |events|
  {
    if events != [] {
      ClosedStays(c, events[0]);
      ClosedWindsDown(c, events[0]);
      ClosedDiesOut(Step(c, events[0]), events[1..]);
    }
  }
}
