/** How far a handshake still has to go, counted in callbacks of the stream manager. */
module Progress {
  import opened Transport
  import opened Sessions
  import opened Engine
  import opened Dispatch

  predicate HasWrite(s: Stream) {
    exists op <- s.pending :: op.Write?
  }

  /** The callbacks left before the session relays or is closed. */
  function Rank(c: Cell): nat {
    if !Live(c) then 0
    else match c.session.value.state
      case AuthRequest => 5
      case ConnectionRequest => if HasWrite(c.server) then 4 else 3
      case HttpWaitRequest => 3
      case ConnectionEstablished => if c.client.link == Unconnected then 2 else 1
      case HttpConnectionEstablished => 2
      case ReadyToTransferData | HttpReadyToTransferData => 1
      case DataTransferMode | HttpDataTransferMode => 0
  }

  /** A completion that calls the manager; a TLS handshake and a name lookup that succeed do not. */
  predicate Callback(e: Event) {
    e.Done? && !(e.ec == Success && (e.op == Handshake || e.op == Resolve))
  }

  /** A callback uses up rank; nothing else changes it. */
  predicate Progresses(c: Cell, e: Event, c': Cell) {
    if Callback(e) then Rank(c') < Rank(c) else Rank(c') == Rank(c)
  }

  function Callbacks(events: seq<Event>): nat {
    if events == [] then 0 else (if Callback(events[0]) then 1 else 0) + Callbacks(events[1..])
  }

  // ---------- how much a session waits for ----------

  function Outstanding(c: Cell): nat {
    |c.server.pending| + |c.client.pending|
  }

  /** A live session waits for one operation until it transfers data, and then for two. */
  predicate Waits(c: Cell)
    requires Live(c)
  {
    Outstanding(c) == if Transferring(c.session.value.state) then 2 else 1
  }

  /** A session that waits never runs dry: as long as it is open, an event does not lower the
      number of its outstanding operations.  A completion that met an empty handler would. */
  predicate DropsNothing(c: Cell, c': Cell) {
    Live(c') ==> Outstanding(c') >= Outstanding(c)
  }

  lemma WaitsAndDropsNothing(c: Cell, c': Cell)
    requires Live(c) && Waits(c) && (Live(c') ==> Waits(c'))
    requires Live(c') && Transferring(c.session.value.state) ==> Transferring(c'.session.value.state)
    ensures DropsNothing(c, c')
  {
  }

  lemma ExchangeCounts(p: multiset<Op>, op: Op, next: Op)
    requires op in p
    ensures |p - multiset{op} + multiset{next}| == |p|
  {
  }

  lemma FinishCounts(p: multiset<Op>, op: Op)
    requires op in p
    ensures |p - multiset{op}| == |p| - 1
  {
  }

  lemma KernelCounts(c: Cell, e: Event)
    requires CellOk(c) && Enabled(c, e) && !e.Done?
    ensures Outstanding(Step(c, e)) == Outstanding(c)
  {
    if e.Arrive? {
      ExchangeCounts(Of(c, e.side).pending, Read, Filled(|e.bytes|));
    } else {
      ExchangeCounts(Of(c, e.side).pending, e.op, Write(e.op.len, e.op.sent + e.k));
    }
  }
}
