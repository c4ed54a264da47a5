/** One session of the TLS tunnel as a value: two relay chains, each with one buffer that its
    reads fill and its writes drain. */
module Tunnel {
  import opened Basics

  /** Up is the chain from the local to the remote side, Down the one back. */
  datatype Way = Up | Down

  /** An outstanding asynchronous operation.  A read is Read until the kernel has put n bytes
      into the buffer of its chain; a write of the first len bytes of that buffer has handed
      the first sent of them to the kernel. */
  datatype Op =
    | Resolve
    | Connecting
    | Handshake
    | Read(way: Way)
    | Filled(way: Way, n: nat)
    | Write(way: Way, len: nat, sent: nat)
    | Shutdown
    | NullWrite

  /** A chain's buffer, and the bytes the kernel has put in and taken out since the start. */
  datatype Chain = Chain(buffer: seq<byte>, received: seq<byte>, sent: seq<byte>)

  datatype Session = Session(
    up: Chain,
    down: Chain,
    pending: multiset<Op>,
    localOpen: bool,
    remoteOpen: bool,
    member: bool)

  function Of(t: Session, way: Way): Chain {
    if way == Up then t.up else t.down
  }

  function With(t: Session, way: Way, c: Chain): Session {
    if way == Up then t.(up := c) else t.(down := c)
  }

  /** The socket that a chain reads from. */
  predicate SourceOpen(t: Session, way: Way) {
    if way == Up then t.localOpen else t.remoteOpen
  }

  /** The socket that a chain writes to. */
  predicate SinkOpen(t: Session, way: Way) {
    if way == Up then t.remoteOpen else t.localOpen
  }

  predicate OpOk(op: Op) {
    && (op.Filled? ==> op.n <= MAX_BUFFER_SIZE)
    && (op.Write? ==> op.sent <= op.len <= MAX_BUFFER_SIZE)
  }

  predicate SessionOk(t: Session) {
    && |t.up.buffer| == MAX_BUFFER_SIZE && |t.down.buffer| == MAX_BUFFER_SIZE
    && forall op <- t.pending :: OpOk(op)
  }

  // ---------- what the session does ----------

  function Begin(t: Session, op: Op): (r: Session)
    requires SessionOk(t) && OpOk(op)
    ensures SessionOk(r)
  {
    t.(pending := t.pending + multiset{op})
  }

  /** An accepted connection: the session joins the manager and starts resolving. */
  function Start(): (t: Session)
    ensures SessionOk(t)
  {
    var zeros := seq(MAX_BUFFER_SIZE, _ => 0 as byte);
    var chain := Chain(zeros, [], []);
    Begin(Session(chain, chain, multiset{}, true, false, true), Resolve)
  }

  /** The local socket is closed at once; the remote one when the TLS shutdown or the empty
      write started here is over. */
  function Close(t: Session): (r: Session)
    requires SessionOk(t)
    ensures SessionOk(r)
  {
    var t1 := t.(localOpen := false);
    if t.remoteOpen then Begin(Begin(t1, Shutdown), NullWrite) else t1
  }

  function Leave(t: Session): (r: Session)
    requires SessionOk(t)
    ensures SessionOk(r)
  {
    Close(t).(member := false)
  }

  /** Whether the handler of a finished operation ends the session. */
  predicate Leaves(op: Op, ok: bool) {
    match op
    case Shutdown | NullWrite => false
    case Filled(_, n) => !ok || n == 0
    case Write(_, len, _) => !ok || len == 0
    case Read(_) => true
    case _ => !ok
  }

  /** The handler of an operation that does not end the session. */
  function Continue(t: Session, op: Op): (r: Session)
    requires SessionOk(t) && OpOk(op)
    ensures SessionOk(r)
  {
    match op
    case Resolve => Begin(t.(remoteOpen := true), Connecting)
    case Connecting => Begin(t, Handshake)
    case Handshake => Begin(Begin(t, Read(Up)), Read(Down))
    case Filled(way, n) => Begin(t, Write(way, n, 0))
    case Write(way, _, _) => Begin(t, Read(way))
    case Shutdown | NullWrite => t.(remoteOpen := false)
    case Read(_) => t
  }

  /** What the session does when an operation is over. */
  function Handle(t: Session, op: Op, ok: bool): (r: Session)
    requires SessionOk(t) && OpOk(op)
    ensures SessionOk(r)
  {
    if Leaves(op, ok) then Leave(t) else Continue(t, op)
  }

  // ---------- steps and runs ----------

  /** What happens next: bytes arrive, bytes leave, or the handler of an operation runs. */
  datatype Event =
    | Arrive(way: Way, bytes: seq<byte>)
    | Depart(op: Op, k: nat)
    | Done(op: Op, ok: bool)

  /** The handler of this event calls leave. */
  predicate Gives(e: Event) { e.Done? && Leaves(e.op, e.ok) }

  /** Nothing moves through a closed socket.  Any operation may fail at any time; a read
      succeeds once bytes have arrived, a write once all of its bytes have left. */
  predicate Enabled(t: Session, e: Event) {
    match e
    case Arrive(way, bytes) => Read(way) in t.pending && SourceOpen(t, way) && |bytes| <= MAX_BUFFER_SIZE
    case Depart(op, k) => op in t.pending && op.Write? && SinkOpen(t, op.way) && op.sent + k <= op.len
    case Done(op, ok) => op in t.pending && (ok ==> !op.Read? && (op.Write? ==> op.sent == op.len))
  }

  /** Bytes are put into the buffer of a chain. */
  function Fill(t: Session, way: Way, bytes: seq<byte>): (r: Session)
    requires SessionOk(t) && |bytes| <= MAX_BUFFER_SIZE
    ensures SessionOk(r)
  {
    var c := Of(t, way);
    With(t, way, c.(buffer := Overwrite(c.buffer, bytes), received := c.received + bytes))
      .(pending := t.pending - multiset{Read(way)} + multiset{Filled(way, |bytes|)})
  }

  /** The next k bytes of a write are taken, from the buffer as it is now. */
  function Drain(t: Session, op: Op, k: nat): (r: Session)
    requires SessionOk(t) && op in t.pending && op.Write? && op.sent + k <= op.len
    ensures SessionOk(r)
  {
    var c := Of(t, op.way);
    With(t, op.way, c.(sent := c.sent + c.buffer[op.sent..op.sent + k]))
      .(pending := t.pending - multiset{op} + multiset{Write(op.way, op.len, op.sent + k)})
  }

  function Step(t: Session, e: Event): (r: Session)
    requires SessionOk(t) && Enabled(t, e)
    ensures SessionOk(r)
  {
    match e
    case Arrive(way, bytes) => Fill(t, way, bytes)
    case Depart(op, k) => Drain(t, op, k)
    case Done(op, ok) => Handle(t.(pending := t.pending - multiset{op}), op, ok)
  }

  predicate Runs(t: Session, events: seq<Event>)
    requires SessionOk(t)
    decreases |events|
  {
    events == [] || (Enabled(t, events[0]) && Runs(Step(t, events[0]), events[1..]))
  }

  function After(t: Session, events: seq<Event>): (r: Session)
    requires SessionOk(t) && Runs(t, events)
    ensures SessionOk(r)
    decreases |events|
  {
    if events == [] then t else After(Step(t, events[0]), events[1..])
  }
}
