/** One direction of a relay: the stream it reads from, the stream it writes to, and the one
    token that says where its activity is.  Each move of the token is a step of an abstract
    lossless pipe. */
module Channel {
  import opened Basics
  import opened Transport

  // ---------- the abstract pipe ----------

  /** What a pipe holds between its source and its sink. */
  datatype Cargo = Empty | Held(chunk: seq<byte>) | Moving(rest: seq<byte>)

  datatype Pipe = Pipe(source: seq<byte>, sink: seq<byte>, cargo: Cargo)

  function InFlight(p: Pipe): seq<byte> {
    match p.cargo case Empty => [] case Held(chunk) => chunk case Moving(rest) => rest
  }

  /** First in, first out, nothing lost: all that came in has gone out or is in flight, and
      what is in flight is at most one chunk. */
  predicate Lossless(p: Pipe) {
    p.source == p.sink + InFlight(p) && |InFlight(p)| <= MAX_BUFFER_SIZE
  }

  /** Take a chunk in, turn it around, let some of it out, or be done with it. */
  predicate PipeStep(p: Pipe, q: Pipe) {
    match p.cargo
    case Empty =>
      && q.cargo.Held? && |q.cargo.chunk| <= MAX_BUFFER_SIZE
      && q == Pipe(p.source + q.cargo.chunk, p.sink, q.cargo)
    case Held(chunk) => q == p.(cargo := Moving(chunk))
    case Moving(rest) =>
      || (rest == [] && q == p.(cargo := Empty))
      || (q.cargo.Moving? && Releases(rest, q.cargo.rest)
          && q == Pipe(p.source, p.sink + Released(rest, q.cargo.rest), q.cargo))
  }

  predicate Releases(rest: seq<byte>, rest': seq<byte>) {
    |rest'| <= |rest| && rest[|rest| - |rest'|..] == rest'
  }

  /** The front of rest that is gone when rest' is left. */
  function Released(rest: seq<byte>, rest': seq<byte>): seq<byte>
    requires Releases(rest, rest')
  {
    rest[..|rest| - |rest'|]
  }

  /** The abstract machine loses and reorders nothing. */
  lemma PipeStepIsLossless(p: Pipe, q: Pipe)
    requires Lossless(p) && PipeStep(p, q)
    ensures Lossless(q)
  {
    if p.cargo.Moving? && q.cargo.Moving? {
      var out := Released(p.cargo.rest, q.cargo.rest);
      assert p.cargo.rest == out + q.cargo.rest;
      assert p.sink + (out + q.cargo.rest) == (p.sink + out) + q.cargo.rest;
    }
  }

  // ---------- tokens ----------

  /** Where the one activity of a direction is: at the read that feeds it or at the write that
      drains it.  Shaking is the TLS handshake that precedes the first read. */
  datatype Token = Shaking | Reading | Loaded(n: nat) | Writing(len: nat, sent: nat)

  /** The outstanding operation of a token, on the stream that is read. */
  function ReadPart(t: Token): multiset<Op> {
    match t
    case Shaking => multiset{Handshake}
    case Reading => multiset{Read}
    case Loaded(n) => multiset{Filled(n)}
    case Writing(_, _) => multiset{}
  }

  /** The outstanding operation of a token, on the stream that is written. */
  function WritePart(t: Token): multiset<Op> {
    if t.Writing? then multiset{Write(t.len, t.sent)} else multiset{}
  }

  predicate TokenOk(t: Token) {
    && (t.Loaded? ==> t.n <= MAX_BUFFER_SIZE)
    && (t.Writing? ==> t.sent <= t.len <= MAX_BUFFER_SIZE)
  }

  /** The read buffer holds exactly the last n bytes received. */
  predicate InputOk(s: Stream, t: Token)
    requires StreamOk(s) && TokenOk(t)
  {
    t.Loaded? ==> t.n <= |s.received| && s.received[|s.received| - t.n..] == s.readBuffer[..t.n]
  }

  /** The bytes already handed to the session. */
  function Consumed(s: Stream, t: Token): seq<byte>
    requires StreamOk(s) && TokenOk(t) && InputOk(s, t)
  {
    if t.Loaded? then s.received[..|s.received| - t.n] else s.received
  }

  /** What has left the stream, followed by the part of the write buffer that is still to
      leave, is exactly the script. */
  predicate OutputOk(s: Stream, t: Token, script: seq<byte>)
    requires StreamOk(s) && TokenOk(t)
  {
    if t.Writing? then s.sent + s.writeBuffer[t.sent..t.len] == script else s.sent == script
  }

  // ---------- what the stream operations do to a token ----------

  lemma FillInput(s: Stream, bytes: seq<byte>)
    requires StreamOk(s) && Read in s.pending && |bytes| <= MAX_BUFFER_SIZE
    ensures InputOk(Fill(s, bytes), Loaded(|bytes|))
    ensures Consumed(Fill(s, bytes), Loaded(|bytes|)) == s.received
  {
  }

  /** Handing over the n bytes of the read buffer completes what was received. */
  lemma ConsumeInput(s: Stream, n: nat)
    requires StreamOk(s) && n <= MAX_BUFFER_SIZE && InputOk(s, Loaded(n))
    ensures s.received == Consumed(s, Loaded(n)) + s.readBuffer[..n]
  {
  }

  lemma WriteOutput(s: Stream, event: seq<byte>, script: seq<byte>)
    requires StreamOk(s) && |event| <= MAX_BUFFER_SIZE && s.sent == script
    ensures OutputOk(DoWrite(s, event), Writing(|event|, 0), script + event)
  {
    assert DoWrite(s, event).writeBuffer[0..|event|] == event;
  }

  lemma DrainOutput(s: Stream, op: Op, k: nat, script: seq<byte>)
    requires StreamOk(s) && op in s.pending && op.Write? && op.sent + k <= op.len
    requires TokenOk(Writing(op.len, op.sent)) && OutputOk(s, Writing(op.len, op.sent), script)
    ensures OutputOk(Drain(s, op, k), Writing(op.len, op.sent + k), script)
  {
    var b, m := s.writeBuffer, op.sent + k;
    var piece, rest := b[op.sent..m], b[m..op.len];
    assert b[op.sent..op.len] == piece + rest;
    assert s.sent + (piece + rest) == (s.sent + piece) + rest;
  }

  /** When all of a write has left, the script has left. */
  lemma WriteIsOver(s: Stream, len: nat, script: seq<byte>)
    requires StreamOk(s) && len <= MAX_BUFFER_SIZE && OutputOk(s, Writing(len, len), script)
    ensures s.sent == script
  {
    assert s.writeBuffer[len..len] == [];
  }

  // ---------- a direction ----------

  /** A direction: its token, the bytes read before it began, and the bytes written before. */
  datatype Lane = Lane(token: Token, head: seq<byte>, greeting: seq<byte>)

  /** After the head, all that from has handed over has been written to to, behind the greeting. */
  predicate Carries(from: Stream, to: Stream, d: Lane)
    requires StreamOk(from) && StreamOk(to)
  {
    && TokenOk(d.token) && !d.token.Shaking?
    && InputOk(from, d.token)
    && d.head <= Consumed(from, d.token)
    && d.greeting <= to.sent
    && OutputOk(to, d.token, d.greeting + Consumed(from, d.token)[|d.head|..])
  }

  function CargoOf(t: Token, from: Stream, to: Stream): Cargo
    requires StreamOk(from) && StreamOk(to) && TokenOk(t)
  {
    match t
    case Loaded(n) => Held(from.readBuffer[..n])
    case Writing(len, sent) => Moving(to.writeBuffer[sent..len])
    case _ => Empty
  }

  /** The pipe that a direction implements. */
  function PipeOf(from: Stream, to: Stream, d: Lane): Pipe
    requires StreamOk(from) && StreamOk(to) && Carries(from, to, d)
  {
    Pipe(from.received[|d.head|..], to.sent[|d.greeting|..], CargoOf(d.token, from, to))
  }

  lemma CarriesLossless(from: Stream, to: Stream, d: Lane)
    requires StreamOk(from) && StreamOk(to) && Carries(from, to, d)
    ensures Lossless(PipeOf(from, to, d))
  {
    var t, greeting := d.token, d.greeting;
    var source, sink := from.received[|d.head|..], to.sent[|greeting|..];
    var relayed := Consumed(from, t)[|d.head|..];
    assert to.sent == greeting + sink;
    if t.Loaded? {
      ConsumeInput(from, t.n);
      assert source == relayed + from.readBuffer[..t.n];
      assert sink == relayed;
    } else if t.Writing? {
      var rest := to.writeBuffer[t.sent..t.len];
      assert (greeting + sink) + rest == greeting + (sink + rest);
      assert sink + rest == (greeting + relayed)[|greeting|..];
    } else {
      assert sink == relayed;
    }
  }

  /** The token of d moves to t: the direction still carries, and its pipe makes one step. */
  predicate Moves(from: Stream, to: Stream, d: Lane, from': Stream, to': Stream, t: Token)
    requires StreamOk(from) && StreamOk(to) && Carries(from, to, d) && StreamOk(from') && StreamOk(to')
  {
    && Carries(from', to', d.(token := t))
    && PipeStep(PipeOf(from, to, d), PipeOf(from', to', d.(token := t)))
  }

  lemma ChunkArrives(from: Stream, to: Stream, d: Lane, bytes: seq<byte>)
    requires StreamOk(from) && StreamOk(to) && Carries(from, to, d) && d.token == Reading
    requires Read in from.pending && |bytes| <= MAX_BUFFER_SIZE
    ensures Moves(from, to, d, Fill(from, bytes), to, Loaded(|bytes|))
  {
    FillInput(from, bytes);
    assert (from.received + bytes)[|d.head|..] == from.received[|d.head|..] + bytes;
  }

  lemma ChunkTurns(from: Stream, to: Stream, d: Lane, n: nat)
    requires StreamOk(from) && StreamOk(to) && Carries(from, to, d) && d.token == Loaded(n)
    ensures Moves(from, to, d, from, DoWrite(to, from.readBuffer[..n]), Writing(n, 0))
  {
    var chunk, consumed := from.readBuffer[..n], Consumed(from, Loaded(n));
    var to' := DoWrite(to, chunk);
    ConsumeInput(from, n);
    WriteOutput(to, chunk, to.sent);
    assert (consumed + chunk)[|d.head|..] == consumed[|d.head|..] + chunk;
    assert (d.greeting + consumed[|d.head|..]) + chunk == d.greeting + (consumed[|d.head|..] + chunk);
    assert to'.writeBuffer[0..n] == chunk;
  }

  lemma BytesLeave(from: Stream, to: Stream, d: Lane, op: Op, k: nat)
    requires StreamOk(from) && StreamOk(to) && Carries(from, to, d)
    requires op in to.pending && op.Write? && op.sent + k <= op.len && d.token == Writing(op.len, op.sent)
    ensures Moves(from, to, d, from, Drain(to, op, k), Writing(op.len, op.sent + k))
  {
    var to' := Drain(to, op, k);
    var out, rest := to.writeBuffer[op.sent..op.sent + k], to.writeBuffer[op.sent + k..op.len];
    DrainOutput(to, op, k, d.greeting + from.received[|d.head|..]);
    var all := to.writeBuffer[op.sent..op.len];
    assert all == out + rest;
    assert Released(all, rest) == out;
    assert to'.sent[|d.greeting|..] == to.sent[|d.greeting|..] + out;
  }

  lemma ChunkIsOver(from: Stream, to: Stream, d: Lane, len: nat)
    requires StreamOk(from) && StreamOk(to) && Carries(from, to, d) && d.token == Writing(len, len)
    ensures Moves(from, to, d, from, to, Reading)
  {
    WriteIsOver(to, len, d.greeting + from.received[|d.head|..]);
    assert to.writeBuffer[len..len] == [];
  }

  /** A direction looks only at what was received and read-buffered on one stream and at what
      was sent and is write-buffered on the other. */
  predicate SameInput(s: Stream, s': Stream) {
    s.received == s'.received && s.readBuffer == s'.readBuffer
  }

  predicate SameOutput(s: Stream, s': Stream) {
    s.sent == s'.sent && s.writeBuffer == s'.writeBuffer
  }

  lemma CarriesFrame(from: Stream, to: Stream, from': Stream, to': Stream, d: Lane)
    requires StreamOk(from) && StreamOk(to) && Carries(from, to, d)
    requires StreamOk(from') && StreamOk(to') && SameInput(from, from') && SameOutput(to, to')
    ensures Carries(from', to', d)
    ensures PipeOf(from', to', d) == PipeOf(from, to, d)
  {
  }
}
