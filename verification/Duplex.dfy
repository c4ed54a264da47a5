/** Two directions over one pair of streams: each token has one outstanding operation, and a
    move of one token leaves the other direction alone. */
module Duplex {
  import opened Basics
  import opened Transport
  import opened Channel

  // ---------- where the tokens stand on one stream ----------

  /** The stream holds exactly the read operation of r and the write operation of w. */
  predicate Placed(s: Stream, r: Token, w: Token) {
    s.pending == ReadPart(r) + WritePart(w)
  }

  lemma WhoseOperation(s: Stream, r: Token, w: Token, op: Op)
    requires Placed(s, r, w) && op in s.pending
    ensures op.Read? ==> r == Reading
    ensures op.Filled? ==> r == Loaded(op.n)
    ensures op.Write? ==> w == Writing(op.len, op.sent)
    ensures op.Handshake? ==> r == Shaking
    ensures op.Read? || op.Filled? || op.Write? || op.Handshake?
  {
  }

  lemma PlacedFill(s: Stream, w: Token, bytes: seq<byte>)
    requires StreamOk(s) && Placed(s, Reading, w) && |bytes| <= MAX_BUFFER_SIZE
    ensures Read in s.pending && Placed(Fill(s, bytes), Loaded(|bytes|), w)
  {
  }

  lemma PlacedDrain(s: Stream, r: Token, op: Op, k: nat)
    requires StreamOk(s) && op.Write? && Placed(s, r, Writing(op.len, op.sent)) && op.sent + k <= op.len
    ensures op in s.pending
    ensures Placed(Drain(s, op, k), r, Writing(op.len, op.sent + k))
  {
  }

  lemma PlacedFinishRead(s: Stream, n: nat, w: Token, r': Token)
    requires StreamOk(s) && Placed(s, Loaded(n), w) && r'.Writing?
    ensures Placed(Finish(s, Filled(n)), r', w)
  {
  }

  lemma PlacedFinishWrite(s: Stream, r: Token, len: nat, sent: nat, w': Token)
    requires StreamOk(s) && Placed(s, r, Writing(len, sent)) && !w'.Writing?
    ensures Placed(Finish(s, Write(len, sent)), r, w')
  {
  }

  lemma PlacedRead(s: Stream, r: Token, w: Token)
    requires StreamOk(s) && Placed(s, r, w) && r.Writing?
    ensures Placed(DoRead(s), Reading, w)
  {
  }

  lemma PlacedWrite(s: Stream, r: Token, w: Token, event: seq<byte>)
    requires StreamOk(s) && Placed(s, r, w) && !w.Writing? && |event| <= MAX_BUFFER_SIZE
    ensures Placed(DoWrite(s, event), r, Writing(|event|, 0))
  {
  }

  // ---------- both directions ----------

  /** Of the two streams x and y, a runs from x to y and b from y to x. */
  predicate Coupled(x: Stream, y: Stream, a: Lane, b: Lane)
    requires StreamOk(x) && StreamOk(y)
  {
    && Placed(x, a.token, b.token) && Placed(y, b.token, a.token)
    && Carries(x, y, a) && Carries(y, x, b)
  }

  /** The token of a moves to t, and the other pipe does not change. */
  predicate Advances(x: Stream, y: Stream, a: Lane, b: Lane, x': Stream, y': Stream, t: Token)
    requires StreamOk(x) && StreamOk(y) && Coupled(x, y, a, b) && StreamOk(x') && StreamOk(y')
  {
    && Coupled(x', y', a.(token := t), b)
    && PipeStep(PipeOf(x, y, a), PipeOf(x', y', a.(token := t)))
    && PipeOf(y', x', b) == PipeOf(y, x, b)
  }

  lemma Arrives(x: Stream, y: Stream, a: Lane, b: Lane, bytes: seq<byte>)
    requires StreamOk(x) && StreamOk(y) && Coupled(x, y, a, b)
    requires Read in x.pending && |bytes| <= MAX_BUFFER_SIZE
    ensures Advances(x, y, a, b, Fill(x, bytes), y, Loaded(|bytes|))
  {
    WhoseOperation(x, a.token, b.token, Read);
    PlacedFill(x, b.token, bytes);
    ChunkArrives(x, y, a, bytes);
    CarriesFrame(y, x, y, Fill(x, bytes), b);
  }

  lemma Leaves(x: Stream, y: Stream, a: Lane, b: Lane, op: Op, k: nat)
    requires StreamOk(x) && StreamOk(y) && Coupled(x, y, a, b)
    requires op in y.pending && op.Write? && op.sent + k <= op.len
    ensures Advances(x, y, a, b, x, Drain(y, op, k), Writing(op.len, op.sent + k))
  {
    WhoseOperation(y, b.token, a.token, op);
    PlacedDrain(y, b.token, op, k);
    BytesLeave(x, y, a, op, k);
    LeftAlone(x, y, a, b, Drain(y, op, k), Writing(op.len, op.sent + k));
  }

  lemma LeftAlone(x: Stream, y: Stream, a: Lane, b: Lane, y': Stream, t: Token)
    requires StreamOk(x) && StreamOk(y) && StreamOk(y') && Coupled(x, y, a, b)
    requires a.token.Writing? && t.Writing? && SameInput(y, y') && Placed(y', b.token, t)
    requires Moves(x, y, a, x, y', t)
    ensures Advances(x, y, a, b, x, y', t)
  {
    CarriesFrame(y, x, y', x, b);
  }

  lemma Turns(x: Stream, y: Stream, a: Lane, b: Lane, n: nat)
    requires StreamOk(x) && StreamOk(y) && Coupled(x, y, a, b) && Filled(n) in x.pending
    ensures n <= MAX_BUFFER_SIZE
    ensures Advances(x, y, a, b, Finish(x, Filled(n)), DoWrite(y, x.readBuffer[..n]), Writing(n, 0))
  {
    var x', y' := Finish(x, Filled(n)), DoWrite(y, x.readBuffer[..n]);
    WhoseOperation(x, a.token, b.token, Filled(n));
    PlacedFinishRead(x, n, b.token, Writing(n, 0));
    PlacedWrite(y, b.token, Loaded(n), x.readBuffer[..n]);
    ChunkTurns(x, y, a, n);
    CarriesFrame(x, y', x', y', a.(token := Writing(n, 0)));
    CarriesFrame(y, x, y', x', b);
  }

  lemma Rests(x: Stream, y: Stream, a: Lane, b: Lane, op: Op)
    requires StreamOk(x) && StreamOk(y) && Coupled(x, y, a, b)
    requires op in y.pending && op.Write? && op.sent == op.len
    ensures Advances(x, y, a, b, DoRead(x), Finish(y, op), Reading)
  {
    var x', y' := DoRead(x), Finish(y, op);
    WhoseOperation(y, b.token, a.token, op);
    PlacedFinishWrite(y, b.token, op.len, op.sent, Reading);
    PlacedRead(x, a.token, b.token);
    ChunkIsOver(x, y, a, op.len);
    CarriesFrame(x, y, x', y', a.(token := Reading));
    CarriesFrame(y, x, y', x', b);
  }
}
