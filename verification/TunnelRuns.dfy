/** What every run of a tunnel session keeps: who holds which buffer, and what has become of
    the bytes. */
module TunnelRuns {
  import opened Basics
  import opened Tunnel

  /** The outstanding operations of a session, sorted: at most one for each chain, and those
      of its closing.  The three operations of the connection phase stand in the place of up. */
  datatype Slots = Slots(up: Option<Op>, down: Option<Op>, closing: multiset<Op>)

  function Token(slot: Option<Op>): multiset<Op> {
    if slot.Some? then multiset{slot.value} else multiset{}
  }

  predicate IsDial(op: Op) { op.Resolve? || op.Connecting? || op.Handshake? }

  predicate IsClose(op: Op) { op.Shutdown? || op.NullWrite? }

  /** An operation that reads into or writes from the buffer of a chain. */
  predicate Uses(op: Op, way: Way) {
    (op.Read? || op.Filled? || op.Write?) && op.way == way
  }

  /** The operation of a chain accounts for every byte that has been read and not yet sent. */
  predicate Carries(c: Chain, way: Way, slot: Option<Op>) {
    && |c.buffer| == MAX_BUFFER_SIZE
    && match slot
       case None => c.sent <= c.received
       case Some(op) =>
         && Uses(op, way) && OpOk(op)
         && c.received == c.sent + InFlight(c.buffer, op)
  }

  /** The bytes that an operation of a chain still holds in the buffer. */
  function InFlight(buffer: seq<byte>, op: Op): seq<byte>
    requires |buffer| == MAX_BUFFER_SIZE && OpOk(op)
  {
    match op
    case Filled(_, n) => buffer[..n]
    case Write(_, len, sent) => buffer[sent..len]
    case _ => []
  }

  predicate Dialing(t: Session, s: Slots) {
    && s.up.Some? && IsDial(s.up.value) && s.down.None? && s.closing == multiset{}
    && t.member && t.localOpen && (s.up != Some(Resolve) ==> t.remoteOpen)
    && t.up.received == t.up.sent == [] && t.down.received == t.down.sent == []
  }

  predicate Carrying(t: Session, s: Slots) {
    Carries(t.up, Up, s.up) && Carries(t.down, Down, s.down)
  }

  /** A session in the set has both of its chains; one that has left has no local socket, and
      an operation that will close the remote one. */
  predicate Attached(t: Session, s: Slots) {
    && (t.member ==> s.up.Some? && s.down.Some? && s.closing == multiset{} && t.localOpen && t.remoteOpen)
    && (!t.member ==> !t.localOpen && (t.remoteOpen ==> s.closing != multiset{}))
  }

  predicate Held(t: Session, s: Slots) {
    && t.pending == Token(s.up) + Token(s.down) + s.closing
    && (forall op <- s.closing :: IsClose(op))
    && (Dialing(t, s) || (Carrying(t, s) && Attached(t, s)))
  }

  function At(s: Slots, way: Way): Option<Op> {
    if way == Up then s.up else s.down
  }

  function Put(s: Slots, way: Way, slot: Option<Op>): Slots {
    if way == Up then s.(up := slot) else s.(down := slot)
  }

  /** Every outstanding operation has its place. */
  lemma Placed(t: Session, s: Slots, op: Op)
    requires Held(t, s) && op in t.pending
    ensures s.up == Some(op) || s.down == Some(op) || op in s.closing
  {
  }

  lemma DialPlaced(t: Session, s: Slots, op: Op)
    requires Held(t, s) && op in t.pending && IsDial(op)
    ensures s.up == Some(op) && Dialing(t, s)
  {
    Placed(t, s, op);
  }

  lemma PastDialing(t: Session, s: Slots, op: Op)
    requires Held(t, s) && op in t.pending && !IsDial(op)
    ensures Carrying(t, s) && Attached(t, s)
  {
    if Dialing(t, s) {
      Placed(t, s, op);
      assert false;
    }
  }

  lemma PlacedBySide(t: Session, s: Slots, op: Op, way: Way)
    requires Carrying(t, s) && Uses(op, way) && (s.up == Some(op) || s.down == Some(op))
    ensures At(s, way) == Some(op)
  {
  }

  lemma ChainPlaced(t: Session, s: Slots, op: Op, way: Way)
    requires Held(t, s) && op in t.pending && Uses(op, way)
    ensures At(s, way) == Some(op) && Carrying(t, s) && Attached(t, s)
  {
    Placed(t, s, op);
    PastDialing(t, s, op);
    PlacedBySide(t, s, op, way);
  }

  lemma ClosePlaced(t: Session, s: Slots, op: Op)
    requires Held(t, s) && op in t.pending && IsClose(op)
    ensures op in s.closing && !t.member && Carrying(t, s) && Attached(t, s)
  {
    Placed(t, s, op);
    PastDialing(t, s, op);
  }

  /** One operation of a chain gives way to another. */
  lemma TokenTurns(pending: multiset<Op>, s: Slots, way: Way, op: Op, slot: Option<Op>)
    requires pending == Token(s.up) + Token(s.down) + s.closing && At(s, way) == Some(op)
    ensures var s' := Put(s, way, slot);
            pending - multiset{op} + Token(slot) == Token(s'.up) + Token(s'.down) + s'.closing
  {
  }

  lemma CarryingTurns(t: Session, s: Slots, way: Way, c: Chain, slot: Option<Op>)
    requires Carrying(t, s) && Carries(c, way, slot)
    ensures Carrying(With(t, way, c), Put(s, way, slot))
  {
  }

  /** A chain goes on with another operation and everything else stays. */
  lemma HeldTurns(t: Session, s: Slots, way: Way, op: Op, c: Chain, next: Op)
    requires Held(t, s) && Carrying(t, s) && Attached(t, s)
    requires At(s, way) == Some(op) && Carries(c, way, Some(next))
    ensures Held(With(t, way, c).(pending := t.pending - multiset{op} + multiset{next}), Put(s, way, Some(next)))
  {
    TokenTurns(t.pending, s, way, op, Some(next));
    CarryingTurns(t, s, way, c, Some(next));
  }

  lemma CarriesArrival(c: Chain, way: Way, bytes: seq<byte>)
    requires Carries(c, way, Some(Read(way))) && |bytes| <= MAX_BUFFER_SIZE
    ensures Carries(c.(buffer := Overwrite(c.buffer, bytes), received := c.received + bytes), way,
                    Some(Filled(way, |bytes|)))
  {
  }

  lemma ArriveHeld(t: Session, s: Slots, way: Way, bytes: seq<byte>)
    requires SessionOk(t) && Held(t, s) && Enabled(t, Arrive(way, bytes))
    ensures Held(Step(t, Arrive(way, bytes)), NextSlots(t, s, Arrive(way, bytes)))
  {
    ChainPlaced(t, s, Read(way), way);
    var c := Of(t, way);
    CarriesArrival(c, way, bytes);
    HeldTurns(t, s, way, Read(way), c.(buffer := Overwrite(c.buffer, bytes), received := c.received + bytes),
              Filled(way, |bytes|));
  }

  lemma Cut(head: seq<byte>, buffer: seq<byte>, i: nat, j: nat, k: nat)
    requires i <= j <= k <= |buffer|
    ensures head + buffer[i..k] == head + buffer[i..j] + buffer[j..k]
  {
    assert buffer[i..k] == buffer[i..j] + buffer[j..k];
  }

  lemma CarriesDeparture(c: Chain, op: Op, k: nat)
    requires op.Write? && Carries(c, op.way, Some(op)) && op.sent + k <= op.len
    ensures Carries(c.(sent := c.sent + c.buffer[op.sent..op.sent + k]), op.way,
                    Some(Write(op.way, op.len, op.sent + k)))
  {
    Cut(c.sent, c.buffer, op.sent, op.sent + k, op.len);
  }

  lemma DrainHeld(t: Session, s: Slots, op: Op, k: nat)
    requires SessionOk(t) && Held(t, s) && Enabled(t, Depart(op, k))
    ensures Held(Drain(t, op, k), Put(s, op.way, Some(Write(op.way, op.len, op.sent + k))))
  {
    ChainPlaced(t, s, op, op.way);
    var c := Of(t, op.way);
    CarriesDeparture(c, op, k);
    HeldTurns(t, s, op.way, op, c.(sent := c.sent + c.buffer[op.sent..op.sent + k]),
              Write(op.way, op.len, op.sent + k));
  }

  // ---------- the handlers ----------

  /** The chain whose place an operation takes. */
  function WayOf(op: Op): Way {
    if op.Read? || op.Filled? || op.Write? then op.way else Up
  }

  function ClosingOps(t: Session): multiset<Op> {
    if t.remoteOpen then multiset{Shutdown, NullWrite} else multiset{}
  }

  /** Where the outstanding operations stand after an event. */
  function NextSlots(t: Session, s: Slots, e: Event): Slots {
    match e
    case Arrive(way, bytes) => Put(s, way, Some(Filled(way, |bytes|)))
    case Depart(op, k) => if op.Write? then Put(s, op.way, Some(Write(op.way, op.len, op.sent + k))) else s
    case Done(op, ok) =>
      if IsClose(op) then s.(closing := s.closing - multiset{op})
      else if Leaves(op, ok) then LeftSlots(t, s, WayOf(op))
      else
        match op
        case Resolve => s.(up := Some(Connecting))
        case Connecting => s.(up := Some(Handshake))
        case Handshake => s.(up := Some(Read(Up)), down := Some(Read(Down)))
        case Filled(way, _) => Put(s, way, Some(Next(op)))
        case Write(way, _, _) => Put(s, way, Some(Next(op)))
        case _ => s
  }

  /** The connection phase goes on. */
  lemma DialTurns(t: Session, s: Slots, op: Op, next: Op)
    requires Held(t, s) && Dialing(t, s) && s.up == Some(op) && IsDial(next)
    ensures Held(t.(remoteOpen := true, pending := t.pending - multiset{op} + multiset{next}), s.(up := Some(next)))
  {
    TokenTurns(t.pending, s, Up, op, Some(next));
  }

  lemma ReadyTokens(t: Session, s: Slots, op: Op)
    requires Held(t, s) && Dialing(t, s) && s.up == Some(op)
    ensures t.pending - multiset{op} + multiset{Read(Up)} + multiset{Read(Down)}
         == Token(Some(Read(Up))) + Token(Some(Read(Down))) + s.closing
  {
  }

  lemma ReadyCarries(t: Session, s: Slots)
    requires SessionOk(t) && Dialing(t, s)
    ensures Carries(t.up, Up, Some(Read(Up))) && Carries(t.down, Down, Some(Read(Down)))
  {
  }

  /** Both chains start with a read. */
  lemma DialReady(t: Session, s: Slots)
    requires SessionOk(t) && Held(t, s) && Dialing(t, s) && s.up == Some(Handshake)
    ensures Held(t.(pending := t.pending - multiset{Handshake} + multiset{Read(Up)} + multiset{Read(Down)}),
                 s.(up := Some(Read(Up)), down := Some(Read(Down))))
  {
    ReadyTokens(t, s, Handshake);
    ReadyCarries(t, s);
  }

  lemma ResolvedShape(t: Session, s: Slots)
    requires SessionOk(t) && Enabled(t, Done(Resolve, true))
    ensures Step(t, Done(Resolve, true))
         == t.(remoteOpen := true, pending := t.pending - multiset{Resolve} + multiset{Connecting})
    ensures NextSlots(t, s, Done(Resolve, true)) == s.(up := Some(Connecting))
  {
  }

  lemma ConnectedShape(t: Session, s: Slots)
    requires SessionOk(t) && Enabled(t, Done(Connecting, true)) && t.remoteOpen
    ensures Step(t, Done(Connecting, true))
         == t.(remoteOpen := true, pending := t.pending - multiset{Connecting} + multiset{Handshake})
    ensures NextSlots(t, s, Done(Connecting, true)) == s.(up := Some(Handshake))
  {
  }

  lemma ReadyShape(t: Session, s: Slots)
    requires SessionOk(t) && Enabled(t, Done(Handshake, true))
    ensures Step(t, Done(Handshake, true))
         == t.(pending := t.pending - multiset{Handshake} + multiset{Read(Up)} + multiset{Read(Down)})
    ensures NextSlots(t, s, Done(Handshake, true)) == s.(up := Some(Read(Up)), down := Some(Read(Down)))
  {
  }

  lemma ResolvedHeld(t: Session, s: Slots)
    requires SessionOk(t) && Held(t, s) && Enabled(t, Done(Resolve, true)) && s.up == Some(Resolve) && Dialing(t, s)
    ensures Held(Step(t, Done(Resolve, true)), NextSlots(t, s, Done(Resolve, true)))
  {
    ResolvedShape(t, s);
    DialTurns(t, s, Resolve, Connecting);
  }

  lemma ConnectedHeld(t: Session, s: Slots)
    requires SessionOk(t) && Held(t, s) && Enabled(t, Done(Connecting, true))
    requires s.up == Some(Connecting) && Dialing(t, s)
    ensures Held(Step(t, Done(Connecting, true)), NextSlots(t, s, Done(Connecting, true)))
  {
    ConnectedShape(t, s);
    DialTurns(t, s, Connecting, Handshake);
  }

  lemma ReadyHeld(t: Session, s: Slots)
    requires SessionOk(t) && Held(t, s) && Enabled(t, Done(Handshake, true))
    requires s.up == Some(Handshake) && Dialing(t, s)
    ensures Held(Step(t, Done(Handshake, true)), NextSlots(t, s, Done(Handshake, true)))
  {
    ReadyShape(t, s);
    DialReady(t, s);
  }

  lemma DialHeld(t: Session, s: Slots, op: Op)
    requires SessionOk(t) && Held(t, s) && Enabled(t, Done(op, true)) && IsDial(op)
    ensures Held(Step(t, Done(op, true)), NextSlots(t, s, Done(op, true)))
  {
    DialPlaced(t, s, op);
    if op == Resolve {
      ResolvedHeld(t, s);
    } else if op == Connecting {
      ConnectedHeld(t, s);
    } else {
      assert op == Handshake;
      ReadyHeld(t, s);
    }
  }

  /** The operation that a chain goes on with. */
  function Next(op: Op): Op {
    match op
    case Filled(way, n) => Write(way, n, 0)
    case Write(way, _, _) => Read(way)
    case _ => op
  }

  lemma ContinueShape(t: Session, op: Op)
    requires SessionOk(t) && Enabled(t, Done(op, true)) && (op.Filled? || op.Write?) && !Leaves(op, true)
    ensures Step(t, Done(op, true)) == t.(pending := t.pending - multiset{op} + multiset{Next(op)})
  {
  }

  lemma ChainHeld(t: Session, s: Slots, op: Op)
    requires SessionOk(t) && Held(t, s) && Enabled(t, Done(op, true)) && (op.Filled? || op.Write?)
    requires !Leaves(op, true)
    ensures Held(Step(t, Done(op, true)), Put(s, op.way, Some(Next(op))))
  {
    ChainPlaced(t, s, op, op.way);
    var c := Of(t, op.way);
    CarriesNext(c, op);
    HeldTurns(t, s, op.way, op, c, Next(op));
    ContinueShape(t, op);
  }

  /** A filled buffer is what is going to be written; a finished write leaves nothing behind. */
  lemma CarriesNext(c: Chain, op: Op)
    requires (op.Filled? || op.Write?) && Carries(c, op.way, Some(op)) && (op.Write? ==> op.sent == op.len)
    ensures Carries(c, op.way, Some(Next(op)))
  {
    if op.Filled? {
      assert c.buffer[0..op.n] == c.buffer[..op.n];
    }
  }

  lemma ClosingTurns(pending: multiset<Op>, s: Slots, op: Op)
    requires pending == Token(s.up) + Token(s.down) + s.closing && op in s.closing
    ensures pending - multiset{op} == Token(s.up) + Token(s.down) + (s.closing - multiset{op})
  {
  }

  lemma HeldCloses(t: Session, s: Slots, op: Op)
    requires Held(t, s) && !t.member && Carrying(t, s) && Attached(t, s) && op in s.closing
    ensures Held(t.(pending := t.pending - multiset{op}, remoteOpen := false),
                 s.(closing := s.closing - multiset{op}))
  {
    ClosingTurns(t.pending, s, op);
  }

  lemma CloseShape(t: Session, op: Op, ok: bool)
    requires SessionOk(t) && Enabled(t, Done(op, ok)) && IsClose(op)
    ensures Step(t, Done(op, ok)) == t.(pending := t.pending - multiset{op}, remoteOpen := false)
  {
  }

  lemma CloseHeld(t: Session, s: Slots, op: Op, ok: bool)
    requires SessionOk(t) && Held(t, s) && Enabled(t, Done(op, ok)) && IsClose(op)
    ensures Held(Step(t, Done(op, ok)), s.(closing := s.closing - multiset{op}))
  {
    ClosePlaced(t, s, op);
    HeldCloses(t, s, op);
    CloseShape(t, op, ok);
  }

  /** What is left of a session whose handler has given up. */
  lemma LeaveShape(t: Session, op: Op, ok: bool)
    requires SessionOk(t) && Enabled(t, Done(op, ok)) && Leaves(op, ok)
    ensures Step(t, Done(op, ok)) == Left(t, op)
  {
    assert t.pending - multiset{op} + multiset{Shutdown} + multiset{NullWrite}
        == t.pending - multiset{op} + multiset{Shutdown, NullWrite};
  }

  function Left(t: Session, op: Op): Session {
    t.(pending := t.pending - multiset{op} + ClosingOps(t), localOpen := false, member := false)
  }

  function LeftSlots(t: Session, s: Slots, way: Way): Slots {
    Put(s, way, None).(closing := s.closing + ClosingOps(t))
  }

  lemma TokenLeaves(t: Session, s: Slots, way: Way, op: Op)
    requires t.pending == Token(s.up) + Token(s.down) + s.closing && At(s, way) == Some(op)
    requires forall o <- s.closing :: IsClose(o)
    ensures var s' := LeftSlots(t, s, way);
            && Left(t, op).pending == Token(s'.up) + Token(s'.down) + s'.closing
            && forall o <- s'.closing :: IsClose(o)
  {
    var s' := Put(s, way, None);
    TokenTurns(t.pending, s, way, op, None);
    assert t.pending - multiset{op} == Token(s'.up) + Token(s'.down) + s.closing;
    Regroup(Token(s'.up) + Token(s'.down), s.closing, ClosingOps(t));
  }

  lemma Regroup(a: multiset<Op>, b: multiset<Op>, c: multiset<Op>)
    ensures a + b + c == a + (b + c)
    ensures forall o | o in b + c :: o in b || o in c
  {
  }

  lemma CarryingLeft(t: Session, s: Slots, way: Way, op: Op)
    requires Carrying(t, s)
    ensures Carrying(Left(t, op), LeftSlots(t, s, way))
  {
  }

  lemma AttachedLeft(t: Session, s: Slots, way: Way, op: Op)
    ensures Attached(Left(t, op), LeftSlots(t, s, way))
  {
    assert t.remoteOpen ==> Shutdown in LeftSlots(t, s, way).closing;
  }

  lemma HeldLeaves(t: Session, s: Slots, way: Way, op: Op)
    requires Held(t, s) && At(s, way) == Some(op) && Carrying(t, s)
    ensures Held(Left(t, op), LeftSlots(t, s, way))
  {
    TokenLeaves(t, s, way, op);
    CarryingLeft(t, s, way, op);
    AttachedLeft(t, s, way, op);
  }

  lemma DialCarries(t: Session, s: Slots)
    requires SessionOk(t) && Dialing(t, s)
    ensures Carrying(t, s.(up := None))
  {
  }

  lemma DialLeaves(t: Session, s: Slots, op: Op)
    requires SessionOk(t) && Held(t, s) && Dialing(t, s) && s.up == Some(op)
    ensures Held(Left(t, op), LeftSlots(t, s, Up))
  {
    TokenLeaves(t, s, Up, op);
    DialCarries(t, s);
    assert Carrying(Left(t, op), LeftSlots(t, s, Up));
    AttachedLeft(t, s, Up, op);
  }

  lemma LeaveHeld(t: Session, s: Slots, op: Op, ok: bool)
    requires SessionOk(t) && Held(t, s) && Enabled(t, Done(op, ok)) && Leaves(op, ok)
    ensures Held(Step(t, Done(op, ok)), LeftSlots(t, s, WayOf(op)))
  {
    LeaveShape(t, op, ok);
    if IsDial(op) {
      DialPlaced(t, s, op);
      DialLeaves(t, s, op);
    } else {
      ChainPlaced(t, s, op, op.way);
      HeldLeaves(t, s, op.way, op);
    }
  }

  lemma LeaveSlots(t: Session, s: Slots, op: Op, ok: bool)
    requires Leaves(op, ok)
    ensures NextSlots(t, s, Done(op, ok)) == LeftSlots(t, s, WayOf(op))
  {
  }

  lemma LeaveHeldNext(t: Session, s: Slots, op: Op, ok: bool)
    requires SessionOk(t) && Held(t, s) && Enabled(t, Done(op, ok)) && Leaves(op, ok)
    ensures Held(Step(t, Done(op, ok)), NextSlots(t, s, Done(op, ok)))
  {
    LeaveSlots(t, s, op, ok);
    LeaveHeld(t, s, op, ok);
  }

  lemma CloseHeldNext(t: Session, s: Slots, op: Op, ok: bool)
    requires SessionOk(t) && Held(t, s) && Enabled(t, Done(op, ok)) && IsClose(op)
    ensures Held(Step(t, Done(op, ok)), NextSlots(t, s, Done(op, ok)))
  {
    assert NextSlots(t, s, Done(op, ok)) == s.(closing := s.closing - multiset{op});
    CloseHeld(t, s, op, ok);
  }

  lemma ChainHeldNext(t: Session, s: Slots, op: Op)
    requires SessionOk(t) && Held(t, s) && Enabled(t, Done(op, true)) && (op.Filled? || op.Write?)
    requires !Leaves(op, true)
    ensures Held(Step(t, Done(op, true)), NextSlots(t, s, Done(op, true)))
  {
    assert NextSlots(t, s, Done(op, true)) == Put(s, op.way, Some(Next(op)));
    ChainHeld(t, s, op);
  }

  lemma DoneHeld(t: Session, s: Slots, op: Op, ok: bool)
    requires SessionOk(t) && Held(t, s) && Enabled(t, Done(op, ok))
    ensures Held(Step(t, Done(op, ok)), NextSlots(t, s, Done(op, ok)))
  {
    if Leaves(op, ok) {
      LeaveHeldNext(t, s, op, ok);
    } else if IsClose(op) {
      CloseHeldNext(t, s, op, ok);
    } else if IsDial(op) {
      DialHeld(t, s, op);
    } else {
      ChainHeldNext(t, s, op);
    }
  }

  lemma DepartShape(t: Session, s: Slots, op: Op, k: nat)
    requires SessionOk(t) && Enabled(t, Depart(op, k))
    ensures Step(t, Depart(op, k)) == Drain(t, op, k)
    ensures NextSlots(t, s, Depart(op, k)) == Put(s, op.way, Some(Write(op.way, op.len, op.sent + k)))
  {
  }

  lemma DepartHeld(t: Session, s: Slots, op: Op, k: nat)
    requires SessionOk(t) && Held(t, s) && Enabled(t, Depart(op, k))
    ensures Held(Step(t, Depart(op, k)), NextSlots(t, s, Depart(op, k)))
  {
    DepartShape(t, s, op, k);
    DrainHeld(t, s, op, k);
  }

  /** Every step keeps every operation in its place and every byte accounted for. */
  lemma StepHeld(t: Session, s: Slots, e: Event)
    requires SessionOk(t) && Held(t, s) && Enabled(t, e)
    ensures Held(Step(t, e), NextSlots(t, s, e))
  {
    match e {
      case Arrive(way, bytes) =>
        assert e == Arrive(way, bytes);
        ArriveHeld(t, s, way, bytes);
      case Depart(op, k) =>
        assert e == Depart(op, k);
        DepartHeld(t, s, op, k);
      case Done(op, ok) =>
        assert e == Done(op, ok);
        DoneHeld(t, s, op, ok);
    }
  }
}
