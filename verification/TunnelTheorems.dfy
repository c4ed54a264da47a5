/** The tunnel's guarantees over whole runs: buffer ownership and order, membership in the
    session set, and the end of a session that has been given up. */
module TunnelTheorems {
  import opened Basics
  import opened Tunnel
  import opened TunnelRuns

  function SlotsAfter(t: Session, s: Slots, events: seq<Event>): Slots
    requires SessionOk(t) && Runs(t, events)
    decreases |events|
  {
    if events == [] then s else SlotsAfter(Step(t, events[0]), NextSlots(t, s, events[0]), events[1..])
  }

  lemma {:induction false} RunHeld(t: Session, s: Slots, events: seq<Event>)
    requires SessionOk(t) && Held(t, s) && Runs(t, events)
    ensures Held(After(t, events), SlotsAfter(t, s, events))
    decreases |events|
  {
    if events != [] {
      StepHeld(t, s, events[0]);
      RunHeld(Step(t, events[0]), NextSlots(t, s, events[0]), events[1..]);
    }
  }

  function StartSlots(): Slots { Slots(Some(Resolve), None, multiset{}) }

  /** The slots of a session after a run from its start. */
  lemma FromStart(events: seq<Event>) returns (s: Slots)
    requires Runs(Start(), events)
    ensures Held(After(Start(), events), s)
  {
    s := SlotsAfter(Start(), StartSlots(), events);
    RunHeld(Start(), StartSlots(), events);
  }

  // ---------- ownership and order ----------

  lemma OneHolder(t: Session, s: Slots, a: Op, b: Op, way: Way)
    requires Held(t, s) && a in t.pending && b in t.pending && Uses(a, way) && Uses(b, way)
    ensures a == b && t.pending[a] == 1
  {
    ChainPlaced(t, s, a, way);
    ChainPlaced(t, s, b, way);
  }

  /** In every run, each buffer is in the hands of at most one outstanding operation. */
  lemma BuffersHaveOneOwner(events: seq<Event>, a: Op, b: Op, way: Way)
    requires Runs(Start(), events)
    requires a in After(Start(), events).pending && b in After(Start(), events).pending
    requires Uses(a, way) && Uses(b, way)
    ensures a == b && After(Start(), events).pending[a] == 1
  {
    var s := FromStart(events);
    OneHolder(After(Start(), events), s, a, b, way);
  }

  lemma InOrder(t: Session, s: Slots, way: Way)
    requires Held(t, s)
    ensures Of(t, way).sent <= Of(t, way).received
    ensures |Of(t, way).received| - |Of(t, way).sent| <= MAX_BUFFER_SIZE || At(s, way) == None
  {
  }

  /** In every run, what has been written to either side is a prefix of what has been read
      from the other. */
  lemma BytesStayInOrder(events: seq<Event>, way: Way)
    requires Runs(Start(), events)
    ensures Of(After(Start(), events), way).sent <= Of(After(Start(), events), way).received
  {
    var s := FromStart(events);
    InOrder(After(Start(), events), s, way);
  }

  /** While the session is in the set, no byte is lost: all that has been read and not been
      written is in the buffer of one operation. */
  lemma NothingIsLost(events: seq<Event>, way: Way)
    requires Runs(Start(), events) && After(Start(), events).member
    ensures var c := Of(After(Start(), events), way);
            c.received == c.sent
            || exists op <- After(Start(), events).pending ::
                 Uses(op, way) && OpOk(op) && |c.buffer| == MAX_BUFFER_SIZE
                 && c.received == c.sent + InFlight(c.buffer, op)
  {
    var s := FromStart(events);
    var t := After(Start(), events);
    if Carrying(t, s) && Attached(t, s) {
      assert At(s, way).value in t.pending;
    }
  }

  // ---------- membership ----------

  lemma StepMember(t: Session, e: Event)
    requires SessionOk(t) && Enabled(t, e)
    ensures Step(t, e).member == (t.member && !Gives(e))
  {
  }

  /** Nobody gives the session up. */
  predicate Kept(events: seq<Event>) {
    forall i :: 0 <= i < |events| ==> !Gives(events[i])
  }

  lemma KeptSplits(events: seq<Event>)
    requires events != []
    ensures Kept(events) <==> !Gives(events[0]) && Kept(events[1..])
  {
    var rest := events[1..];
    if !Gives(events[0]) && Kept(rest) {
      forall i | 0 <= i < |events|
        ensures !Gives(events[i])
      {
        assert i > 0 ==> events[i] == rest[i - 1];
      }
    }
    if Kept(events) {
      assert forall i :: 0 <= i < |rest| ==> rest[i] == events[i + 1];
    }
  }

  lemma {:induction false} MemberFrom(t: Session, events: seq<Event>)
    requires SessionOk(t) && Runs(t, events)
    ensures After(t, events).member <==> t.member && Kept(events)
    decreases |events|
  {
    if events != [] {
      StepMember(t, events[0]);
      MemberFrom(Step(t, events[0]), events[1..]);
      KeptSplits(events);
    }
  }

  /** A session is in the set exactly from its start to its first leave; a later leave finds
      it gone and changes nothing about that. */
  lemma MemberExactlyUntilFirstLeave(events: seq<Event>)
    requires Runs(Start(), events)
    ensures After(Start(), events).member <==> Kept(events)
  {
    MemberFrom(Start(), events);
  }

  /** A session in the set is never stuck: it has exactly one operation of its connection
      phase outstanding, or exactly one for each chain. */
  lemma MembersAreNotStuck(events: seq<Event>)
    requires Runs(Start(), events) && After(Start(), events).member
    ensures var pending := After(Start(), events).pending;
            || (exists a <- pending :: IsDial(a) && pending == multiset{a})
            || (exists a <- pending, b <- pending :: Uses(a, Up) && Uses(b, Down) && pending == multiset{a, b})
  {
    var s := FromStart(events);
    var pending := After(Start(), events).pending;
    var a := s.up.value;
    assert a in pending;
    if s.down.None? {
      assert pending == multiset{a};
    } else {
      var b := s.down.value;
      assert b in pending && pending == multiset{a, b};
    }
  }

  /** A session with nothing outstanding has left the set and closed both sockets. */
  lemma NothingStaysOpen(events: seq<Event>)
    requires Runs(Start(), events) && After(Start(), events).pending == multiset{}
    ensures var t := After(Start(), events); !t.member && !t.localOpen && !t.remoteOpen
  {
    var s := FromStart(events);
    var t := After(Start(), events);
    assert |t.pending| == |Token(s.up)| + |Token(s.down)| + |s.closing|;
  }

  /** Each leave closes the local socket and, if the remote one is open, starts one of each of the
      two operations that close it. */
  lemma LeaveStartsBoth(t: Session, e: Event)
    requires SessionOk(t) && Enabled(t, e) && Gives(e)
    ensures var d := Step(t, e);
            && !d.member && !d.localOpen && d.remoteOpen == t.remoteOpen
            && d.pending == t.pending - multiset{e.op}
                            + (if t.remoteOpen then multiset{Shutdown, NullWrite} else multiset{})
  {
  }

  /** Either of them closes it when it is over, whether it failed or not. */
  lemma EitherCloses(t: Session, op: Op, ok: bool)
    requires SessionOk(t) && (op == Shutdown || op == NullWrite) && Enabled(t, Done(op, ok))
    ensures Step(t, Done(op, ok)) == t.(remoteOpen := false, pending := t.pending - multiset{op})
  {
  }

  // ---------- a session can be served ----------

  lemma FirstThen(t: Session, e: Event, d: Session, rest: seq<Event>)
    requires SessionOk(t) && Enabled(t, e) && d == Step(t, e) && Runs(d, rest)
    ensures Runs(t, [e] + rest) && After(t, [e] + rest) == After(d, rest)
  {
    assert ([e] + rest)[1..] == rest;
  }

  /** Nothing has been read, and both sides are being read. */
  predicate Idle(t: Session) {
    && SessionOk(t) && t.member && t.localOpen && t.remoteOpen && t.pending == multiset{Read(Up), Read(Down)}
  }

  /** Every session can come to relay. */
  lemma Connects() returns (d: Session, events: seq<Event>)
    ensures Runs(Start(), events) && After(Start(), events) == d && Idle(d)
    ensures d.up.received == d.up.sent == d.down.received == d.down.sent == []
  {
    var t0 := Start();
    var t1 := Step(t0, Done(Resolve, true));
    var t2 := Step(t1, Done(Connecting, true));
    d := Step(t2, Done(Handshake, true));
    FirstThen(t2, Done(Handshake, true), d, []);
    FirstThen(t1, Done(Connecting, true), t2, [Done(Handshake, true)] + []);
    events := [Done(Resolve, true)] + ([Done(Connecting, true)] + ([Done(Handshake, true)] + []));
    FirstThen(t0, Done(Resolve, true), t1, [Done(Connecting, true)] + ([Done(Handshake, true)] + []));
  }

  function Other(way: Way): Way {
    if way == Up then Down else Up
  }

  /** One chain is at op, the other is being read. */
  predicate Busy(t: Session, way: Way, op: Op) {
    && SessionOk(t) && t.member && t.localOpen && t.remoteOpen && t.pending == multiset{op, Read(Other(way))}
  }

  lemma BothReads(way: Way)
    ensures multiset{Read(Up), Read(Down)} == multiset{Read(way), Read(Other(way))}
  {
  }

  lemma Swapped(a: Op, b: Op, c: Op)
    ensures multiset{a, b} - multiset{a} + multiset{c} == multiset{c, b}
  {
  }

  lemma ChunkArrives(t: Session, way: Way, x: seq<byte>) returns (d: Session)
    requires Idle(t) && 0 < |x| <= MAX_BUFFER_SIZE
    ensures Enabled(t, Arrive(way, x)) && d == Step(t, Arrive(way, x)) && Busy(d, way, Filled(way, |x|))
    ensures Of(d, way).received == Of(t, way).received + x && Of(d, way).sent == Of(t, way).sent
    ensures Of(d, way).buffer[..|x|] == x && Of(d, Other(way)) == Of(t, Other(way))
  {
    BothReads(way);
    Swapped(Read(way), Read(Other(way)), Filled(way, |x|));
    d := Step(t, Arrive(way, x));
  }

  lemma ChunkTurns(t: Session, way: Way, n: nat) returns (d: Session)
    requires Busy(t, way, Filled(way, n)) && n > 0
    ensures var e := Done(Filled(way, n), true); Enabled(t, e) && d == Step(t, e)
    ensures Busy(d, way, Write(way, n, 0)) && d.up == t.up && d.down == t.down
  {
    d := Step(t, Done(Filled(way, n), true));
  }

  lemma ChunkDeparts(t: Session, way: Way, x: seq<byte>) returns (d: Session)
    requires Busy(t, way, Write(way, |x|, 0)) && |x| <= MAX_BUFFER_SIZE && Of(t, way).buffer[..|x|] == x
    ensures var e := Depart(Write(way, |x|, 0), |x|); Enabled(t, e) && d == Step(t, e)
    ensures Busy(d, way, Write(way, |x|, |x|))
    ensures Of(d, way).received == Of(t, way).received && Of(d, way).sent == Of(t, way).sent + x
    ensures Of(d, Other(way)) == Of(t, Other(way))
  {
    assert Write(way, |x|, 0) in t.pending;
    d := Step(t, Depart(Write(way, |x|, 0), |x|));
    assert Of(t, way).buffer[0..|x|] == x;
  }

  lemma ChunkRests(t: Session, way: Way, n: nat) returns (d: Session)
    requires Busy(t, way, Write(way, n, n)) && n > 0
    ensures var e := Done(Write(way, n, n), true); Enabled(t, e) && d == Step(t, e)
    ensures Idle(d) && d.up == t.up && d.down == t.down
  {
    d := Step(t, Done(Write(way, n, n), true));
    BothReads(way);
    Swapped(Write(way, n, n), Read(Other(way)), Read(way));
  }

  lemma FourSteps(t: Session, e1: Event, t1: Session, e2: Event, t2: Session, e3: Event, t3: Session, e4: Event,
                  d: Session)
    returns (events: seq<Event>)
    requires SessionOk(t) && Enabled(t, e1) && t1 == Step(t, e1) && Enabled(t1, e2) && t2 == Step(t1, e2)
    requires Enabled(t2, e3) && t3 == Step(t2, e3) && Enabled(t3, e4) && d == Step(t3, e4)
    ensures Runs(t, events) && After(t, events) == d
  {
    FirstThen(t3, e4, d, []);
    FirstThen(t2, e3, t3, [e4] + []);
    FirstThen(t1, e2, t2, [e3] + ([e4] + []));
    FirstThen(t, e1, t1, [e2] + ([e3] + ([e4] + [])));
    events := [e1] + ([e2] + ([e3] + ([e4] + [])));
  }

  /** Every chunk can pass: from two idle chains, some run brings it from either side to the other
      and comes back to two idle chains. */
  lemma ChunkPasses(t: Session, way: Way, x: seq<byte>) returns (d: Session, events: seq<Event>)
    requires Idle(t) && 0 < |x| <= MAX_BUFFER_SIZE
    ensures Runs(t, events) && After(t, events) == d && Idle(d)
    ensures Of(d, way).received == Of(t, way).received + x && Of(d, way).sent == Of(t, way).sent + x
    ensures Of(d, Other(way)) == Of(t, Other(way))
  {
    var n := |x|;
    var t1 := ChunkArrives(t, way, x);
    var t2 := ChunkTurns(t1, way, n);
    var t3 := ChunkDeparts(t2, way, x);
    d := ChunkRests(t3, way, n);
    events := FourSteps(t, Arrive(way, x), t1, Done(Filled(way, n), true), t2,
                        Depart(Write(way, n, 0), n), t3, Done(Write(way, n, n), true), d);
  }

  // ---------- the end of a session ----------

  /** How many completions a chain can still have once the session has left.  The local socket
      is closed, so nothing more arrives for Up and nothing more departs for Down. */
  function Rank(slot: Option<Op>): nat {
    match slot
    case Some(Read(Up)) => 1
    case Some(Write(Up, _, _)) => 2
    case Some(Filled(Up, _)) => 3
    case Some(Read(Down)) => 2
    case Some(Filled(Down, _)) => 2
    case Some(Write(Down, len, sent)) => if sent < len then 1 else 3
    case _ => 0
  }

  /** A completion of the given chain. */
  predicate Completes(e: Event, way: Way) { e.Done? && Uses(e.op, way) }

  lemma ArriveKeepsRank(t: Session, s: Slots, w: Way, bytes: seq<byte>, way: Way)
    requires Held(t, s) && Enabled(t, Arrive(w, bytes)) && !t.member
    ensures Rank(At(NextSlots(t, s, Arrive(w, bytes)), way)) <= Rank(At(s, way))
  {
    ChainPlaced(t, s, Read(w), w);
  }

  lemma DepartKeepsRank(t: Session, s: Slots, op: Op, k: nat, way: Way)
    requires Held(t, s) && Enabled(t, Depart(op, k)) && !t.member
    ensures Rank(At(NextSlots(t, s, Depart(op, k)), way)) <= Rank(At(s, way))
  {
    ChainPlaced(t, s, op, op.way);
  }

  lemma DoneSlots(t: Session, s: Slots, op: Op, ok: bool, way: Way)
    requires Uses(op, WayOf(op)) && (ok ==> !op.Read?)
    ensures var s' := NextSlots(t, s, Done(op, ok));
            At(s', way) == if way != WayOf(op) then At(s, way)
                           else if Leaves(op, ok) then None
                           else Some(Next(op))
  {
  }

  lemma NextRanksLower(op: Op, ok: bool)
    requires Uses(op, WayOf(op)) && (ok ==> !op.Read? && (op.Write? ==> op.sent == op.len))
    ensures Rank(Some(op)) > (if Leaves(op, ok) then Rank(None) else Rank(Some(Next(op))))
  {
  }

  lemma DoneLowersRank(t: Session, s: Slots, op: Op, ok: bool, way: Way)
    requires Held(t, s) && Enabled(t, Done(op, ok)) && !t.member && Uses(op, WayOf(op))
    ensures var s' := NextSlots(t, s, Done(op, ok));
            if way == op.way then Rank(At(s', way)) < Rank(At(s, way)) else At(s', way) == At(s, way)
  {
    ChainPlaced(t, s, op, op.way);
    DoneSlots(t, s, op, ok, way);
    NextRanksLower(op, ok);
  }

  lemma OnlyChainsAndClosing(t: Session, s: Slots, op: Op)
    requires Held(t, s) && op in t.pending && !t.member
    ensures IsClose(op) || (!IsDial(op) && Uses(op, WayOf(op)))
  {
    if IsDial(op) {
      DialPlaced(t, s, op);
    }
  }

  /** After the session has left, every completion of a chain brings the chain closer to its
      end, and nothing else moves it away from there. */
  lemma RankFalls(t: Session, s: Slots, e: Event, way: Way)
    requires Held(t, s) && Enabled(t, e) && !t.member
    ensures Rank(At(NextSlots(t, s, e), way)) <= Rank(At(s, way)) - (if Completes(e, way) then 1 else 0)
  {
    match e {
      case Arrive(w, bytes) => ArriveKeepsRank(t, s, w, bytes, way);
      case Depart(op, k) => DepartKeepsRank(t, s, op, k, way);
      case Done(op, ok) =>
        OnlyChainsAndClosing(t, s, op);
        if !IsClose(op) {
          DoneLowersRank(t, s, op, ok, way);
        }
    }
  }

  function Count(events: seq<Event>, way: Way): nat {
    if events == [] then 0 else (if Completes(events[0], way) then 1 else 0) + Count(events[1..], way)
  }

  function CountAll(events: seq<Event>): nat {
    if events == [] then 0 else (if events[0].Done? then 1 else 0) + CountAll(events[1..])
  }

  /** A session that has left keeps its operations in their places and stays out. */
  lemma StaysOut(t: Session, s: Slots, e: Event)
    requires SessionOk(t) && Held(t, s) && Enabled(t, e) && !t.member
    ensures Held(Step(t, e), NextSlots(t, s, e)) && !Step(t, e).member
  {
    StepHeld(t, s, e);
    StepMember(t, e);
  }

  lemma {:induction false} ChainCount(t: Session, s: Slots, events: seq<Event>, way: Way)
    requires SessionOk(t) && Held(t, s) && Runs(t, events) && !t.member
    ensures Count(events, way) <= Rank(At(s, way))
    decreases |events|
  {
    if events != [] {
      RankFalls(t, s, events[0], way);
      StaysOut(t, s, events[0]);
      ChainCount(Step(t, events[0]), NextSlots(t, s, events[0]), events[1..], way);
    }
  }

  /** After the session has left, a chain has at most three more completions. */
  lemma ChainsDieOut(t: Session, s: Slots, events: seq<Event>, way: Way)
    requires SessionOk(t) && Held(t, s) && Runs(t, events) && !t.member
    ensures Count(events, way) <= Rank(At(s, way)) <= 3
  {
    ChainCount(t, s, events, way);
  }

  /** What is still to come: the completions of a chain, the two closing operations that its
      end may start, and those already started. */
  function Weight(s: Slots): nat {
    ChainWeight(s.up) + ChainWeight(s.down) + |s.closing|
  }

  function ChainWeight(slot: Option<Op>): nat {
    Rank(slot) + (if slot.Some? then 2 else 0)
  }

  lemma ClosingCount(m: multiset<Op>, op: Op)
    requires op in m
    ensures |m - multiset{op}| == |m| - 1
  {
  }

  /** A closing operation that is over takes its own weight away. */
  lemma CloseWeighs(t: Session, s: Slots, op: Op, ok: bool)
    requires Held(t, s) && Enabled(t, Done(op, ok)) && IsClose(op)
    ensures Weight(NextSlots(t, s, Done(op, ok))) == Weight(s) - 1
  {
    ClosePlaced(t, s, op);
    ClosingCount(s.closing, op);
  }

  lemma LeftWeighs(t: Session, s: Slots, way: Way)
    requires At(s, way).Some?
    ensures Weight(LeftSlots(t, s, way)) <= Weight(s) - Rank(At(s, way))
  {
    assert |ClosingOps(t)| <= 2;
    assert |s.closing + ClosingOps(t)| == |s.closing| + |ClosingOps(t)|;
  }

  lemma TurnWeighs(t: Session, s: Slots, op: Op, ok: bool)
    requires Uses(op, WayOf(op)) && At(s, op.way) == Some(op) && !Leaves(op, ok) && !op.Read?
    requires Rank(Some(op)) > Rank(Some(Next(op)))
    ensures Weight(NextSlots(t, s, Done(op, ok))) < Weight(s)
  {
  }

  /** A chain that goes on has less to come, one that ends makes room for its closing. */
  lemma ChainWeighs(t: Session, s: Slots, op: Op, ok: bool)
    requires Held(t, s) && Enabled(t, Done(op, ok)) && !t.member && Uses(op, WayOf(op))
    ensures Weight(NextSlots(t, s, Done(op, ok))) < Weight(s)
  {
    ChainPlaced(t, s, op, op.way);
    NextRanksLower(op, ok);
    if Leaves(op, ok) {
      LeaveSlots(t, s, op, ok);
      LeftWeighs(t, s, op.way);
    } else {
      TurnWeighs(t, s, op, ok);
    }
  }

  lemma MoveWeighs(t: Session, s: Slots, e: Event)
    requires Held(t, s) && Enabled(t, e) && !t.member && !e.Done?
    ensures Weight(NextSlots(t, s, e)) <= Weight(s)
  {
    RankFalls(t, s, e, Up);
    RankFalls(t, s, e, Down);
    ChainPlaced(t, s, if e.Arrive? then Read(e.way) else e.op, if e.Arrive? then e.way else e.op.way);
  }

  lemma WeightFalls(t: Session, s: Slots, e: Event)
    requires Held(t, s) && Enabled(t, e) && !t.member
    ensures Weight(NextSlots(t, s, e)) <= Weight(s) - (if e.Done? then 1 else 0)
  {
    if !e.Done? {
      MoveWeighs(t, s, e);
    } else {
      OnlyChainsAndClosing(t, s, e.op);
      if IsClose(e.op) {
        CloseWeighs(t, s, e.op, e.ok);
      } else {
        ChainWeighs(t, s, e.op, e.ok);
      }
    }
  }

  lemma {:induction false} SessionDiesOut(t: Session, s: Slots, events: seq<Event>)
    requires SessionOk(t) && Held(t, s) && Runs(t, events) && !t.member
    ensures CountAll(events) <= Weight(s)
    decreases |events|
  {
    if events != [] {
      WeightFalls(t, s, events[0]);
      StaysOut(t, s, events[0]);
      SessionDiesOut(Step(t, events[0]), NextSlots(t, s, events[0]), events[1..]);
    }
  }

  /** The first leave of a session, however far it has come: from then on neither chain has
      more than three completions, and the session as a whole at most seven. */
  lemma GivenUpSessionsDie(events: seq<Event>, e: Event, rest: seq<Event>, way: Way)
    requires Runs(Start(), events) && After(Start(), events).member
    requires Enabled(After(Start(), events), e) && Gives(e) && Runs(Step(After(Start(), events), e), rest)
    ensures Count(rest, way) <= 3 && CountAll(rest) <= 7
    ensures !After(Step(After(Start(), events), e), rest).member
  {
    var t := After(Start(), events);
    var s := FromStart(events);
    StepHeld(t, s, e);
    StepMember(t, e);
    LeaveWeight(t, s, e.op, e.ok);
    ChainsDieOut(Step(t, e), NextSlots(t, s, e), rest, way);
    SessionDiesOut(Step(t, e), NextSlots(t, s, e), rest);
    MemberFrom(Step(t, e), rest);
  }

  /** What the first leave leaves: one chain at most, and two closing operations at most. */
  lemma LeaveWeight(t: Session, s: Slots, op: Op, ok: bool)
    requires Held(t, s) && t.member && Enabled(t, Done(op, ok)) && Leaves(op, ok)
    ensures Weight(NextSlots(t, s, Done(op, ok))) <= 7
  {
    LeaveSlots(t, s, op, ok);
    if IsDial(op) {
      DialPlaced(t, s, op);
    } else {
      ChainPlaced(t, s, op, WayOf(op));
    }
    FirstLeftWeighs(t, s, WayOf(op));
  }

  lemma FirstLeftWeighs(t: Session, s: Slots, way: Way)
    requires s.closing == multiset{}
    ensures Weight(LeftSlots(t, s, way)) <= 7
  {
    assert |s.closing + ClosingOps(t)| <= 2;
  }
}
