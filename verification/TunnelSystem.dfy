/** The whole tunnel: every session it has accepted, in order, interleaved in any way. */
module TunnelSystem {
  import opened Tunnel
  import TunnelTheorems

  datatype SystemEvent =
    | Accept(ok: bool)
    | At(i: nat, event: Event)

  predicate SystemOk(s: seq<Session>) {
    forall i :: 0 <= i < |s| ==> SessionOk(s[i])
  }

  /** An accept operation is always outstanding. */
  predicate CanHappen(s: seq<Session>, e: SystemEvent)
    requires SystemOk(s)
  {
    match e
    case Accept(_) => true
    case At(i, event) => i < |s| && Enabled(s[i], event)
  }

  function Next(s: seq<Session>, e: SystemEvent): (r: seq<Session>)
    requires SystemOk(s) && CanHappen(s, e)
    ensures SystemOk(r) && |r| >= |s|
  {
    match e
    case Accept(ok) => if ok then s + [Start()] else s
    case At(i, event) => s[i := Step(s[i], event)]
  }

  /** A good accept starts one more session, which is resolving and a member of the set; a failed
      one changes nothing; and the next accept can always happen. */
  lemma AcceptStarts(s: seq<Session>, ok: bool)
    requires SystemOk(s)
    ensures CanHappen(s, Accept(ok))
    ensures Next(s, Accept(ok)) == if ok then s + [Start()] else s
    ensures Start().member && Start().pending == multiset{Resolve} && Start().localOpen && !Start().remoteOpen
  {
  }

  predicate Happens(s: seq<Session>, events: seq<SystemEvent>)
    requires SystemOk(s)
    decreases |events|
  {
    events == [] || (CanHappen(s, events[0]) && Happens(Next(s, events[0]), events[1..]))
  }

  function Finally(s: seq<Session>, events: seq<SystemEvent>): (r: seq<Session>)
    requires SystemOk(s) && Happens(s, events)
    ensures SystemOk(r) && |r| >= |s|
    decreases |events|
  {
    if events == [] then s else Finally(Next(s, events[0]), events[1..])
  }

  /** The events of one session, in order. */
  function Local(events: seq<SystemEvent>, i: nat): seq<Event> {
    if events == [] then []
    else if events[0].At? && events[0].i == i then [events[0].event] + Local(events[1..], i)
    else Local(events[1..], i)
  }

  lemma FirstLocal(t: Session, e: Event, rest: seq<Event>)
    requires SessionOk(t) && Enabled(t, e) && Runs(Step(t, e), rest)
    ensures Runs(t, [e] + rest) && After(t, [e] + rest) == After(Step(t, e), rest)
  {
    assert ([e] + rest)[1..] == rest;
  }

  lemma {:induction false} ProjectionOfKnown(s: seq<Session>, events: seq<SystemEvent>, i: nat)
    requires SystemOk(s) && Happens(s, events) && i < |s|
    ensures Runs(s[i], Local(events, i)) && Finally(s, events)[i] == After(s[i], Local(events, i))
    decreases |events|
  {
    if events != [] {
      var e := events[0];
      ProjectionOfKnown(Next(s, e), events[1..], i);
      if e.At? && e.i == i {
        FirstLocal(s[i], e.event, Local(events[1..], i));
      }
    }
  }

  /** A session enters just started, or not at all. */
  lemma Enters(s: seq<Session>, e: SystemEvent, i: nat)
    requires SystemOk(s) && CanHappen(s, e) && i >= |s|
    ensures !(e.At? && e.i == i)
    ensures i < |Next(s, e)| ==> Next(s, e)[i] == Start()
  {
  }

  lemma {:induction false} ProjectionOfNew(s: seq<Session>, events: seq<SystemEvent>, i: nat)
    requires SystemOk(s) && Happens(s, events) && |s| <= i < |Finally(s, events)|
    ensures Runs(Start(), Local(events, i)) && Finally(s, events)[i] == After(Start(), Local(events, i))
    decreases |events|
  {
    var s1 := Next(s, events[0]);
    Enters(s, events[0], i);
    assert Local(events, i) == Local(events[1..], i);
    if i < |s1| {
      ProjectionOfKnown(s1, events[1..], i);
    } else {
      ProjectionOfNew(s1, events[1..], i);
    }
  }

  function GoodAccepts(events: seq<SystemEvent>): nat {
    if events == [] then 0 else (if events[0] == Accept(true) then 1 else 0) + GoodAccepts(events[1..])
  }

  lemma {:induction false} AcceptsCountFrom(s: seq<Session>, events: seq<SystemEvent>)
    requires SystemOk(s) && Happens(s, events)
    ensures |Finally(s, events)| == |s| + GoodAccepts(events)
    decreases |events|
  {
    if events != [] {
      AcceptsCountFrom(Next(s, events[0]), events[1..]);
    }
  }

  /** In every run there are as many sessions as good accepts, and the next good accept starts the
      session of that number. */
  lemma EveryGoodAcceptStarts(events: seq<SystemEvent>)
    requires Happens([], events)
    ensures var s := Finally([], events);
            && |s| == GoodAccepts(events) && CanHappen(s, Accept(true))
            && |Next(s, Accept(true))| == |s| + 1 && Next(s, Accept(true))[GoodAccepts(events)] == Start()
  {
    AcceptsCountFrom([], events);
  }

  /** Every session of every run of the tunnel has had a run of its own from its start,
      whatever the other sessions did meanwhile. */
  lemma Projection(events: seq<SystemEvent>, i: nat)
    requires Happens([], events) && i < |Finally([], events)|
    ensures Runs(Start(), Local(events, i)) && Finally([], events)[i] == After(Start(), Local(events, i))
  {
    ProjectionOfNew([], events, i);
  }

  /** Events of different sessions commute. */
  lemma DifferentSessionsCommute(s: seq<Session>, i: nat, e: Event, j: nat, f: Event)
    requires SystemOk(s) && i != j && CanHappen(s, At(i, e)) && CanHappen(s, At(j, f))
    ensures CanHappen(Next(s, At(i, e)), At(j, f)) && CanHappen(Next(s, At(j, f)), At(i, e))
    ensures Next(Next(s, At(i, e)), At(j, f)) == Next(Next(s, At(j, f)), At(i, e))
  {
    var x, y := Step(s[i], e), Step(s[j], f);
    NextOther(s, i, x, j, f);
    NextOther(s, j, y, i, e);
    assert s[i := x][j := y] == s[j := y][i := x];
  }

  lemma NextOther(s: seq<Session>, i: nat, x: Session, j: nat, f: Event)
    requires SystemOk(s) && SessionOk(x) && i < |s| && i != j && CanHappen(s, At(j, f))
    ensures var s1 := s[i := x];
            && SystemOk(s1) && CanHappen(s1, At(j, f))
            && Next(s1, At(j, f)) == s[i := x][j := Step(s[j], f)]
  {
  }

  // ---------- the per-session theorems, for all sessions at once ----------

  /** In every run of the tunnel, a session is in the set exactly until its own first leave. */
  lemma MembersAreThoseThatHaveNotLeft(events: seq<SystemEvent>, i: nat)
    requires Happens([], events) && i < |Finally([], events)|
    ensures Finally([], events)[i].member <==> TunnelTheorems.Kept(Local(events, i))
  {
    Projection(events, i);
    TunnelTheorems.MemberExactlyUntilFirstLeave(Local(events, i));
  }

  /** In every run of the tunnel, what each session has written to either side is a prefix of
      what it has itself read from the other. */
  lemma EverySessionKeepsItsOrder(events: seq<SystemEvent>, i: nat, way: Way)
    requires Happens([], events) && i < |Finally([], events)|
    ensures Of(Finally([], events)[i], way).sent <= Of(Finally([], events)[i], way).received
  {
    Projection(events, i);
    TunnelTheorems.BytesStayInOrder(Local(events, i), way);
  }
}
