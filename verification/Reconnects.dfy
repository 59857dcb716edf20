/** What holds in every run, also when connect is called on a connection more than once: exactly when
    the table's entries keep their descriptors, and with them the assertion of close_connection, and
    exactly when a connection's history keeps to the state diagram. */
module Reconnects {
  import opened Vectors
  import opened Connections
  import opened EventLoop
  import opened Ownership
  import opened Conduct
  import opened ConductSteps
  import opened ConductLoop
  import opened Meaning
  import opened Runs
  import opened Sweeps

  // ---------------------------------------------------------------- connections without a descriptor

  /** Only failed attempts take a descriptor away: they mark the connection, and it does not become
      Established without a new one. */
  predicate Bare(c: Con) { c.fd < 0 ==> c.disconnect && c.state != Established }

  ghost predicate AllBare(s: State) { forall q :: q in s.heap ==> Bare(s.heap[q]) }

  lemma AlteredBare(s: State, a: Step, t: State, q: Ptr)
    requires Can(s, a) && Alters(s, a, t, q) && q in t.heap && (q in s.heap ==> Bare(s.heap[q]))
    ensures Bare(t.heap[q])
  {
    NamesNew(s, a, q);
    hide Can, Carries, Records, Queues;
  }

  /** The descriptors a step brings in, or asks about. */
  lemma NamesNew(s: State, a: Step, q: Ptr)
    requires Can(s, a)
    ensures Tries(s, a, q) && !Fails(a.attempt) ==> a.attempt.fd >= 0
    ensures a.Create? || a.Arrive? ==> a.fd >= 0
    ensures a.Writable? && Carries(s, a.fd, q) ==> q in s.heap && s.heap[q].fd == a.fd >= 0
  {
  }

  lemma StepBare(s: State, a: Step)
    requires AllBare(s) && Can(s, a)
    ensures AllBare(Apply(s, a))
  {
    hide Can, Apply, Bare, Alters;
    forall q | q in Apply(s, a).heap ensures Bare(Apply(s, a).heap[q]) {
      StepAlters(s, a, q);
      AlteredBare(s, a, Apply(s, a), q);
    }
  }

  lemma {:induction false} RunBare(s: State, steps: seq<Step>, t: State)
    requires Inv(s) && AllBare(s) && Leads(s, steps, t)
    ensures Inv(t) && AllBare(t)
    decreases |steps|
  {
    hide Inv, AllBare, Can, Apply;
    if steps != [] {
      StepKeeps(s, steps[0]);
      StepBare(s, steps[0]);
      RunBare(Apply(s, steps[0]), steps[1..], t);
    }
  }

  lemma ReachableBare(s: State)
    requires Reachable(s)
    ensures Inv(s) && AllBare(s)
  {
    var role: Role, me: int, steps: seq<Step> :| Leads(Initial(role, me), steps, s);
    assert AllBare(Initial(role, me));
    InitialHolds(role, me);
    hide Inv, AllBare, Initial;
    RunBare(Initial(role, me), steps, s);
  }

  /** In every run: at its turn in the close sweep an entry passes the assertion of close_connection if
      and only if it has a descriptor. */
  lemma CloseAssertsIff(s: State)
    requires Reachable(s) && Enabled(s, CloseOne)
    ensures Safe(s, CloseOne)
    ensures AssertsHold(s, CloseOne) <==> s.heap[s.conns[s.pc.left - 1]].fd >= 0
  {
    hide Reachable, Inv;
    ReachableBare(s);
    StepIsSafe(s, CloseOne);
    assert Bare(s.heap[s.conns[s.pc.left - 1]]);
  }

  /** In every run the assertions of the send sweep hold, also the one of the close that follows a
      failed send. */
  lemma SendAssertsAlways(s: State, r: SendResult)
    requires Reachable(s) && Enabled(s, SendOne(r))
    ensures Safe(s, SendOne(r)) && (Kernel(s, SendOne(r)) ==> AssertsHold(s, SendOne(r)))
  {
    hide Reachable, Inv, FindId;
    ReachableBare(s);
    StepIsSafe(s, SendOne(r));
    assert Bare(s.heap[s.conns[s.pc.left - 1]]);
  }

  // ---------------------------------------------------------------- entries keep their descriptors

  /** Every entry of m_connections that is still counted has a descriptor. */
  ghost predicate Described(s: State) {
    forall q :: q in LiveConns(s) ==> q in s.heap && s.heap[q].fd >= 0
  }

  /** An attempt fails for a connection that sits in the table already. */
  predicate Strips(s: State, a: Step)
    requires Enabled(s, a)
  {
    a.AdoptOne? && Fails(a.attempt) && s.pending[s.pc.next] in s.conns
  }

  lemma LoopSeats(s: State, a: Step, q: Ptr)
    requires Placed(s.role, s.pc, s.conns, s.pending) && Can(s, a) && !OfApplication(a)
    requires !a.SendOne? && !a.AdoptOne? && !a.Arrive? && !a.Retire?
    ensures q in LiveConns(Apply(s, a)) ==> q in LiveConns(s)
  {
    hide FindFd, DropFd, Safe, Kernel;
  }

  lemma SeatsOf(s: State, t: State, q: Ptr)
    requires || (t.pc == s.pc && t.conns == s.conns)
             || (Running(s.pc) && Running(t.pc) && (q in t.conns ==> q in s.conns || q !in s.heap))
    ensures q in LiveConns(t) ==> q in LiveConns(s) || q !in s.heap
  {
  }

  lemma RetireSeats(s: State, q: Ptr)
    requires Inv(s) && Can(s, Retire)
    ensures Running(s.pc) && Running(Apply(s, Retire).pc) && (q in Apply(s, Retire).conns ==> q in s.conns)
  {
    hide Inv, Can, Apply, Release;
    var i, p, c := RetireFacts(s);
  }

  lemma ArriveSeats(s: State, p: Ptr, fd: int, q: Ptr)
    requires Can(s, Arrive(p, fd))
    ensures q in LiveConns(Apply(s, Arrive(p, fd))) ==> q in LiveConns(s) || q !in s.heap
  {
  }

  lemma SendSeats(s: State, r: SendResult)
    requires Can(s, SendOne(r))
    ensures Running(s.pc) && Running(Apply(s, SendOne(r)).pc) && Apply(s, SendOne(r)).conns == s.conns
  {
    SendTurns(s, r);
    hide Can, Apply;
  }

  /** Nobody else enters the table but who arrives. */
  lemma StepSeats(s: State, a: Step, q: Ptr)
    requires Inv(s) && Can(s, a) && !a.AdoptOne?
    ensures q in LiveConns(Apply(s, a)) ==> q in LiveConns(s) || q !in s.heap
  {
    Position(s);
    hide Inv, Can, Apply, Placed, LiveConns, Running;
    if OfApplication(a) { AppLeavesLoop(s, a); SeatsOf(s, Apply(s, a), q); }
    else if a.SendOne? { SendSeats(s, a.result); SeatsOf(s, Apply(s, a), q); }
    else if a.Retire? { RetireSeats(s, q); SeatsOf(s, Apply(s, a), q); }
    else if a.Arrive? { ArriveSeats(s, a.p, a.fd, q); }
    else { LoopSeats(s, a, q); }
  }

  lemma AlteredFd(s: State, a: Step, t: State, q: Ptr)
    requires Can(s, a) && !a.AdoptOne? && Alters(s, a, t, q) && q in t.heap && (q in s.heap ==> s.heap[q].fd >= 0)
    ensures t.heap[q].fd >= 0
  {
    NamesNew(s, a, q);
    hide Can, Carries, Records, Queues, Said;
  }

  /** Steps other than attempts take no descriptor away. */
  lemma OthersDescribed(s: State, a: Step)
    requires Inv(s) && Described(s) && Can(s, a) && !a.AdoptOne?
    ensures Described(Apply(s, a))
  {
    hide Inv, Can, Apply, LiveConns, Alters;
    var t := Apply(s, a);
    StepKeeps(s, a);
    forall q | q in LiveConns(t) ensures q in t.heap && t.heap[q].fd >= 0 {
      SeatLive(t, q);
      StepSeats(s, a, q);
      StepAlters(s, a, q);
      AlteredFd(s, a, t, q);
    }
  }

  lemma SeatLive(s: State, q: Ptr)
    requires Inv(s) && q in LiveConns(s)
    ensures q in s.heap
  {
    hide Named, Mastered, Accounted, Placed, LiveConns;
    ConnsLive(s);
  }

  lemma AdoptDescribedIff(s: State, r: Attempt)
    requires Inv(s) && Described(s) && Can(s, AdoptOne(r))
    ensures Described(Apply(s, AdoptOne(r))) <==> !Strips(s, AdoptOne(r))
  {
    hide Inv, Can, Apply, TryConnect, Attempted, Fails, LiveConns;
    var t := Apply(s, AdoptOne(r));
    var p := AdoptAttempts(s, r);
    StepKeeps(s, AdoptOne(r));
    AdoptTables(s, r);
    forall q | q in LiveConns(t) ensures q in t.heap { SeatLive(t, q); }
    AttemptDescribes(s, t, p, r);
  }

  lemma AttemptDescribes(s: State, t: State, p: Ptr, r: Attempt)
    requires Attempted(s, t, p, r) && (r.NoSocket? || r.fd >= 0) && Described(s) && LiveConns(s) == s.conns
    requires LiveConns(t) == s.conns + (if Fails(r) then [] else [p])
    requires forall q :: q in LiveConns(t) ==> q in t.heap
    ensures Described(t) <==> !(Fails(r) && p in s.conns)
  {
    hide TryConnect, LiveConns;
    TryConnectFails(s.heap[p], r);
    if Fails(r) && p in s.conns { assert p in LiveConns(t); }
  }

  lemma AdoptTables(s: State, r: Attempt)
    requires Can(s, AdoptOne(r))
    ensures var t := Apply(s, AdoptOne(r));
      && LiveConns(s) == s.conns && LiveConns(t) == s.conns + (if Fails(r) then [] else [s.pending[s.pc.next]])
  {
    TryConnectFails(s.heap[s.pending[s.pc.next]], r);
    hide TryConnect;
  }

  /** A step keeps every entry's descriptor if and only if it is not a failed attempt for a connection
      that sits in the table already. */
  lemma DescribedIff(s: State, a: Step)
    requires Inv(s) && Described(s) && Can(s, a)
    ensures Described(Apply(s, a)) <==> !Strips(s, a)
  {
    hide Inv, Can, Apply, Described;
    if a.AdoptOne? { AdoptDescribedIff(s, a.attempt); } else { OthersDescribed(s, a); }
  }

  /** Every entry has a descriptor in every state of the run. */
  ghost predicate AlwaysDescribed(s: State, steps: seq<Step>, t: State)
    requires Leads(s, steps, t)
    decreases |steps|
  {
    Described(s) && (steps != [] ==> AlwaysDescribed(Apply(s, steps[0]), steps[1..], t))
  }

  /** No attempt of the run fails for a connection that sits in the table already. */
  ghost predicate NeverStrips(s: State, steps: seq<Step>, t: State)
    requires Leads(s, steps, t)
    decreases |steps|
  {
    steps != [] ==> !Strips(s, steps[0]) && NeverStrips(Apply(s, steps[0]), steps[1..], t)
  }

  lemma {:induction false} RunDescribedIff(s: State, steps: seq<Step>, t: State)
    requires Inv(s) && Described(s) && Leads(s, steps, t)
    ensures AlwaysDescribed(s, steps, t) <==> NeverStrips(s, steps, t)
    ensures NeverStrips(s, steps, t) ==> Described(t)
    decreases |steps|
  {
    hide Inv, Can, Apply, Described, Strips;
    if steps != [] {
      var u := Apply(s, steps[0]);
      StepKeeps(s, steps[0]);
      DescribedIff(s, steps[0]);
      if Described(u) { RunDescribedIff(u, steps[1..], t); }
    }
  }

  /** Over a run from the start, however often connect is called: the entries of m_connections keep their
      descriptors throughout if and only if no attempt failed for a connection that was in the table
      already; and then no assertion of close_connection fails at the end of it. */
  lemma DescriptorsStayIff(role: Role, me: int, steps: seq<Step>, s: State)
    requires Leads(Initial(role, me), steps, s)
    ensures AlwaysDescribed(Initial(role, me), steps, s) <==> NeverStrips(Initial(role, me), steps, s)
    ensures NeverStrips(Initial(role, me), steps, s) && Enabled(s, CloseOne) ==>
      Safe(s, CloseOne) && AssertsHold(s, CloseOne)
  {
    var s0 := Initial(role, me);
    InitialHolds(role, me);
    assert Described(s0) && Reachable(s);
    hide Inv, Can, Apply, Initial, NeverStrips, AlwaysDescribed, Leads, FindId;
    RunDescribedIff(s0, steps, s);
    if NeverStrips(s0, steps, s) && Enabled(s, CloseOne) {
      CloseAssertsIff(s);
      assert s.conns[s.pc.left - 1] in LiveConns(s);
    }
  }

  // ---------------------------------------------------------------- the state diagram

  /** The history of every live connection keeps to the diagram. */
  ghost predicate OnCourse(s: State) { forall q :: q in s.heap ==> OnDiagram(s.heap[q].log.published) }

  /** A connect, or an attempt, that finds its connection neither Idle nor InProgress (an attempt that
      frees it leaves no history), or a writable descriptor whose entry is neither InProgress nor
      Established. */
  predicate Strays(s: State, a: Step)
    requires Enabled(s, a) && Safe(s, a)
  {
    match a
    case ConnectBegin(p) => !s.heap[p].state.Idle? && !s.heap[p].state.InProgress?
    case AdoptOne(r) =>
      var c := s.heap[s.pending[s.pc.next]];
      !c.state.Idle? && !c.state.InProgress? && !(Fails(r) && c.refs == 1)
    case Writable(fd, ok) =>
      var i := FindFd(s.heap, s.conns, fd);
      ok && i < |s.conns| && !s.heap[s.conns[i]].state.InProgress? && !s.heap[s.conns[i]].state.Established?
    case _ => false
  }

  /** The steps that may publish a state other than Failed. */
  predicate Assigns(a: Step) { a.ConnectBegin? || a.AdoptOne? || a.Writable? }

  lemma AlteredOnCourse(s: State, a: Step, t: State, q: Ptr)
    requires OnCourse(s) && Can(s, a) && !Assigns(a) && Alters(s, a, t, q) && q in t.heap
    ensures OnDiagram(t.heap[q].log.published)
  {
    hide Can, Carries, Records, Queues;
    if q in s.heap {
      hide OnDiagram;
      PublishesIff(s.heap[q].log.published, Failed);
      assert s.heap[q].log.published + [] == s.heap[q].log.published;
    }
  }

  lemma OthersOnCourse(s: State, a: Step)
    requires OnCourse(s) && Can(s, a) && !Assigns(a)
    ensures OnCourse(Apply(s, a))
  {
    hide Can, Apply, Assigns, Alters, OnDiagram;
    forall q | q in Apply(s, a).heap ensures OnDiagram(Apply(s, a).heap[q].log.published) {
      StepAlters(s, a, q);
      AlteredOnCourse(s, a, Apply(s, a), q);
    }
  }

  lemma ConnectCourseIff(s: State, p: Ptr)
    requires Inv(s) && OnCourse(s) && Can(s, ConnectBegin(p))
    ensures OnCourse(Apply(s, ConnectBegin(p))) <==> !Strays(s, ConnectBegin(p))
  {
    hide Inv, OnDiagram;
    ConnectOnDiagramIff(s, p);
  }

  lemma WritableLeaves(s: State, fd: int, ok: bool) returns (i: nat)
    requires Can(s, Writable(fd, ok))
    ensures AllIn(s.heap, s.conns) && i == FindFd(s.heap, s.conns, fd)
    ensures var t := Apply(s, Writable(fd, ok));
      if ok && i < |s.conns| then t.heap == s.heap[s.conns[i] := s.heap[s.conns[i]].Publish(Established)]
      else t.heap == s.heap
    ensures Strays(s, Writable(fd, ok)) <==>
      ok && i < |s.conns| && !s.heap[s.conns[i]].state.InProgress? && !s.heap[s.conns[i]].state.Established?
  {
    i := FindFd(s.heap, s.conns, fd);
    hide FindFd;
  }

  lemma OneCourse(s: State, t: State, p: Ptr, d: Con)
    requires OnCourse(s) && p in s.heap && t.heap == s.heap[p := d]
    ensures OnCourse(t) <==> OnDiagram(d.log.published)
  {
    hide OnDiagram;
    assert p in t.heap && t.heap[p] == d;
    forall q | q in t.heap && q != p ensures OnDiagram(t.heap[q].log.published) {
      assert q in s.heap && t.heap[q] == s.heap[q];
    }
  }

  lemma WritableCourseIff(s: State, fd: int, ok: bool)
    requires Inv(s) && OnCourse(s) && Can(s, Writable(fd, ok))
    ensures OnCourse(Apply(s, Writable(fd, ok))) <==> !Strays(s, Writable(fd, ok))
  {
    hide Inv, Can, Apply, OnDiagram, FindFd, Strays;
    var i := WritableLeaves(s, fd, ok);
    if ok && i < |s.conns| {
      var p := s.conns[i];
      Owed(s, p);
      var c := s.heap[p];
      PublishesIff(c.log.published, Established);
      assert Follows(c.state, Established) <==> c.state.InProgress? || c.state.Established?;
      OneCourse(s, Apply(s, Writable(fd, ok)), p, c.Publish(Established));
    } else {
      assert OnCourse(Apply(s, Writable(fd, ok)));
    }
  }

  lemma AdoptCourseIff(s: State, r: Attempt)
    requires Inv(s) && OnCourse(s) && Can(s, AdoptOne(r))
    ensures OnCourse(Apply(s, AdoptOne(r))) <==> !Strays(s, AdoptOne(r))
  {
    hide Inv, OnDiagram, TryConnect, Can, Apply, Fails;
    var p := AdoptAttempts(s, r);
    AdoptOnDiagramIff(s, r);
  }

  /** A step of any kind keeps every live history on the diagram if and only if it is none of those. */
  lemma CourseIff(s: State, a: Step)
    requires Inv(s) && OnCourse(s) && Can(s, a)
    ensures OnCourse(Apply(s, a)) <==> !Strays(s, a)
  {
    hide Inv, Can, Apply, OnCourse;
    if a.ConnectBegin? { ConnectCourseIff(s, a.p); }
    else if a.AdoptOne? { AdoptCourseIff(s, a.attempt); }
    else if a.Writable? { WritableCourseIff(s, a.fd, a.ok); }
    else { OthersOnCourse(s, a); }
  }

  ghost predicate AlwaysOnCourse(s: State, steps: seq<Step>, t: State)
    requires Leads(s, steps, t)
    decreases |steps|
  {
    OnCourse(s) && (steps != [] ==> AlwaysOnCourse(Apply(s, steps[0]), steps[1..], t))
  }

  ghost predicate NeverStrays(s: State, steps: seq<Step>, t: State)
    requires Leads(s, steps, t)
    decreases |steps|
  {
    steps != [] ==> !Strays(s, steps[0]) && NeverStrays(Apply(s, steps[0]), steps[1..], t)
  }

  lemma {:induction false} RunCourseIff(s: State, steps: seq<Step>, t: State)
    requires Inv(s) && OnCourse(s) && Leads(s, steps, t)
    ensures AlwaysOnCourse(s, steps, t) <==> NeverStrays(s, steps, t)
    decreases |steps|
  {
    hide Inv, Can, Apply, OnCourse, Strays;
    if steps != [] {
      var u := Apply(s, steps[0]);
      StepKeeps(s, steps[0]);
      CourseIff(s, steps[0]);
      if OnCourse(u) { RunCourseIff(u, steps[1..], t); }
    }
  }

  /** Over a run from the start, however often connect is called: every live connection's history keeps to
      the diagram throughout if and only if no step strays. */
  lemma HistoriesFollowIff(role: Role, me: int, steps: seq<Step>, s: State)
    requires Leads(Initial(role, me), steps, s)
    ensures AlwaysOnCourse(Initial(role, me), steps, s) <==> NeverStrays(Initial(role, me), steps, s)
  {
    InitialHolds(role, me);
    assert OnCourse(Initial(role, me));
    hide Inv, OnCourse, Initial;
    RunCourseIff(Initial(role, me), steps, s);
  }
}
