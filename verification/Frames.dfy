/** What a connection that has its descriptor keeps: the descriptor, and the streams recorded for
    it. With that: data received before a close stays readable. */
module Frames {
  import opened Bytes
  import opened Vectors
  import opened Connections
  import opened EventLoop
  import opened Ownership
  import opened Conduct
  import opened ConductSteps
  import opened ConductLoop
  import opened LoopProgress
  import opened Meaning
  import opened Runs

  /** The connection is past connecting: no step will give it another descriptor. */
  ghost predicate Settled(s: State, p: Ptr) {
    && p in s.heap && s.heap[p].fd >= 0
    && (s.role.Client? ==> s.heap[p].log.connects == 1 && p !in s.connecting && p !in LivePending(s))
  }

  /** p is the same connection in both states. */
  ghost predicate Same(s: State, t: State, p: Ptr) {
    p in s.heap && p in t.heap && t.heap[p].id == s.heap[p].id && t.heap[p].fd == s.heap[p].fd
    && t.heap[p].log.connects == s.heap[p].log.connects && t.role == s.role
  }

  predicate OfTraffic(a: Step) { a.Pop? || a.Writable? || a.Store? }

  lemma AlteredSame(s: State, a: Step, t: State, p: Ptr)
    requires Can(s, a) && Alters(s, a, t, p) && p in s.heap && p in t.heap && t.role == s.role
    requires a != ConnectBegin(p) && !Tries(s, a, p)
    ensures Same(s, t, p)
  {
    hide Can, Carries, Queues, Said, Marks, WroteBy, TookBy, ReadOut;
  }

  /** A settled connection does not wait for an attempt, and is not connected again. */
  lemma SettledApart(s: State, a: Step, p: Ptr)
    requires Inv(s) && Can(s, a) && ConnectsOnce(s, a) && Settled(s, p)
    ensures a != ConnectBegin(p) && !Tries(s, a, p)
  {
    if a.AdoptOne? {
      ConductLoop.AdoptIsClient(s, a.attempt);
      hide Inv;
      assert s.pending[s.pc.next] == LivePending(s)[0];
    } else {
      hide Inv, LivePending;
    }
  }

  lemma StepSame(s: State, a: Step, p: Ptr)
    requires Inv(s) && Can(s, a) && ConnectsOnce(s, a) && Settled(s, p) && p in Apply(s, a).heap
    ensures Same(s, Apply(s, a), p)
  {
    SettledLive(s, p);
    hide *;
    SettledApart(s, a, p);
    StepAlters(s, a, p);
    RoleStays(s, a);
    AlteredSame(s, a, Apply(s, a), p);
  }

  // ---------------------------------------------------------------- nobody queues it again

  ghost predicate Unqueued(s: State, p: Ptr) { p !in s.connecting && p !in LivePending(s) }

  lemma AppLeaves(s: State, a: Step)
    requires Can(s, a) && OfApplication(a) && s.role.Client? && !a.ConnectPush?
    ensures var t := Apply(s, a);
      && t.pc == s.pc && t.pending == s.pending
      && t.connecting == (if a.ConnectBegin? then s.connecting + multiset{a.p} else s.connecting)
  {
  }

  lemma AppUnqueued(s: State, a: Step, p: Ptr)
    requires Inv(s) && Can(s, a) && ConnectsOnce(s, a) && OfApplication(a) && s.role.Client? && Unqueued(s, p)
    requires p in s.heap && s.heap[p].log.connects == 1
    ensures Unqueued(Apply(s, a), p)
  {
    if a.ConnectPush? {
      hide *;
      PushUnqueued(s, a.p, p);
    } else {
      hide Can, Apply, Inv;
      AppLeaves(s, a);
    }
  }

  lemma PushUnqueued(s: State, q: Ptr, p: Ptr)
    requires Inv(s) && Can(s, ConnectPush(q)) && Unqueued(s, p)
    ensures Unqueued(Apply(s, ConnectPush(q)), p)
  {
    Position(s);
    hide Inv, LivePending, LiveConns;
    ConnectPushTables(s, q);
    Pushed(s, DoConnectPush(s, q), q, p);
  }

  lemma Pushed(s: State, t: State, q: Ptr, p: Ptr)
    requires Unqueued(s, p) && q in s.connecting && t.connecting == s.connecting - multiset{q}
    requires LivePending(t) == LivePending(s) + [q]
    ensures Unqueued(t, p)
  {
    hide LivePending;
  }

  lemma TrafficLeaves(s: State, a: Step)
    requires Can(s, a) && OfTraffic(a)
    ensures var t := Apply(s, a);
      t.pending == s.pending && t.connecting == s.connecting && Running(s.pc) && Running(t.pc)
  {
    if a.Pop? { hide FindFd; } else if a.Store? { hide FindFd; } else { hide FindFd; }
  }

  lemma SendLeaves(s: State, r: SendResult)
    requires Can(s, SendOne(r))
    ensures var t := Apply(s, SendOne(r));
      t.pending == s.pending && t.connecting == s.connecting && Running(s.pc) && Running(t.pc)
  {
    hide Sendable;
  }

  lemma RetireLeaves(s: State)
    requires Inv(s) && Can(s, Retire)
    ensures var t := Apply(s, Retire);
      t.pending == s.pending && t.connecting == s.connecting && Running(s.pc) && Running(t.pc)
  {
    hide Inv;
    Position(s);
  }

  lemma MovesUnqueued(s: State, a: Step, p: Ptr)
    requires Inv(s) && Can(s, a) && OnlyMoves(a) && Unqueued(s, p)
    ensures Unqueued(Apply(s, a), p)
  {
    Position(s);
    hide Inv, Can, Apply;
    MovesTables(s, a);
    MovesLittle(s, a);
  }

  lemma AdoptUnqueued(s: State, r: Attempt, p: Ptr)
    requires Inv(s) && Can(s, AdoptOne(r)) && Unqueued(s, p)
    ensures Unqueued(Apply(s, AdoptOne(r)), p)
  {
    hide Inv, Can, Apply, LivePending, LiveConns, Rejected, Adopted;
    var q, c := AdoptFacts(s, r);
  }

  lemma UnlinkUnqueued(s: State, p: Ptr)
    requires Can(s, Unlink) && Unqueued(s, p)
    ensures Unqueued(Apply(s, Unlink), p)
  {
    UnlinkFacts(s);
    DropFdFewer(s.heap, s.pending, s.pc.fd);
    hide Can, Apply, DropFd;
  }

  lemma DismissUnqueued(s: State, a: Step, p: Ptr)
    requires Can(s, a) && (a.ShutPendingOne? || a.ShutConnsOne?) && Unqueued(s, p)
    ensures Unqueued(Apply(s, a), p)
  {
    hide Can, Apply, LivePending, LiveConns;
    var q := DismissFacts(s, a);
  }

  lemma RunningUnqueued(s: State, t: State, p: Ptr)
    requires Running(s.pc) && Running(t.pc) && t.pending == s.pending && t.connecting == s.connecting && Unqueued(s, p)
    ensures Unqueued(t, p)
  {
  }

  lemma ServerOnly(s: State, a: Step)
    requires Inv(s) && Can(s, a) && (a.Arrive? || a.Publish?)
    ensures s.role.Server?
  {
    Position(s);
    hide Inv;
  }

  /** On the client nobody queues a connection again that called connect before. */
  lemma StepUnqueued(s: State, a: Step, p: Ptr)
    requires Inv(s) && Can(s, a) && ConnectsOnce(s, a) && s.role.Client? && Unqueued(s, p)
    requires p in s.heap && s.heap[p].log.connects == 1
    ensures Unqueued(Apply(s, a), p)
  {
    hide Inv, Can, Apply, ConnectsOnce, Unqueued;
    if OfApplication(a) { AppUnqueued(s, a, p); }
    else if OnlyMoves(a) { MovesUnqueued(s, a, p); }
    else if OfTraffic(a) { TrafficLeaves(s, a); RunningUnqueued(s, Apply(s, a), p); }
    else if a.SendOne? { SendLeaves(s, a.result); RunningUnqueued(s, Apply(s, a), p); }
    else if a.Retire? { RetireLeaves(s); RunningUnqueued(s, Apply(s, a), p); }
    else if a.AdoptOne? { AdoptUnqueued(s, a.attempt, p); }
    else if a.Unlink? { UnlinkUnqueued(s, p); }
    else if a.Arrive? || a.Publish? { ServerOnly(s, a); }
    else { DismissUnqueued(s, a, p); }
  }

  /** A settled connection stays settled, under its name, for as long as it is live. */
  lemma StepSettled(s: State, a: Step, p: Ptr)
    requires Inv(s) && Can(s, a) && ConnectsOnce(s, a) && Settled(s, p) && p in Apply(s, a).heap
    ensures Settled(Apply(s, a), p) && Same(s, Apply(s, a), p)
  {
    hide Inv, Can, Apply, ConnectsOnce, LivePending;
    StepSame(s, a, p);
    if s.role.Client? { StepUnqueued(s, a, p); }
  }

  // ---------------------------------------------------------------- the streams of its descriptor

  /** What a step adds to the bytes read from fd. */
  function ReadBy(a: Step, fd: int): seq<byte> {
    if a.Incoming? && a.fd == fd then a.chunk else []
  }

  ghost predicate Streams(s: State, t: State, a: Step, fd: int) {
    && Get(t.wire, fd) == Get(s.wire, fd) + ReadBy(a, fd)
    && Get(s.out, fd) <= Get(t.out, fd)
    && (fd in t.polled ==> fd in s.polled)
  }

  lemma AppStreams(s: State, a: Step, p: Ptr)
    requires Can(s, a) && OfApplication(a) && p in s.heap && s.heap[p].fd >= 0
    ensures Streams(s, Apply(s, a), a, s.heap[p].fd)
  {
  }

  /** The descriptor streams and epoll's interest are as before, or epoll forgets a descriptor. */
  predicate Hushed(s: State, t: State) { t.wire == s.wire && t.out == s.out && t.polled <= s.polled }

  lemma TrafficHushed(s: State, a: Step)
    requires Can(s, a) && (OfTraffic(a) || a.Retire? || a.Unlink?)
    ensures Hushed(s, Apply(s, a))
  {
    hide FindFd, DropFd, CloseEntry;
  }

  lemma TrafficStreams(s: State, a: Step, p: Ptr)
    requires Can(s, a) && (OfTraffic(a) || a.Retire? || a.Unlink?) && p in s.heap && s.heap[p].fd >= 0
    ensures Streams(s, Apply(s, a), a, s.heap[p].fd)
  {
    hide Can, Apply;
    TrafficHushed(s, a);
  }

  lemma SendStreams(s: State, r: SendResult, p: Ptr)
    requires Can(s, SendOne(r)) && p in s.heap && s.heap[p].fd >= 0
    ensures Streams(s, Apply(s, SendOne(r)), SendOne(r), s.heap[p].fd)
  {
    hide Sendable;
  }

  lemma RestStreams(s: State, a: Step, p: Ptr)
    requires Can(s, a) && !OfApplication(a) && !OfTraffic(a) && !a.SendOne? && !a.AdoptOne? && !a.Retire? && !a.Unlink?
    requires p in s.heap && s.heap[p].fd >= 0
    ensures Streams(s, Apply(s, a), a, s.heap[p].fd)
  {
  }

  lemma AdoptStreams(s: State, r: Attempt, p: Ptr)
    requires Can(s, AdoptOne(r)) && p in s.heap && s.heap[p].fd >= 0
    ensures Streams(s, Apply(s, AdoptOne(r)), AdoptOne(r), s.heap[p].fd)
  {
  }

  /** Nobody else's traffic shows in the streams of a descriptor that a live connection carries. */
  lemma StepStreams(s: State, a: Step, p: Ptr)
    requires Can(s, a) && p in s.heap && s.heap[p].fd >= 0
    ensures Streams(s, Apply(s, a), a, s.heap[p].fd)
  {
    hide *;
    if OfApplication(a) { AppStreams(s, a, p); }
    else if OfTraffic(a) || a.Retire? || a.Unlink? { TrafficStreams(s, a, p); }
    else if a.SendOne? { SendStreams(s, a.result, p); }
    else if a.AdoptOne? { AdoptStreams(s, a.attempt, p); }
    else { RestStreams(s, a, p); }
  }

  // ---------------------------------------------------------------- a close loses nothing received

  lemma HandleKept(s: State, a: Step, p: Ptr)
    requires Can(s, a) && p in s.handles && a != DestroyRelease(p)
    ensures p in Apply(s, a).handles
  {
    if !OfApplication(a) { LoopHandles(s, a); hide Can, Apply; }
  }

  lemma LoopHandles(s: State, a: Step)
    requires Can(s, a) && !OfApplication(a)
    ensures Apply(s, a).handles == s.handles
  {
  }

  lemma HandleLive(s: State, p: Ptr)
    requires Inv(s) && p in s.handles
    ensures p in s.heap
  {
    LiveIffOwned(s, p);
    hide Counted, LivePending, LiveConns;
  }

  /** What a step keeps about a settled connection that survives it. */
  lemma SettledStep(s: State, a: Step, p: Ptr)
    requires Inv(s) && Conducts(s) && Can(s, a) && ConnectsOnce(s, a) && Settled(s, p) && p in Apply(s, a).heap
    ensures var t := Apply(s, a);
      && Inv(t) && Conducts(t) && Settled(t, p) && Same(s, t, p) && Streams(s, t, a, s.heap[p].fd)
  {
    SettledLive(s, p);
    hide *;
    StepConducts(s, a);
    StepSettled(s, a, p);
    StepStreams(s, a, p);
  }

  function Received(c: Con): seq<byte> { c.log.delivered + c.inQ.items }

  lemma ReceivedAll(s: State, p: Ptr)
    requires Inv(s) && Conducts(s) && Settled(s, p) && s.heap[p].fd !in s.polled
    ensures Received(s.heap[p]) == Get(s.wire, s.heap[p].fd)
  {
    hide Inv, Conducted, Single, Swept, Ordered;
    WiredAt(s, p);
  }

  lemma NotRead(s: State, a: Step, fd: int)
    requires Can(s, a) && fd !in s.polled
    ensures ReadBy(a, fd) == []
  {
  }

  /** Once epoll watches the descriptor no more, what the application has read and can still read
      is all that ever came in, for as long as it holds the connection. */
  lemma {:induction false} ReceivedStays(s: State, steps: seq<Step>, t: State, p: Ptr)
    requires Inv(s) && Conducts(s) && LeadsPolitely(s, steps, t) && DestroyRelease(p) !in steps
    requires Settled(s, p) && p in s.handles && s.heap[p].fd !in s.polled
    ensures p in t.heap && t.heap[p].id == s.heap[p].id
    ensures Received(t.heap[p]) == Get(s.wire, s.heap[p].fd)
    decreases |steps|
  {
    hide Inv, Conducts, Can, Apply, ConnectsOnce, Settled;
    SettledLive(s, p);
    if steps == [] {
      ReceivedAll(s, p);
    } else {
      var a, u := steps[0], Apply(s, steps[0]);
      assert steps[0] in steps;
      StepConducts(s, a);
      HandleKept(s, a, p);
      HandleLive(u, p);
      SettledStep(s, a, p);
      NotRead(s, a, s.heap[p].fd);
      ReceivedStays(u, steps[1..], t, p);
    }
  }

  lemma SettledLive(s: State, p: Ptr)
    requires Settled(s, p)
    ensures p in s.heap && s.heap[p].fd >= 0
  {
  }

  lemma RetiredSettled(s: State, t: State, i: nat, p: Ptr, c: Con)
    requires Inv(s) && Conducts(s) && Retired(s, t, i, p, c) && p in t.heap && Running(t.pc)
    ensures Settled(t, p) && t.heap[p].id == s.heap[p].id && t.heap[p].fd == s.heap[p].fd
    ensures t.heap[p].fd !in t.polled && t.wire == s.wire
  {
    hide Inv, Conducts, LivePending, LiveConns;
    Entry(s, i, p);
    RunningTables(s);
    RunningTables(t);
  }

  lemma Entry(s: State, i: nat, p: Ptr)
    requires Inv(s) && Conducts(s) && Running(s.pc) && i < |s.conns| && s.conns[i] == p
    ensures p in s.heap && s.heap[p].fd >= 0
    ensures s.role.Client? ==> s.heap[p].log.connects == 1 && Unqueued(s, p)
  {
    RunningTables(s);
    SeatedFd(s, i);
    hide Inv, Conducted, Wired, Watched, Swept, Ordered;
    if s.role.Client? { SeatedNotQueued(s, p); }
  }

  lemma RetiringReturns(s: State)
    requires Inv(s) && s.pc.Retiring?
    ensures Running(s.pc.back)
  {
    Position(s);
    hide Inv;
  }

  /** Closing a connection, for whatever reason, loses nothing that was received: what the
      application reads before and after the close is, in order, everything ever read from the
      descriptor. u is the state in which entry i, connection p, has just left the table. */
  lemma CloseKeepsReceived(s: State, i: nat, p: Ptr, c: Con, u: State, steps: seq<Step>, t: State)
    requires PolitelyReachable(s) && Can(s, Retire) && u == Apply(s, Retire) && Retired(s, u, i, p, c)
    requires p in s.handles && LeadsPolitely(u, steps, t) && DestroyRelease(p) !in steps
    ensures p in s.heap && p in t.heap && t.heap[p].id == s.heap[p].id
    ensures Received(t.heap[p]) == Get(s.wire, s.heap[p].fd)
  {
    PoliteInv(s);
    RetiringReturns(s);
    assert Running(u.pc) && p in s.heap;
    hide PolitelyReachable, Inv, Conducts, Can, Apply, Retired, LeadsPolitely, Settled, Received, Get;
    StepConducts(s, Retire);
    HandleKept(s, Retire, p);
    HandleLive(u, p);
    RetiredSettled(s, u, i, p, c);
    ReceivedStays(u, steps, t, p);
  }

  // ---------------------------------------------------------------- whom epoll watches

  /** Every entry's descriptor is watched. */
  ghost predicate Heard(s: State) {
    !Shutting(s.pc) ==> forall i :: 0 <= i < |s.conns| ==> s.conns[i] in s.heap && s.heap[s.conns[i]].fd in s.polled
  }

  lemma LoopWatches(s: State, a: Step)
    requires Can(s, a) && !OfApplication(a) && !a.SendOne? && !a.AdoptOne? && !a.Arrive? && !a.Retire?
    ensures Apply(s, a).polled == s.polled && Apply(s, a).conns == s.conns
  {
    hide FindFd, DropFd;
  }

  lemma SendWatches(s: State, r: SendResult)
    requires Can(s, SendOne(r))
    ensures Apply(s, SendOne(r)).polled == s.polled && Apply(s, SendOne(r)).conns == s.conns
  {
    SendTurns(s, r);
    hide Can, Apply;
  }

  lemma SameHeard(s: State, a: Step, t: State)
    requires Heard(s) && Inv(t) && Can(s, a) && !a.AdoptOne? && (Shutting(s.pc) ==> Shutting(t.pc))
    requires t.polled == s.polled && t.conns == s.conns && forall q :: Alters(s, a, t, q)
    ensures Heard(t)
  {
    if !Shutting(t.pc) { ConnsPresent(t); }
    hide Inv, Can, Records, Queues, Said, Marks, Drops, Carries, Shutting;
    forall i | 0 <= i < |t.conns| && !Shutting(t.pc) ensures t.heap[t.conns[i]].fd in t.polled {
      assert Alters(s, a, t, t.conns[i]);
    }
  }

  lemma AdoptHeard(s: State, r: Attempt)
    requires Inv(s) && Conducts(s) && Heard(s) && Can(s, AdoptOne(r))
    ensures Heard(Apply(s, AdoptOne(r)))
  {
    hide Inv, Conducted, Single, Wired, Watched, Swept, Ordered, Can, Apply;
    hide LivePending, LiveConns, TryConnect, OnDiagram;
    var p, c := AdoptFacts(s, r);
    AdoptingOne(s, p);
    assert !Shutting(s.pc);
  }

  lemma ArriveHeard(s: State, p: Ptr, fd: int)
    requires Inv(s) && Heard(s) && Can(s, Arrive(p, fd))
    ensures Heard(Apply(s, Arrive(p, fd)))
  {
    ArriveFacts(s, p, fd);
    assert !Shutting(s.pc);
    hide Inv, Can, Apply;
  }

  lemma RetireHeard(s: State)
    requires Inv(s) && Conducts(s) && Heard(s) && Can(s, Retire)
    ensures Heard(Apply(s, Retire))
  {
    hide Inv, Conducted, Single, Wired, Watched, Swept, Ordered, Can, Apply, Without;
    var i, p, c := RetireFacts(s);
    if i < |s.conns| {
      RetiredHeard(s, Apply(s, Retire), i, p, c);
    }
  }

  lemma RetiredHeard(s: State, t: State, i: nat, p: Ptr, c: Con)
    requires Inv(s) && Conducts(s) && Heard(s) && Retired(s, t, i, p, c)
    ensures Heard(t)
  {
    hide Inv, Conducts, Single, Without;
    assert !Shutting(s.pc);
    RetiredOthers(s, i);
    forall k | 0 <= k < |t.conns| && !Shutting(t.pc)
      ensures t.conns[k] in t.heap && t.heap[t.conns[k]].fd in t.polled
    {
      assert t.conns[k] in Without(s.conns, i);
      var j :| 0 <= j < |s.conns| && s.conns[j] == t.conns[k];
      assert s.conns[j] in s.heap && s.heap[s.conns[j]].fd in s.polled;
    }
  }

  /** The other entries are other connections, with other descriptors. */
  lemma RetiredOthers(s: State, i: nat)
    requires Inv(s) && Conducts(s) && s.pc.Retiring? && i < |s.conns| && AllIn(s.heap, s.conns)
    ensures forall q :: q in Without(s.conns, i) ==>
      q in s.conns && q != s.conns[i] && q in s.heap && s.heap[q].fd != s.heap[s.conns[i]].fd
  {
    hide Inv, Conducted, Wired, Watched, Swept, Ordered, Without, Single;
    RetiredDistinct(s, i);
    SeatedFd(s, i);
    forall q | q in Without(s.conns, i) ensures q in s.heap && s.heap[q].fd != s.heap[s.conns[i]].fd {
      var j :| 0 <= j < |s.conns| && s.conns[j] == q;
      FdsDistinct(s, s.conns[i], q);
    }
  }

  lemma StepHeard(s: State, a: Step)
    requires Inv(s) && Conducts(s) && Heard(s) && Can(s, a)
    ensures Heard(Apply(s, a))
  {
    hide Inv, Conducts, Can, Apply, Heard, Alters, Shutting;
    if a.AdoptOne? { AdoptHeard(s, a.attempt); }
    else if a.Arrive? { ArriveHeard(s, a.p, a.fd); }
    else if a.Retire? { RetireHeard(s); }
    else {
      StepKeeps(s, a);
      ShutStays(s, a);
      forall q ensures Alters(s, a, Apply(s, a), q) { StepAlters(s, a, q); }
      if OfApplication(a) { AppLeavesLoop(s, a); }
      else if a.SendOne? { SendWatches(s, a.result); }
      else { LoopWatches(s, a); }
      SameHeard(s, a, Apply(s, a));
    }
  }

  lemma {:induction false} RunHeard(s: State, steps: seq<Step>, t: State)
    requires Inv(s) && Conducts(s) && Heard(s) && LeadsPolitely(s, steps, t)
    ensures Inv(t) && Conducts(t) && Heard(t)
    decreases |steps|
  {
    hide Inv, Conducts, Can, Apply, ConnectsOnce, Heard;
    if steps != [] {
      StepConducts(s, steps[0]);
      StepHeard(s, steps[0]);
      RunHeard(Apply(s, steps[0]), steps[1..], t);
    }
  }

  /** In polite runs, until the shutdown, epoll watches the descriptors of the table's entries, all of
      them and no others. */
  lemma EpollWatchesTable(s: State, fd: int)
    requires PolitelyReachable(s) && !Shutting(s.pc)
    ensures fd in s.polled <==> exists i :: 0 <= i < |s.conns| && s.conns[i] in s.heap && s.heap[s.conns[i]].fd == fd
  {
    var role: Role, me: int, steps: seq<Step> :| LeadsPolitely(Initial(role, me), steps, s);
    InitialHolds(role, me);
    InitialConducts(role, me);
    assert Heard(Initial(role, me));
    hide Inv, Conducted, Single, Wired, Swept, Ordered, Initial;
    RunHeard(Initial(role, me), steps, s);
    if fd in s.polled { assert Carried(s, fd); }
  }

  // ---------------------------------------------------------------- a close closes

  /** The descriptor is out of the table, and epoll does not watch it. */
  ghost predicate Gone(s: State, fd: int) {
    fd !in s.polled && forall i :: 0 <= i < |s.conns| && s.conns[i] in s.heap ==> s.heap[s.conns[i]].fd != fd
  }

  predicate Closes(pc: Pc, fd: int, back: Pc) { pc == Unlinking(fd, back) || pc == Retiring(fd, back) }

  lemma StaysClosing(s: State, a: Step, fd: int, back: Pc)
    requires Can(s, a) && Closes(s.pc, fd, back) && !a.Retire?
    ensures Closes(Apply(s, a).pc, fd, back)
  {
    if OfApplication(a) { AppLeavesLoop(s, a); hide Can, Apply; } else { hide Safe, Kernel, DropFd, FindFd; }
  }

  lemma RetireCloses(s: State, fd: int, back: Pc)
    requires Inv(s) && Conducts(s) && Can(s, Retire) && Closes(s.pc, fd, back) && !Shutting(back)
    ensures Gone(Apply(s, Retire), fd) && Apply(s, Retire).pc == back
  {
    hide Inv, Conducts, Can, Apply, Without;
    var i, p, c := RetireFacts(s);
    if i < |s.conns| { RetiredGone(s, Apply(s, Retire), i, p, c); } else { UncarriedGone(s, Apply(s, Retire)); }
  }

  lemma RetiredGone(s: State, t: State, i: nat, p: Ptr, c: Con)
    requires Inv(s) && Conducts(s) && Retired(s, t, i, p, c)
    ensures Gone(t, s.pc.fd)
  {
    hide Inv, Conducts, Without;
    RetiredOthers(s, i);
    ReleasedNames(s.heap, p, c);
    hide Release;
    forall k | 0 <= k < |t.conns| && t.conns[k] in t.heap ensures t.heap[t.conns[k]].fd != s.pc.fd {
      assert t.conns[k] in Without(s.conns, i);
    }
  }

  lemma UncarriedGone(s: State, t: State)
    requires Conducts(s) && s.pc.Retiring? && AllIn(s.heap, s.conns) && t == s.(pc := t.pc)
    requires forall k :: 0 <= k < |s.conns| ==> s.heap[s.conns[k]].fd != s.pc.fd
    ensures Gone(t, s.pc.fd)
  {
    hide Conducted, Single, Wired, Swept, Ordered;
    assert s.pc.fd in s.polled ==> Carried(s, s.pc.fd);
  }

  /** In polite runs: once a close of a descriptor has begun, for whatever reason and whatever the
      applications do meanwhile, its second half leaves no entry with that descriptor in the table, epoll
      watches it no more, and the loop goes on where it was. */
  lemma {:induction false} ClosedIsGone(s: State, fd: int, back: Pc, steps: seq<Step>, u: State)
    requires Inv(s) && Conducts(s) && Closes(s.pc, fd, back) && !Shutting(back) && LeadsPolitely(s, steps, u)
    requires Can(u, Retire) && Retire !in steps
    ensures Gone(Apply(u, Retire), fd) && Apply(u, Retire).pc == back
    decreases |steps|
  {
    hide Inv, Conducts, Can, Apply, ConnectsOnce, Gone, Closes;
    if steps == [] {
      RetireCloses(s, fd, back);
    } else {
      StepConducts(s, steps[0]);
      StaysClosing(s, steps[0], fd, back);
      ClosedIsGone(Apply(s, steps[0]), fd, back, steps[1..], u);
    }
  }
}
