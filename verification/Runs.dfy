/** The theorems about whole runs: every state the loop and the applications can reach, under any
    interleaving and any answers of the kernel. */
module Runs {
  import opened Connections
  import opened EventLoop
  import opened Ownership
  import opened Conduct
  import opened ConductSteps
  import opened ConductLoop

  ghost predicate Reachable(s: State) {
    exists role: Role, me: int, steps: seq<Step> :: Leads(Initial(role, me), steps, s)
  }

  /** Reachable when the application connects each connection at most once. */
  ghost predicate PolitelyReachable(s: State) {
    exists role: Role, me: int, steps: seq<Step> :: LeadsPolitely(Initial(role, me), steps, s)
  }

  lemma ReachableInv(s: State)
    requires Reachable(s)
    ensures Inv(s)
  {
    var role: Role, me: int, steps: seq<Step> :| Leads(Initial(role, me), steps, s);
    InitialHolds(role, me);
    RunKeeps(Initial(role, me), steps, s);
  }

  lemma PoliteInv(s: State)
    requires PolitelyReachable(s)
    ensures Inv(s) && Conducts(s)
  {
    hide Inv, Conducts, Initial;
    var role: Role, me: int, steps: seq<Step> :| LeadsPolitely(Initial(role, me), steps, s);
    InitialHolds(role, me);
    InitialConducts(role, me);
    RunConducts(Initial(role, me), steps, s);
  }

  // ---------------------------------------------------------------- ownership

  /** Whatever any thread does next, it follows live pointers only and stays inside the tables. */
  lemma NothingDangles(s: State, a: Step)
    requires Reachable(s) && Enabled(s, a)
    ensures Safe(s, a)
  {
    hide Inv, Enabled, Safe;
    ReachableInv(s);
    StepIsSafe(s, a);
  }

  /** The reference count is the number of holders plus the references a close threw away with an
      entry of m_new_connections; memory is live exactly while that is not zero. */
  lemma CountsAreExact(s: State, p: Ptr)
    requires Reachable(s)
    ensures p in s.heap <==> Holders(s, p) + s.lost[p] > 0
    ensures p in s.heap ==> s.heap[p].refs == Holders(s, p) + s.lost[p]
    ensures p in s.heap ==> (s.heap[p].refs == Holders(s, p) <==> p !in s.lost)
  {
    ReachableInv(s);
    LiveIffOwned(s, p);
  }

  /** No close of the run took an entry out of m_new_connections. */
  ghost predicate SparesPending(s: State, steps: seq<Step>, t: State)
    requires Leads(s, steps, t)
    decreases |steps|
  {
    steps == [] || (
      && (steps[0].Unlink? ==> |Apply(s, steps[0]).pending| == |s.pending|)
      && SparesPending(Apply(s, steps[0]), steps[1..], t))
  }

  lemma LostByCloses(s: State, a: Step)
    requires Can(s, a)
    ensures s.lost <= Apply(s, a).lost
    ensures Apply(s, a).lost == s.lost <==> (a.Unlink? ==> |Apply(s, a).pending| == |s.pending|)
  {
    if a.Unlink? && FindFd(s.heap, s.pending, s.pc.fd) < |s.pending| {
      var i := FindFd(s.heap, s.pending, s.pc.fd);
      assert Apply(s, a).lost[s.pending[i]] == s.lost[s.pending[i]] + 1;
    }
  }

  lemma {:induction false} RunLoses(s: State, steps: seq<Step>, t: State)
    requires Leads(s, steps, t)
    ensures s.lost <= t.lost
    ensures t.lost == s.lost <==> SparesPending(s, steps, t)
    decreases |steps|
  {
    hide Can, Apply;
    if steps != [] {
      LostByCloses(s, steps[0]);
      RunLoses(Apply(s, steps[0]), steps[1..], t);
    }
  }

  /** Over a run the counts are exact, for every connection, if and only if no close took an entry
      out of m_new_connections. */
  lemma ExactIffSpared(role: Role, me: int, steps: seq<Step>, s: State)
    requires Leads(Initial(role, me), steps, s)
    ensures (forall p :: p in s.heap ==> s.heap[p].refs == Holders(s, p))
      <==> SparesPending(Initial(role, me), steps, s)
  {
    hide Holders;
    RunLoses(Initial(role, me), steps, s);
    assert Reachable(s);
    forall p ensures p in s.heap ==> (s.heap[p].refs == Holders(s, p) <==> p !in s.lost) { CountsAreExact(s, p); }
    forall p | p in s.lost ensures p in s.heap { CountsAreExact(s, p); }
    if s.lost != multiset{} { var p :| p in s.lost; }
  }

  /** Ids and descriptors name one connection each, and table entries belong to this loop. */
  lemma NamesAreUnique(s: State, p: Ptr, q: Ptr)
    requires Reachable(s) && p in s.heap && q in s.heap && p != q
    ensures s.heap[p].id != s.heap[q].id
    ensures s.heap[p].fd == s.heap[q].fd ==> s.heap[p].fd == -1
    ensures Tabled(s, p) > 0 ==> s.heap[p].master == s.me
  {
    ReachableInv(s);
  }

  /** Written is sent plus what the out-queue holds beyond the bytes already sent. */
  lemma NothingLostOutgoing(s: State, p: Ptr)
    requires Reachable(s) && p in s.heap
    ensures var c, u := s.heap[p], Unpopped(s.pc, p);
      u <= |c.outQ.items| && c.log.written == c.log.sent + c.outQ.items[u..]
  {
    ReachableInv(s);
    Owed(s, p);
  }

  /** Once the loop has ended, what is still counted for a connection are application handles,
      connect calls under way, entries queued after the loop had let go of m_new_connections (on
      the server: entries that still wait for accept), and strays: m_connections holds nothing. */
  lemma StopLetsGo(s: State, p: Ptr)
    requires Reachable(s) && s.pc.Stopped? && p in s.heap
    ensures s.pc.released <= |s.pending|
    ensures s.heap[p].refs ==
      s.handles[p] + s.connecting[p] + multiset(s.pending[s.pc.released..])[p] + s.lost[p]
  {
    ReachableInv(s);
    StoppedCounts(s, p);
  }

  lemma StoppedCounts(s: State, p: Ptr)
    requires Inv(s) && s.pc.Stopped? && p in s.heap
    ensures s.pc.released <= |s.pending|
    ensures s.heap[p].refs ==
      s.handles[p] + s.connecting[p] + multiset(s.pending[s.pc.released..])[p] + s.lost[p]
  {
    Position(s);
    LiveIffOwned(s, p);
    assert s.heap[p].refs == Owners(s, p);
  }

  /** After a shutdown the tables keep no reference if and only if m_new_connections holds nothing but
      what the shutdown released. */
  lemma StopReleasesIff(s: State)
    requires Inv(s) && s.pc.Stopped?
    ensures s.pc.released <= |s.pending|
    ensures (forall p :: Entries(s, p) == 0) <==> s.pc.released == |s.pending|
  {
    Position(s);
    hide Inv;
    assert LivePending(s) == s.pending[s.pc.released..];
    if s.pc.released < |s.pending| {
      Member(LivePending(s), 0);
      assert Entries(s, LivePending(s)[0]) > 0;
    }
  }

  /** Everything that waited when the shutdown began is among what it lets go. */
  ghost predicate LetsGo(waiting: seq<Ptr>, s: State) {
    match s.pc
    case ShutPending(_) => waiting <= s.pending
    case ShutConns(_, released) => released <= |s.pending| && waiting <= s.pending[..released]
    case Stopped(released) => released <= |s.pending| && waiting <= s.pending[..released]
    case _ => false
  }

  lemma StillLetsGo(waiting: seq<Ptr>, s: State, a: Step)
    requires Can(s, a) && s.role.Client? && LetsGo(waiting, s)
    ensures LetsGo(waiting, Apply(s, a)) && Apply(s, a).role == s.role
  {
    hide Safe, Kernel;
    if a.ConnectPush? && !s.pc.ShutPending? {
      assert (s.pending + [a.p])[..s.pc.released] == s.pending[..s.pc.released];
    }
    if a.ShutPendingEnd? { assert s.pending[..|s.pending|] == s.pending; }
  }

  /** A client's shutdown releases every entry that m_new_connections held when it began, whatever is
      pushed meanwhile. */
  lemma StopTakesAllWaiting(s: State, steps: seq<Step>, t: State)
    requires s.role.Client? && Can(s, StopBegin) && Leads(Apply(s, StopBegin), steps, t) && t.pc.Stopped?
    ensures t.pc.released <= |t.pending| && s.pending <= t.pending[..t.pc.released]
  {
    StopBegins(s);
    RunLetsGo(s.pending, Apply(s, StopBegin), steps, t);
  }

  lemma {:induction false} RunLetsGo(waiting: seq<Ptr>, s: State, steps: seq<Step>, t: State)
    requires s.role.Client? && LetsGo(waiting, s) && Leads(s, steps, t)
    ensures LetsGo(waiting, t)
    decreases |steps|
  {
    hide LetsGo, Can, Apply;
    if steps != [] {
      StillLetsGo(waiting, s, steps[0]);
      RunLetsGo(waiting, Apply(s, steps[0]), steps[1..], t);
    }
  }

  lemma StopBegins(s: State)
    requires s.role.Client? && Can(s, StopBegin)
    ensures LetsGo(s.pending, Apply(s, StopBegin))
  {
  }

  /** A server connection put up for accept was handed out, closed before that, or still waits. */
  predicate Offers(s: State) { s.role.Server? ==> s.offered == |s.handed| + |s.lost| + |s.pending| }

  lemma AppOffers(s: State, a: Step)
    requires Offers(s) && Can(s, a) && OfApplication(a)
    ensures Offers(Apply(s, a))
  {
  }

  lemma LoopOffers(s: State, a: Step)
    requires Offers(s) && Can(s, a) && !OfApplication(a) && !a.Unlink? && (a.AdoptEnd? ==> s.role.Client?)
    ensures Offers(Apply(s, a))
  {
    if a.SendOne? { hide Sendable; }
  }

  lemma UnlinkOffers(s: State)
    requires Offers(s) && Can(s, Unlink)
    ensures Offers(Apply(s, Unlink))
  {
  }

  lemma StepOffers(s: State, a: Step)
    requires Inv(s) && Offers(s) && Can(s, a)
    ensures Offers(Apply(s, a))
  {
    hide Inv, Can, Apply, Offers;
    if OfApplication(a) { AppOffers(s, a); }
    else if a.Unlink? { UnlinkOffers(s); }
    else {
      if a.AdoptEnd? { ConductSteps.AdoptIsClient(s); }
      LoopOffers(s, a);
    }
  }

  lemma {:induction false} RunOffers(s: State, steps: seq<Step>, t: State)
    requires Inv(s) && Offers(s) && Leads(s, steps, t)
    ensures Inv(t) && Offers(t)
    decreases |steps|
  {
    hide Inv, Can, Apply, Offers;
    if steps != [] {
      StepKeeps(s, steps[0]);
      StepOffers(s, steps[0]);
      RunOffers(Apply(s, steps[0]), steps[1..], t);
    }
  }

  /** After a server's shutdown the tables keep no reference if and only if every connection it ever
      put up for accept was handed out or closed before that. */
  lemma ServerStopReleasesIff(s: State)
    requires Inv(s) && Offers(s) && s.role.Server? && s.pc.Stopped?
    ensures (forall p :: Entries(s, p) == 0) <==> s.offered == |s.handed| + |s.lost|
  {
    Position(s);
    hide Inv;
    assert LivePending(s) == s.pending;
    if s.pending != [] {
      Member(s.pending, 0);
      assert Entries(s, s.pending[0]) > 0;
    }
  }

  // ---------------------------------------------------------------- the state diagram

  lemma {:induction false} FailedStays(b: seq<ConState>, i: nat, j: nat)
    requires OnDiagram(b) && i <= j < |b| && b[i] == Failed
    ensures b[j] == Failed
    decreases j
  {
    if i < j { FailedStays(b, i, j - 1); }
  }

  lemma FailedIsLast(b: seq<ConState>)
    requires OnDiagram(b)
    ensures Failed in b ==> b[|b| - 1] == Failed
  {
    if Failed in b {
      var i :| 0 <= i < |b| && b[i] == Failed;
      FailedStays(b, i, |b| - 1);
    }
  }

  /** Every published change is an edge of the diagram, the last one is the present state, and a
      failed connection stays failed. */
  lemma StatesFollowDiagram(s: State, p: Ptr)
    requires PolitelyReachable(s) && p in s.heap
    ensures var b := s.heap[p].log.published;
      && OnDiagram(b) && b[|b| - 1] == s.heap[p].state
      && (Failed in b ==> s.heap[p].state == Failed)
  {
    PoliteInv(s);
    hide PolitelyReachable, Inv, Conducts, OnDiagram;
    DiagramAt(s, p);
    FailedIsLast(s.heap[p].log.published);
  }

  lemma DiagramAt(s: State, p: Ptr)
    requires Inv(s) && Conducts(s) && p in s.heap
    ensures var b := s.heap[p].log.published; OnDiagram(b) && b[|b| - 1] == s.heap[p].state
  {
    hide Single, Wired, Watched, Swept, Ordered, Queued, Seated;
    Owed(s, p);
    hide Inv;
    assert Behaves(s.role, s.heap[p], Queued(s, p), Seated(s, p));
  }

  /** Publishing one more state keeps to the diagram exactly along an edge. */
  lemma PublishesIff(b: seq<ConState>, next: ConState)
    requires OnDiagram(b)
    ensures OnDiagram(b + [next]) <==> Follows(b[|b| - 1], next)
  {
    var c := b + [next];
    assert c[|b| - 1] == b[|b| - 1] && c[|b|] == next;
    if Follows(b[|b| - 1], next) { DiagramGrows(b, next); }
  }

  /** Without the assumption on connect: a call of connect keeps a connection's history on the diagram
      if and only if it finds it Idle or InProgress. */
  lemma ConnectOnDiagramIff(s: State, p: Ptr)
    requires Inv(s) && Can(s, ConnectBegin(p)) && OnDiagram(s.heap[p].log.published)
    ensures OnDiagram(Apply(s, ConnectBegin(p)).heap[p].log.published)
      <==> s.heap[p].state.Idle? || s.heap[p].state.InProgress?
  {
    hide Inv, OnDiagram;
    Owed(s, p);
    PublishesIff(s.heap[p].log.published, InProgress);
  }

  /** So does the attempt of a connection that waits, perhaps for the second time. */
  lemma AdoptOnDiagramIff(s: State, r: Attempt)
    requires Inv(s) && Can(s, AdoptOne(r)) && OnDiagram(s.heap[s.pending[s.pc.next]].log.published)
    ensures var c := s.heap[s.pending[s.pc.next]];
      OnDiagram(TryConnect(c, r).log.published) <==> c.state.Idle? || c.state.InProgress?
  {
    hide Inv, OnDiagram;
    var p := s.pending[s.pc.next];
    Owed(s, p);
    TriesOnDiagramIff(s.heap[p], r);
  }

  lemma TriesOnDiagramIff(c: Con, r: Attempt)
    requires OnDiagram(c.log.published) && c.log.published[|c.log.published| - 1] == c.state
    ensures OnDiagram(TryConnect(c, r).log.published) <==> c.state.Idle? || c.state.InProgress?
  {
    var b, d := c.log.published, TryConnect(c, r).log.published;
    PublishesIff(b, InProgress);
    var b1 := b + [InProgress];
    if OnDiagram(b1) {
      PublishesIff(b1, Failed);
      PublishesIff(b1, Established);
      PublishesIff(b1 + [Established], Failed);
    } else {
      assert !Follows(d[|b| - 1], d[|b|]);
    }
  }

  /** A writable descriptor keeps its entry on the diagram if and only if it was connecting or
      connected. */
  lemma WritableOnDiagramIff(s: State, fd: int, i: nat)
    requires Reachable(s) && Can(s, Writable(fd, true)) && i == FindFd(s.heap, s.conns, fd) < |s.conns|
    requires OnDiagram(s.heap[s.conns[i]].log.published)
    ensures var p := s.conns[i];
      OnDiagram(Apply(s, Writable(fd, true)).heap[p].log.published)
      <==> s.heap[p].state.InProgress? || s.heap[p].state.Established?
  {
    hide Reachable, Inv, OnDiagram;
    ReachableInv(s);
    Owed(s, s.conns[i]);
    PublishesIff(s.heap[s.conns[i]].log.published, Established);
  }

  /** Until shutdown every entry of m_connections has a descriptor and is connecting or connected,
      on the server connected. */
  lemma EntriesAreUsable(s: State, i: nat)
    requires PolitelyReachable(s) && !Shutting(s.pc) && i < |s.conns|
    ensures s.conns[i] in s.heap
    ensures var c := s.heap[s.conns[i]];
      c.fd >= 0 && (c.state == Established || (c.state == InProgress && s.role.Client?))
  {
    PoliteInv(s);
    SeatedFd(s, i);
  }

  /** No byte leaves before the connection was Established. */
  lemma SentOnlyEstablished(s: State, p: Ptr)
    requires Reachable(s) && p in s.heap && s.heap[p].log.sent != []
    ensures Established in s.heap[p].log.published
  {
    ReachableInv(s);
    Owed(s, p);
  }

  /** The assertions of the loop's routines cannot fail, whatever the kernel answers. */
  lemma AssertionsHold(s: State, a: Step)
    requires PolitelyReachable(s) && Enabled(s, a)
    ensures Safe(s, a) && (Kernel(s, a) ==> AssertsHold(s, a))
  {
    PoliteInv(s);
    hide PolitelyReachable, Inv, Conducts;
    StepIsSafe(s, a);
    if a.CloseOne? { CloseAsserts(s); }
    if a.SendOne? { SendAsserts(s, a.result); }
    if a.AdoptOne? { AdoptAsserts(s, a.attempt); }
  }

  lemma CloseAsserts(s: State)
    requires Inv(s) && Conducts(s) && Enabled(s, CloseOne) && Safe(s, CloseOne)
    ensures AssertsHold(s, CloseOne)
  {
    hide Inv, Conducts;
    Entry(s, s.pc.left - 1);
  }

  lemma SendAsserts(s: State, r: SendResult)
    requires Inv(s) && Conducts(s) && Enabled(s, SendOne(r)) && Safe(s, SendOne(r))
    ensures Kernel(s, SendOne(r)) ==> AssertsHold(s, SendOne(r))
  {
    hide Inv, Conducts, FindId;
    Entry(s, s.pc.left - 1);
  }

  lemma AdoptAsserts(s: State, r: Attempt)
    requires Inv(s) && Conducts(s) && Enabled(s, AdoptOne(r)) && Safe(s, AdoptOne(r))
    ensures AssertsHold(s, AdoptOne(r))
  {
    Position(s);
    hide Inv, Conducted, Wired, Watched, Swept, Ordered;
    assert s.pending[s.pc.next] == LivePending(s)[0];
    QueuedOnce(s, s.pending[s.pc.next]);
  }

  lemma Entry(s: State, i: nat)
    requires Inv(s) && Conducts(s) && !Shutting(s.pc) && i < |s.conns|
    ensures s.conns[i] in s.heap && s.heap[s.conns[i]].fd >= 0
  {
    SeatedFd(s, i);
  }

  // ---------------------------------------------------------------- lookups and routing

  /** Looking an entry up, by id or by descriptor, finds that entry. */
  lemma LookupsFindOwnIndex(s: State, i: nat)
    requires PolitelyReachable(s) && !Shutting(s.pc) && i < |s.conns|
    ensures AllIn(s.heap, s.conns)
    ensures FindId(s.heap, s.conns, s.heap[s.conns[i]].id) == i
    ensures FindFd(s.heap, s.conns, s.heap[s.conns[i]].fd) == i
  {
    hide PolitelyReachable, Conducted, Wired, Watched, Swept, Ordered, Single, Counted, Mastered, Accounted, Placed;
    PoliteInv(s);
    ConnsPresent(s);
    SeatsDistinct(s);
    assert LiveConns(s) == s.conns;
    SeatedFd(s, i);
    var p := s.conns[i];
    var j, k := FindId(s.heap, s.conns, s.heap[p].id), FindFd(s.heap, s.conns, s.heap[p].fd);
    if s.conns[k] != p { FdsDistinct(s, p, s.conns[k]); }
  }

  /** A chunk read from a descriptor goes to the in-queue of the one live connection that carries
      it, and to nobody else. */
  lemma ChunkReachesCarrier(s: State) returns (p: Ptr)
    requires PolitelyReachable(s) && s.pc.Storing?
    ensures Can(s, Store) && p in s.heap && s.heap[p].fd == s.pc.fd
    ensures forall q :: q in s.heap && s.heap[q].fd == s.pc.fd ==> q == p
    ensures Apply(s, Store).heap
         == s.heap[p := s.heap[p].(inQ := s.heap[p].inQ.Enqueue(s.pc.chunk))]
  {
    PoliteInv(s);
    hide PolitelyReachable, Inv, Conducts;
    StepIsSafe(s, Store);
    assert Can(s, Store);
    ConnsPresent(s);
    StoringFd(s);
    var i := FindFd(s.heap, s.conns, s.pc.fd);
    p := s.conns[i];
    hide Can, Apply;
    StoreLeaves(s, i);
    OnlyCarrier(s, p);
  }

  lemma OnlyCarrier(s: State, p: Ptr)
    requires Inv(s) && p in s.heap && s.heap[p].fd >= 0
    ensures forall q :: q in s.heap && s.heap[q].fd == s.heap[p].fd ==> q == p
  {
  }

  lemma StoringFd(s: State)
    requires Inv(s) && Conducts(s) && s.pc.Storing? && AllIn(s.heap, s.conns)
    ensures FindFd(s.heap, s.conns, s.pc.fd) < |s.conns| && s.pc.fd >= 0
  {
    hide Inv, Conducted, Watched;
    ChunkHasTarget(s);
    SeatedFd(s, FindFd(s.heap, s.conns, s.pc.fd));
  }

  /** Whatever was read from a connection's descriptor is with the application, in the in-queue, or
      on its way there, in order; whatever the kernel took on it came from this connection. */
  lemma NothingLostIncoming(s: State, p: Ptr)
    requires PolitelyReachable(s) && p in s.heap && s.heap[p].fd >= 0
    ensures var c := s.heap[p];
      && Get(s.wire, c.fd) == c.log.delivered + c.inQ.items + Chunk(s.pc, c.fd)
      && Get(s.out, c.fd) == c.log.sent
  {
    PoliteInv(s);
    WiredAt(s, p);
  }

  // ---------------------------------------------------------------- the sweeps

  predicate InSweep(pc: Pc) {
    match pc
    case Sending(_, _) => true
    case Popping(_, _, _, _) => true
    case Closing(_, _) => true
    case Unlinking(_, back) => back.Sending? || back.Closing?
    case Retiring(_, back) => back.Sending? || back.Closing?
    case _ => false
  }

  /** The table entries the sweeps of a run look at, in order. */
  ghost function Visited(s: State, steps: seq<Step>, t: State): seq<Ptr>
    requires LeadsPolitely(s, steps, t)
    decreases |steps|
  {
    if steps == [] then [] else
      (if steps[0].SendOne? || steps[0].CloseOne? then [s.conns[s.pc.left - 1]] else [])
      + Visited(Apply(s, steps[0]), steps[1..], t)
  }

  lemma {:induction false} BackwardsLast<T>(s: seq<T>, x: T)
    ensures Backwards(s + [x]) == [x] + Backwards(s)
  {
    if s != [] {
      BackwardsLast(s[1..], x);
      assert (s + [x])[1..] == s[1..] + [x];
    }
  }

  predicate OfSweep(a: Step) { a.SendOne? || a.CloseOne? || a.Pop? || a.Unlink? || a.Retire? }

  lemma SweepEnables(s: State, a: Step)
    requires Can(s, a) && InSweep(s.pc) && !a.SendEnd? && !a.CloseEnd?
    ensures (OfSweep(a) || OfApplication(a)) && !a.Create?
  {
    hide Safe, Kernel;
  }

  /** Inside a sweep a step either looks at the last entry not yet visited, or changes nothing of
      what is still to visit. */
  predicate SweptOn(s: State, t: State, visits: bool) {
    && InSweep(t.pc) && Orig(t.pc) == Orig(s.pc)
    && (if visits then (s.pc.Sending? || s.pc.Closing?) && s.pc.left > 0 && Left(t.pc) == Left(s.pc) - 1
        else Left(t.pc) == Left(s.pc))
  }

  lemma SendVisits(s: State, r: SendResult)
    requires Can(s, SendOne(r))
    ensures SweptOn(s, Apply(s, SendOne(r)), true)
  {
    var k := s.pc.left - 1;
    if r.Accepted? && Sendable(s, k) { SendTaken(s, r, k); } else { SendDeclined(s, r, k); }
    hide Can, Apply, Sendable;
    var t, back := Apply(s, SendOne(r)), Sending(k, s.pc.orig);
    assert Left(back) == k && Orig(back) == s.pc.orig;
    assert Left(t.pc) == k && Orig(t.pc) == s.pc.orig;
  }

  lemma CloseVisits(s: State)
    requires Can(s, CloseOne)
    ensures SweptOn(s, Apply(s, CloseOne), true)
  {
  }

  lemma HiddenStep(s: State, a: Step)
    requires Can(s, a) && InSweep(s.pc) && (a.Pop? || a.Unlink? || a.Retire?)
    requires s.pc.Unlinking? || s.pc.Retiring? ==> s.pc.back.Sending? || s.pc.back.Closing?
    ensures SweptOn(s, Apply(s, a), false)
  {
  }

  lemma SweepStep(s: State, a: Step)
    requires Can(s, a) && InSweep(s.pc) && !a.SendEnd? && !a.CloseEnd?
    ensures SweptOn(s, Apply(s, a), a.SendOne? || a.CloseOne?)
  {
    hide Can, Apply, Left, Orig;
    SweepEnables(s, a);
    if OfApplication(a) { AppLeavesLoop(s, a); }
    else if a.SendOne? { SendVisits(s, a.result); }
    else if a.CloseOne? { CloseVisits(s); }
    else { HiddenStep(s, a); }
  }

  /** A stretch of a run inside one sweep visits exactly the entries between its first and its last
      position, each once, from the back, although entries are erased meanwhile. */
  lemma {:induction false} SweepVisits(s: State, steps: seq<Step>, t: State)
    requires Inv(s) && Conducts(s) && LeadsPolitely(s, steps, t) && InSweep(s.pc)
    requires forall a :: a in steps ==> !a.SendEnd? && !a.CloseEnd?
    ensures Orig(t.pc) == Orig(s.pc) && Left(t.pc) <= Left(s.pc) <= |Orig(s.pc)|
    ensures Visited(s, steps, t) == Backwards(Orig(s.pc)[Left(t.pc)..Left(s.pc)])
    decreases |steps|
  {
    hide Inv, Can, Apply, Conducted, Single, Wired, Watched, Ordered;
    if steps != [] {
      var a, s' := steps[0], Apply(s, steps[0]);
      StepConducts(s, a);
      SweepStep(s, a);
      SweepVisits(s', steps[1..], t);
      if a.SendOne? || a.CloseOne? { LastVisited(s, Left(t.pc)); }
    }
  }

  lemma LastVisited(s: State, low: nat)
    requires Swept(s) && (s.pc.Sending? || s.pc.Closing?) && low < s.pc.left
    ensures s.pc.left <= |s.conns| && s.pc.left <= |Orig(s.pc)|
    ensures Backwards(Orig(s.pc)[low..s.pc.left])
         == [s.conns[s.pc.left - 1]] + Backwards(Orig(s.pc)[low..s.pc.left - 1])
  {
    var o, k := Orig(s.pc), s.pc.left;
    assert s.conns[k - 1] == o[k - 1];
    BackwardsLast(o[low..k - 1], o[k - 1]);
    assert o[low..k] == o[low..k - 1] + [o[k - 1]];
  }

  /** A sweep of the whole table begins. */
  predicate SweepStarts(s: State) { (s.pc.Sending? || s.pc.Closing?) && s.pc.left == |s.conns| && s.pc.orig == s.conns }

  /** The sweep index has wrapped. */
  predicate SweepDone(t: State) { (t.pc.Sending? || t.pc.Closing?) && t.pc.left == 0 }

  lemma SweepEnds(s: State, t: State)
    requires SweepStarts(s) && SweepDone(t)
    ensures InSweep(s.pc) && Orig(s.pc) == s.conns
    ensures Orig(s.pc)[0..Left(s.pc)] == s.conns && Left(t.pc) == 0
  {
  }

  lemma SweepWhole(s: State, steps: seq<Step>, t: State)
    requires Inv(s) && Conducts(s) && LeadsPolitely(s, steps, t) && SweepStarts(s) && SweepDone(t)
    requires forall a :: a in steps ==> !a.SendEnd? && !a.CloseEnd?
    ensures Visited(s, steps, t) == Backwards(s.conns)
  {
    hide *;
    SweepEnds(s, t);
    SweepVisits(s, steps, t);
  }

  /** A whole sweep examines the table it started with, every entry once, last to first. */
  lemma SweepIsComplete(s: State, steps: seq<Step>, t: State)
    requires PolitelyReachable(s) && LeadsPolitely(s, steps, t) && SweepStarts(s) && SweepDone(t)
    requires forall a :: a in steps ==> !a.SendEnd? && !a.CloseEnd?
    ensures Visited(s, steps, t) == Backwards(s.conns)
  {
    hide *;
    PoliteInv(s);
    SweepWhole(s, steps, t);
  }

  lemma SweepBorders(s: State, a: Step)
    requires Can(s, a)
    ensures a.AdoptEnd? || a.SendBegin? || a.SendEnd? ==>
      SweepStarts(Apply(s, a)) && Apply(s, a).conns == s.conns && (Apply(s, a).pc.Closing? <==> a.SendEnd?)
    ensures a.SendEnd? || a.CloseEnd? ==> SweepDone(s) && (a.CloseEnd? ==> Apply(s, a).pc.Events?)
  {
    if a.AdoptEnd? || a.SendBegin? || a.SendEnd? || a.CloseEnd? { hide Safe, Kernel; } else { hide Can, Apply; }
  }

  /** A pass has one send sweep and one close sweep of the whole table: from the end of the adoption (on the
      server, from the beginning of the pass) until the loop turns to its events, every entry of the
      table as it was when either sweep began gets its turn, and only once. */
  lemma PassSweepsTwice(s: State, a: Step, first: seq<Step>, u: State, second: seq<Step>, v: State)
    requires PolitelyReachable(s) && Can(s, a) && (a.AdoptEnd? || a.SendBegin?)
    requires LeadsPolitely(Apply(s, a), first, u) && Can(u, SendEnd)
    requires LeadsPolitely(Apply(u, SendEnd), second, v) && Can(v, CloseEnd)
    requires forall b :: b in first || b in second ==> !b.SendEnd? && !b.CloseEnd?
    ensures Visited(Apply(s, a), first, u) == Backwards(s.conns)
    ensures Visited(Apply(u, SendEnd), second, v) == Backwards(u.conns) && Apply(v, CloseEnd).pc.Events?
  {
    hide *;
    PoliteInv(s);
    SweepBorders(s, a);
    NotConnect(s, a);
    StepConducts(s, a);
    SweepBorders(u, SendEnd);
    SweepWhole(Apply(s, a), first, u);
    RunConducts(Apply(s, a), first, u);
    NotConnect(u, SendEnd);
    StepConducts(u, SendEnd);
    SweepBorders(v, CloseEnd);
    SweepWhole(Apply(u, SendEnd), second, v);
  }

  lemma NotConnect(s: State, a: Step)
    requires Can(s, a) && !a.ConnectBegin?
    ensures ConnectsOnce(s, a)
  {
  }

  // ---------------------------------------------------------------- the server's tables

  /** a is b with some items left out. */
  predicate Subsequence<T(==)>(a: seq<T>, b: seq<T>)
    decreases |b|
  {
    if a == [] then true
    else if b == [] then false
    else if a[0] == b[0] then Subsequence(a[1..], b[1..])
    else Subsequence(a, b[1..])
  }

  lemma {:induction false} OrderedSubset(h: Heap, a: seq<Ptr>, b: seq<Ptr>)
    requires Increasing(h, a) && Increasing(h, b)
    requires forall i :: 0 <= i < |a| ==> a[i] in b
    ensures Subsequence(a, b)
    decreases |b|
  {
    if a != [] {
      assert a[0] in b;
      var k :| 0 <= k < |b| && b[k] == a[0];
      var a' := if a[0] == b[0] then a[1..] else a;
      forall i | 0 <= i < |a'| ensures a'[i] in b[1..] {
        var j :| 0 <= j < |b| && b[j] == a'[i];
        assert h[a[0]].id <= h[a'[i]].id;
        assert h[b[0]].id <= h[a[0]].id;
        assert j > 0;
        assert b[1..][j - 1] == b[j];
      }
      OrderedSubset(h, a', b[1..]);
    }
  }

  /** Connections wait for accept in the order of m_connections. */
  lemma PendingIsSubsequence(s: State)
    requires PolitelyReachable(s) && s.role.Server? && !Shutting(s.pc)
    ensures Subsequence(s.pending, s.conns)
  {
    PoliteInv(s);
    OrderedSubset(s.heap, s.pending, s.conns);
  }

  /** accept hands connections out at most once, in order of arrival. */
  lemma AcceptsInOrder(s: State)
    requires PolitelyReachable(s) && s.role.Server?
    ensures forall i, j :: 0 <= i < j < |s.handed| ==> s.handed[i] < s.handed[j]
    ensures forall k, i :: 0 <= k < |s.pending| && 0 <= i < |s.handed| ==>
      s.pending[k] in s.heap && s.handed[i] < s.heap[s.pending[k]].id
  {
    PoliteInv(s);
    hide PolitelyReachable, Inv, Conducted, Single, Wired, Watched, Swept, Listed, Awaited;
    assert Lined(s);
  }

  /** accept never hands out a connection that failed. */
  lemma AcceptsNoFailed(s: State)
    requires PolitelyReachable(s) && Enabled(s, Accept)
    ensures var p := s.pending[0];
      p in s.heap && s.heap[p].state == Established && Failed !in s.heap[p].log.published
  {
    PoliteInv(s);
    hide Inv, Conducts;
    ServerPending(s);
    StatesFollowDiagram(s, s.pending[0]);
    WaitingIsEstablished(s);
  }

  lemma WaitingIsEstablished(s: State)
    requires Inv(s) && Conducts(s) && s.role.Server? && |s.pending| > 0 && s.pending[0] in s.heap
    ensures s.heap[s.pending[0]].state == Established
  {
    ServerPending(s);
    assert s.pending[0] in LivePending(s);
    hide Inv;
  }
}
