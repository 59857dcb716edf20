/** Every step of a polite run keeps Conduct's invariant, one lemma per step. */
module ConductSteps {
  import opened Bytes
  import opened Connections
  import opened EventLoop
  import opened Ownership
  import opened Conduct

  // ---------------------------------------------------------------- what the tables hold

  lemma ServerPending(s: State)
    requires Inv(s) && s.role.Server?
    ensures LivePending(s) == s.pending && AllIn(s.heap, s.pending)
  {
    PendingLive(s);
  }

  lemma ConnsPresent(s: State)
    requires Inv(s) && !Shutting(s.pc)
    ensures LiveConns(s) == s.conns && AllIn(s.heap, s.conns)
  {
    ConnsLive(s);
  }

  // ---------------------------------------------------------------- parts that a step leaves alone

  /** Connections that stay keep their id and descriptor. */
  ghost predicate SameNames(h: Heap, k: Heap) {
    forall q :: q in h && q in k ==> k[q].id == h[q].id && k[q].fd == h[q].fd
  }

  lemma WatchedSame(s: State, t: State)
    requires Inv(t) && Watched(s) && SameNames(s.heap, t.heap)
    requires Shutting(t.pc) || (!Shutting(s.pc) && t.conns == s.conns && t.polled == s.polled)
    requires t.pc.Storing? ==> s.pc.Storing? && t.pc.fd == s.pc.fd && t.polled == s.polled
    ensures Watched(t)
  {
    hide Inv;
    if !Shutting(t.pc) {
      ConnsPresent(t);
      forall fd | fd in t.polled ensures Carried(t, fd) {
        assert Carried(s, fd);
        var i :| 0 <= i < |s.conns| && s.conns[i] in s.heap && s.heap[s.conns[i]].fd == fd;
        assert t.conns[i] in t.heap;
      }
    }
  }

  /** The loop position and the table are the same. */
  lemma SweptSame(s: State, t: State)
    requires Inv(s) && Swept(s) && SameNames(s.heap, t.heap) && t.conns == s.conns && t.pc == s.pc
    ensures Swept(t)
  {
    hide Inv;
    if s.pc.Unlinking? || s.pc.Retiring? { ConnsPresent(s); }
  }

  /** No sweep is under way. */
  lemma SweptIdle(t: State)
    requires Left(t.pc) == 0 && !t.pc.Unlinking? && !t.pc.Retiring?
    ensures Swept(t)
  {
  }

  lemma LinedSame(s: State, t: State)
    requires Inv(s) && Inv(t) && s.role.Server? && t.role == s.role && Lined(s) && SameNames(s.heap, t.heap)
    requires t.pending == s.pending && t.handed == s.handed && t.nextId == s.nextId
    ensures Lined(t)
  {
    hide Inv;
    ServerPending(s);
    ServerPending(t);
  }

  lemma ListedSame(s: State, t: State)
    requires Inv(s) && Inv(t) && !Shutting(s.pc) && !Shutting(t.pc) && Listed(s) && SameNames(s.heap, t.heap)
    requires t.pending == s.pending && t.conns == s.conns
    ensures Listed(t)
  {
    hide Inv;
    ConnsPresent(s);
    ConnsPresent(t);
  }

  lemma AwaitedSame(s: State, t: State)
    requires Inv(s) && Inv(t) && s.role.Server? && Awaited(s) && SameNames(s.heap, t.heap)
    requires t.pending == s.pending && t.handed == s.handed && t.conns == s.conns && t.pc == s.pc
    ensures Awaited(t)
  {
    hide Inv;
    ServerPending(s);
    if t.pc.Publishing? {
      Position(t);
      ConnsPresent(t);
    }
  }

  lemma OrderedSame(s: State, t: State)
    requires Inv(s) && Inv(t) && Ordered(s) && SameNames(s.heap, t.heap) && t.role == s.role
    requires t.pending == s.pending && t.handed == s.handed && t.nextId == s.nextId
    requires Shutting(t.pc) || (!Shutting(s.pc) && t.conns == s.conns)
    requires t.pc == s.pc || (!t.pc.Publishing? && !t.pc.Retiring?)
    requires s.role.Client? || t.connecting == s.connecting
    ensures Ordered(t)
  {
    hide Inv, Lined, Listed;
    if s.role.Server? {
      LinedSame(s, t);
      if !Shutting(t.pc) { ListedSame(s, t); }
      if t.pc == s.pc && !Shutting(t.pc) { AwaitedSame(s, t); }
    }
  }

  /** Tables, loop position and names are the same. */
  lemma TablesSame(s: State, t: State)
    requires Inv(s) && Inv(t) && Watched(s) && Swept(s) && Ordered(s) && SameNames(s.heap, t.heap)
    requires t.role == s.role && t.pc == s.pc && t.conns == s.conns && t.pending == s.pending
    requires t.polled == s.polled && t.handed == s.handed && t.nextId == s.nextId
    requires s.role.Client? || t.connecting == s.connecting
    ensures Watched(t) && Swept(t) && Ordered(t)
  {
    hide Inv, Swept, Ordered;
    WatchedSame(s, t);
    SweptSame(s, t);
    OrderedSame(s, t);
  }

  lemma SeatsSame(s: State, t: State)
    requires t.role == s.role && t.pc == s.pc && t.conns == s.conns && t.pending == s.pending
    requires t.connecting == s.connecting
    ensures forall q :: Queued(t, q) == Queued(s, q) && Seated(t, q) == Seated(s, q)
    ensures forall q :: Places(t, q) == Places(s, q)
  {
  }

  lemma FitsConducts(s: State, t: State, e: Effect)
    requires Conducts(s) && HeapFits(s, t, e) && SeatsFit(s, t, e) && WireFit(s, t, e)
    requires Watched(t) && Swept(t) && Ordered(t)
    ensures Conducts(t)
  {
    hide Conducted, Single, Wired, Watched, Swept, Ordered, HeapFits, SeatsFit, WireFit;
    ConductedFits(s, t, e);
    SingleFits(s, t, e);
    WiredFits(s, t, e);
  }

  // ---------------------------------------------------------------- steps on a handle

  /** The reading side moves bytes from the in-queue to the application; nothing else shows. */
  predicate Alike(a: Con, b: Con) {
    && b.id == a.id && b.fd == a.fd && b.master == a.master && b.refs == a.refs && b.state == a.state
    && b.log.published == a.log.published && b.log.connects == a.log.connects && b.log.sent == a.log.sent
    && b.log.delivered + b.inQ.items == a.log.delivered + a.inQ.items
    && (Quiet(a) ==> Quiet(b))
  }

  lemma TouchConducts(s: State, t: State, p: Ptr, c: Con)
    requires Inv(s) && Inv(t) && Conducts(s) && p in s.heap && Alike(s.heap[p], c)
    requires t == s.(heap := s.heap[p := c])
    ensures Conducts(t)
  {
    hide Inv, Watched, Swept, Ordered, Queued, Seated, Places, OnDiagram;
    var e := Changes(p, c);
    assert Behaves(s.role, s.heap[p], Queued(s, p), Seated(s, p));
    assert WiredCon(s.heap[p], s.wire, s.out, s.pc);
    TablesSame(s, t);
    SeatsSame(s, t);
    FitsConducts(s, t, e);
  }

  lemma ReadAlike(c: Con, n: nat)
    ensures Alike(c, c.(inQ := c.inQ.Dequeue(n), log := c.log.(delivered := c.log.delivered + c.inQ.Taken(n))))
  {
    var q := c.inQ;
    var d := q.Dequeue(n);
    assert q.items == q.Taken(n) + d.items;
    assert c.log.delivered + (q.Taken(n) + d.items) == (c.log.delivered + q.Taken(n)) + d.items;
  }

  lemma HandleConducts(s: State, a: Step)
    requires Inv(s) && Conducts(s) && Can(s, a) && Inv(Apply(s, a))
    requires a.Write? || a.Read? || a.DestroyMark?
    ensures Conducts(Apply(s, a))
  {
    hide Inv, Conducts;
    var t := Apply(s, a);
    match a
    case Write(p, _) => TouchConducts(s, t, p, t.heap[p]);
    case Read(p, n) => ReadAlike(s.heap[p], n); TouchConducts(s, t, p, t.heap[p]);
    case DestroyMark(p) => TouchConducts(s, t, p, t.heap[p]);
  }

  lemma ReleasedNames(h: Heap, p: Ptr, c: Con)
    requires p in h && c.refs > 0 && c.id == h[p].id && c.fd == h[p].fd
    ensures SameNames(h, Release(h[p := c], p))
  {
  }

  lemma DestroyReleaseConducts(s: State, p: Ptr)
    requires Inv(s) && Conducts(s) && Can(s, DestroyRelease(p)) && Inv(Apply(s, DestroyRelease(p)))
    ensures Conducts(Apply(s, DestroyRelease(p)))
  {
    hide Inv, Watched, Swept, Ordered, Queued, Seated, Places, OnDiagram;
    var t, e := Apply(s, DestroyRelease(p)), Releases(p, s.heap[p]);
    assert s.heap[p := s.heap[p]] == s.heap;
    ReleasedNames(s.heap, p, s.heap[p]);
    assert Behaves(s.role, s.heap[p], Queued(s, p), Seated(s, p));
    assert WiredCon(s.heap[p], s.wire, s.out, s.pc);
    TablesSame(s, t);
    SeatsSame(s, t);
    FitsConducts(s, t, e);
  }

  // ---------------------------------------------------------------- create, connect, accept

  lemma StrangerUnseated(s: State, p: Ptr)
    requires Inv(s) && p !in s.heap
    ensures !Queued(s, p) && !Seated(s, p) && Places(s, p) == 0
  {
    LiveIffOwned(s, p);
    hide Inv, Counted, LivePending, LiveConns;
    assert p in LivePending(s) ==> p in multiset(LivePending(s));
    assert p in LiveConns(s) ==> p in multiset(LiveConns(s));
  }

  lemma CreateConducts(s: State, p: Ptr, fd: int)
    requires Inv(s) && Conducts(s) && Can(s, Create(p, fd)) && Inv(Apply(s, Create(p, fd)))
    ensures Conducts(Apply(s, Create(p, fd)))
  {
    hide Inv, Queued, Seated, Places, Watched, Swept, Conducted, Single, Wired;
    var c := NewCon(s.nextId, fd, -1, Idle, 0);
    var t, e := Apply(s, Create(p, fd)), Adds(p, c);
    StrangerUnseated(s, p);
    SeatsSame(s, t);
    WatchedSame(s, t);
    SweptSame(s, t);
    FitsConducts(s, t, e);
  }

  /** Somebody who never called connect has no place and is idle. */
  lemma Unconnected(s: State, p: Ptr)
    requires Inv(s) && Conducted(s) && Single(s) && p in s.heap && s.heap[p].log.connects == 0
    ensures !Queued(s, p) || s.role.Server?
    ensures !Seated(s, p) && Places(s, p) == 0
    ensures s.heap[p].state == Idle && Quiet(s.heap[p]) && OnDiagram(s.heap[p].log.published)
    ensures var b := s.heap[p].log.published; b[|b| - 1] == Idle
  {
    hide Inv;
    Owed(s, p);
    assert p in LivePending(s) ==> p in multiset(LivePending(s));
    assert p in LiveConns(s) ==> p in multiset(LiveConns(s));
    PlacesSplit(s, p);
  }

  lemma DiagramGrows(b: seq<ConState>, next: ConState)
    requires OnDiagram(b) && Follows(b[|b| - 1], next)
    ensures OnDiagram(b + [next])
  {
  }

  lemma ConnectBeginBehaves(s: State, p: Ptr)
    requires Inv(s) && Conducted(s) && Single(s) && p in s.heap && s.heap[p].log.connects == 0 && s.role.Client?
    ensures Behaves(s.role, DoConnectBegin(s, p).heap[p], true, false)
    ensures DoConnectBegin(s, p).heap[p].log.connects == 1
  {
    hide Inv, Queued, Seated, Places;
    Unconnected(s, p);
    DiagramGrows(s.heap[p].log.published, InProgress);
  }

  lemma ConnectBeginSeats(s: State, t: State, p: Ptr)
    requires Inv(s) && Conducted(s) && Single(s) && p in s.heap && s.heap[p].log.connects == 0
    requires s.role.Client? && t == DoConnectBegin(s, p)
    ensures SeatsFit(s, t, Takes(p, t.heap[p]))
  {
    hide Inv, Behaves, Conducted, Single, LivePending, LiveConns;
    Unconnected(s, p);
    ConnectBeginBehaves(s, p);
    SameTables(s, t);
    BehavesFreer(t.role, t.heap[p], true, false, Queued(t, p), Seated(t, p));
  }

  lemma ConnectBeginConducts(s: State, p: Ptr)
    requires Inv(s) && Conducts(s) && Can(s, ConnectBegin(p)) && ConnectsOnce(s, ConnectBegin(p))
    requires Inv(Apply(s, ConnectBegin(p)))
    ensures Conducts(Apply(s, ConnectBegin(p)))
  {
    hide Inv, Conducted, Single, Watched, Swept, Ordered, SeatsFit;
    var t := Apply(s, ConnectBegin(p));
    ConnectBeginSeats(s, t, p);
    assert WiredCon(s.heap[p], s.wire, s.out, s.pc);
    TablesSame(s, t);
    FitsConducts(s, t, Takes(p, t.heap[p]));
  }

  lemma ConnectPushConducts(s: State, p: Ptr)
    requires Inv(s) && Conducts(s) && Can(s, ConnectPush(p)) && Inv(Apply(s, ConnectPush(p)))
    ensures Conducts(Apply(s, ConnectPush(p)))
  {
    hide Inv, Conducted, Single, Watched, Swept;
    var t := Apply(s, ConnectPush(p));
    Position(s);
    ConnectPushTables(s, p);
    Appended(LivePending(s), p);
    hide LivePending, LiveConns;
    assert forall q :: Queued(t, q) ==> Queued(s, q);
    WatchedSame(s, t);
    SweptSame(s, t);
    FitsConducts(s, t, Moves);
  }

  lemma AcceptOrdered(s: State)
    requires Inv(s) && Ordered(s) && Can(s, Accept)
    ensures Ordered(Apply(s, Accept))
  {
    hide Inv, Lined, Listed, Awaited;
    AcceptLined(s);
    AcceptAwaited(s);
    if !Shutting(s.pc) { AcceptListed(s); }
  }

  lemma AcceptLined(s: State)
    requires Inv(s) && Lined(s) && Can(s, Accept)
    ensures Lined(Apply(s, Accept))
  {
    hide Inv;
    var t := Apply(s, Accept);
    NamesBelow(s);
    forall i, j | 0 <= i < j < |t.pending| ensures t.heap[t.pending[i]].id < t.heap[t.pending[j]].id {
      assert t.pending[i] == s.pending[i + 1] && t.pending[j] == s.pending[j + 1];
    }
    forall i | 0 <= i < |t.pending| ensures Later(t.handed, t.heap[t.pending[i]].id) {
      assert t.pending[i] == s.pending[i + 1];
      assert Later(s.handed, s.heap[s.pending[i + 1]].id);
    }
  }

  lemma NamesBelow(s: State)
    requires Inv(s)
    ensures forall p :: p in s.heap ==> s.heap[p].id < s.nextId
  {
  }

  lemma AcceptListed(s: State)
    requires Inv(s) && Listed(s) && Can(s, Accept)
    ensures Listed(Apply(s, Accept))
  {
  }

  lemma AcceptAwaited(s: State)
    requires Inv(s) && Lined(s) && Awaited(s) && Can(s, Accept) && (!Shutting(s.pc) ==> Listed(s))
    ensures Awaited(Apply(s, Accept))
  {
    hide Inv;
    var t := Apply(s, Accept);
    if s.pc.Publishing? {
      Position(s);
      var k :| 0 <= k < |s.conns| && s.conns[k] == s.pending[0];
      assert s.heap[s.pending[0]].id < s.heap[s.pc.con].id;
    }
  }

  lemma AcceptConducts(s: State)
    requires Inv(s) && Conducts(s) && Can(s, Accept) && Inv(Apply(s, Accept))
    ensures Conducts(Apply(s, Accept))
  {
    hide Inv, Conducted, Single, Watched, Swept, Ordered;
    var t := Apply(s, Accept);
    Position(s);
    assert LivePending(s) == [s.pending[0]] + LivePending(t) && LiveConns(t) == LiveConns(s);
    WatchedSame(s, t);
    SweptSame(s, t);
    AcceptOrdered(s);
    FitsConducts(s, t, Moves);
  }

  // ---------------------------------------------------------------- steps that only move the loop

  /** Only the loop position changes, and m_new_connections with it at the end of an adoption. */
  lemma PcConducts(s: State, t: State)
    requires Inv(s) && Conducts(s) && t.role == s.role && t.heap == s.heap && t.connecting == s.connecting
    requires t.nextId == s.nextId && t.wire == s.wire && t.out == s.out
    requires LivePending(t) == LivePending(s) && LiveConns(t) == LiveConns(s)
    requires !s.pc.Storing? && !t.pc.Storing?
    requires Watched(t) && Swept(t) && Ordered(t)
    ensures Conducts(t)
  {
    hide Inv, Conducted, Single, Wired, Watched, Swept, Ordered, LivePending, LiveConns;
    assert forall q :: Queued(t, q) == Queued(s, q) && Seated(t, q) == Seated(s, q);
    assert forall q :: Places(t, q) == Places(s, q);
    FitsConducts(s, t, Moves);
  }

  /** What the position-only steps leave alone. */
  predicate MovedOn(s: State, t: State) {
    && t == s.(pc := t.pc, pending := t.pending)
    && !s.pc.Storing? && !t.pc.Storing? && !t.pc.Publishing? && !t.pc.Retiring?
    && (Shutting(s.pc) ==> Shutting(t.pc))
  }

  lemma MovesLeave(s: State, a: Step)
    requires OnlyMoves(a) && Can(s, a) && !a.Incoming?
    ensures var t := Apply(s, a);
      && t.role == s.role && t.heap == s.heap && t.conns == s.conns && t.connecting == s.connecting
      && t.nextId == s.nextId && t.wire == s.wire && t.out == s.out
      && t.polled == s.polled && t.handed == s.handed
      && !s.pc.Storing? && !t.pc.Storing? && !t.pc.Publishing? && !t.pc.Retiring?
      && (Shutting(s.pc) ==> Shutting(t.pc))
      && (a.AdoptEnd? || t.pending == s.pending)
  {
    hide Can, Apply;
    if a.CloseOne? { CloseOneLeaves(s); }
    else if a.StopBegin? || a.ShutPendingEnd? || a.ShutConnsEnd? { ShutLeaves(s, a); }
    else { PassLeaves(s, a); }
  }

  lemma CloseOneLeaves(s: State)
    requires Can(s, CloseOne)
    ensures MovedOn(s, Apply(s, CloseOne)) && Apply(s, CloseOne).pending == s.pending
  {
  }

  lemma ShutLeaves(s: State, a: Step)
    requires Can(s, a) && (a.StopBegin? || a.ShutPendingEnd? || a.ShutConnsEnd?)
    ensures MovedOn(s, Apply(s, a)) && Apply(s, a).pending == s.pending
  {
  }

  lemma PassLeaves(s: State, a: Step)
    requires OnlyMoves(a) && Can(s, a) && !a.Incoming? && !a.CloseOne?
    requires !a.StopBegin? && !a.ShutPendingEnd? && !a.ShutConnsEnd?
    ensures MovedOn(s, Apply(s, a)) && (a.AdoptEnd? || Apply(s, a).pending == s.pending)
  {
  }

  lemma MovesSwept(s: State, a: Step)
    requires OnlyMoves(a) && Can(s, a) && !a.Incoming? && !a.CloseOne?
    ensures Swept(Apply(s, a))
  {
    hide Can, Apply, Swept;
    if a.Hangup? { HangupSwept(s, a.fd); }
    else if a.AdoptEnd? || a.SendBegin? || a.SendEnd? { BeginsSwept(s, a); }
    else { IdlesSwept(s, a); }
  }

  lemma BeginsSwept(s: State, a: Step)
    requires Can(s, a) && (a.AdoptEnd? || a.SendBegin? || a.SendEnd?)
    ensures Swept(Apply(s, a))
  {
  }

  lemma IdlesSwept(s: State, a: Step)
    requires OnlyMoves(a) && Can(s, a) && !a.Incoming? && !a.CloseOne? && !a.Hangup?
    requires !a.AdoptEnd? && !a.SendBegin? && !a.SendEnd?
    ensures Swept(Apply(s, a))
  {
  }

  lemma HangupSwept(s: State, fd: int)
    requires Can(s, Hangup(fd))
    ensures Swept(Apply(s, Hangup(fd)))
  {
  }

  /** The entry before index k is the only one that carries its descriptor among the first k. */
  lemma EntrySpares(s: State, t: State, k: nat)
    requires Inv(s) && Single(s) && !Shutting(s.pc) && k < |s.conns| && AllIn(s.heap, s.conns)
    requires s.heap[s.conns[k]].fd >= 0 && t.conns == s.conns && t.heap == s.heap
    ensures Spared(t, k, s.heap[s.conns[k]].fd)
  {
    hide Inv, Single;
    ConnsPresent(s);
    SeatsDistinct(s);
    forall j | 0 <= j < k ensures s.heap[s.conns[j]].fd != s.heap[s.conns[k]].fd {
      FdsDistinct(s, s.conns[k], s.conns[j]);
    }
  }

  lemma SeatedFd(s: State, k: nat)
    requires Inv(s) && Conducted(s) && !Shutting(s.pc) && k < |s.conns|
    ensures s.conns[k] in s.heap && s.heap[s.conns[k]].fd >= 0 && Seated(s, s.conns[k])
  {
    hide Inv;
    ConnsPresent(s);
    assert s.conns[k] in s.conns;
  }

  lemma CloseOneSwept(s: State)
    requires Inv(s) && Conducted(s) && Single(s) && Swept(s) && Can(s, CloseOne)
    ensures Swept(Apply(s, CloseOne))
  {
    hide Inv, Conducted, Single, Spared;
    var k := s.pc.left - 1;
    SeatedFd(s, k);
    ConnsPresent(s);
    var t := Apply(s, CloseOne);
    EntrySpares(s, t, k);
    var back := Closing(k, s.pc.orig);
    assert Left(back) == k && Orig(back) == s.pc.orig;
    assert Left(t.pc) == k && Orig(t.pc) == s.pc.orig;
  }

  lemma MovesOrdered(s: State, a: Step)
    requires Inv(s) && Ordered(s) && OnlyMoves(a) && Can(s, a) && !a.Incoming? && Inv(Apply(s, a))
    ensures Ordered(Apply(s, a))
  {
    hide Inv, Ordered, Can, Apply;
    MovesLeave(s, a);
    if a.AdoptEnd? {
      AdoptIsClient(s);
    } else {
      OrderedSame(s, Apply(s, a));
    }
  }

  lemma AdoptIsClient(s: State)
    requires Inv(s) && Can(s, AdoptEnd)
    ensures s.role.Client? && Ordered(Apply(s, AdoptEnd))
  {
    hide Counted, Named, Mastered, Accounted;
  }

  lemma MovesConducts(s: State, a: Step)
    requires Inv(s) && Conducts(s) && Can(s, a) && OnlyMoves(a) && !a.Incoming? && Inv(Apply(s, a))
    ensures Conducts(Apply(s, a))
  {
    hide Inv, Conducted, Single, Wired, Watched, Swept, Ordered, LivePending, LiveConns, Can, Apply;
    MovesLeave(s, a);
    Position(s);
    MovesTables(s, a);
    WatchedSame(s, Apply(s, a));
    if a.CloseOne? { CloseOneSwept(s); } else { MovesSwept(s, a); }
    MovesOrdered(s, a);
    PcConducts(s, Apply(s, a));
  }

  // ---------------------------------------------------------------- received bytes

  lemma IncomingWired(s: State, fd: int, chunk: seq<byte>)
    requires Wired(s) && Can(s, Incoming(fd, chunk))
    ensures Wired(Apply(s, Incoming(fd, chunk)))
  {
    var t := Apply(s, Incoming(fd, chunk));
    forall p | p in t.heap ensures WiredCon(t.heap[p], t.wire, t.out, t.pc) {
      assert WiredCon(s.heap[p], s.wire, s.out, s.pc);
      var c := s.heap[p];
      assert c.log.delivered + c.inQ.items + [] + chunk == c.log.delivered + c.inQ.items + chunk;
    }
  }

  /** Tables, counts and names as they were. */
  predicate SameBooks(s: State, t: State) {
    && t.role == s.role && t.conns == s.conns && t.pending == s.pending && t.connecting == s.connecting
    && t.handles == s.handles && t.nextId == s.nextId && t.handed == s.handed
  }

  lemma IncomingLeaves(s: State, fd: int, chunk: seq<byte>)
    requires Can(s, Incoming(fd, chunk))
    ensures var t := Apply(s, Incoming(fd, chunk));
      && SameBooks(s, t) && t.heap == s.heap && Running(s.pc) && Running(t.pc)
      && !t.pc.Publishing? && !t.pc.Retiring? && !t.pc.Unlinking? && Left(t.pc) == 0
  {
  }

  lemma IncomingConducts(s: State, fd: int, chunk: seq<byte>)
    requires Inv(s) && Conducts(s) && Can(s, Incoming(fd, chunk)) && Inv(Apply(s, Incoming(fd, chunk)))
    ensures Conducts(Apply(s, Incoming(fd, chunk)))
  {
    hide Inv, Conducted, Single, Wired, Watched, Ordered, Can, Apply;
    var t := Apply(s, Incoming(fd, chunk));
    IncomingLeaves(s, fd, chunk);
    RunningTables(s);
    RunningTables(t);
    ConductedFits(s, t, Moves);
    SingleFits(s, t, Moves);
    IncomingWired(s, fd, chunk);
    SweptIdle(t);
    IncomingWatched(s, fd, chunk);
    OrderedSame(s, t);
  }

  lemma IncomingWatched(s: State, fd: int, chunk: seq<byte>)
    requires Watched(s) && Can(s, Incoming(fd, chunk))
    ensures Watched(Apply(s, Incoming(fd, chunk)))
  {
    hide Carried;
    var t := Apply(s, Incoming(fd, chunk));
    forall g | g in t.polled ensures Carried(t, g) {
      assert Carried(s, g);
      CarriedSame(s, t, g);
    }
  }

  lemma CarriedSame(s: State, t: State, fd: int)
    requires Carried(s, fd) && t.conns == s.conns && t.heap == s.heap
    ensures Carried(t, fd)
  {
    var i :| 0 <= i < |s.conns| && s.conns[i] in s.heap && s.heap[s.conns[i]].fd == fd;
    assert t.conns[i] in t.heap;
  }

  /** Epoll reported the descriptor, so an entry carries it: the chunk has somewhere to go. */
  lemma ChunkHasTarget(s: State)
    requires Inv(s) && Watched(s) && s.pc.Storing? && AllIn(s.heap, s.conns)
    ensures FindFd(s.heap, s.conns, s.pc.fd) < |s.conns|
  {
    assert Carried(s, s.pc.fd);
  }

  lemma StoreSeats(s: State, t: State, p: Ptr, c: Con)
    requires Inv(s) && Conducted(s) && Single(s) && p in s.heap && Seated(s, p)
    requires Running(s.pc) && Running(t.pc) && t.role == s.role && t.conns == s.conns && t.pending == s.pending
    requires t.connecting == s.connecting && t.handles == s.handles
    requires c.fd == s.heap[p].fd && (c.state == s.heap[p].state || c.state == Established)
    requires c.log.connects == s.heap[p].log.connects && OnDiagram(c.log.published)
    ensures SeatsFit(s, t, Changes(p, c))
  {
    hide Inv, Conducted, Single, OnDiagram;
    RunningTables(s);
    RunningTables(t);
    SeatedBehaves(s, p);
    PlacesOnce(s, p);
    if s.role.Client? { SeatedNotQueued(s, p); }
  }

  lemma PlacesOnce(s: State, p: Ptr)
    requires Single(s) && p in s.heap
    ensures Places(s, p) <= s.heap[p].log.connects <= 1
  {
  }

  lemma StoreLeaves(s: State, i: nat)
    requires Can(s, Store) && i == FindFd(s.heap, s.conns, s.pc.fd) < |s.conns|
    ensures var t, p := Apply(s, Store), s.conns[i];
      && SameBooks(s, t) && Running(s.pc) && Running(t.pc) && t.pc.Events? && t.polled == s.polled
      && p in s.heap && t.heap == s.heap[p := s.heap[p].(inQ := s.heap[p].inQ.Enqueue(s.pc.chunk))]
      && t.wire == s.wire && t.out == s.out
  {
  }

  lemma StoreConducts(s: State)
    requires Inv(s) && Conducts(s) && Can(s, Store) && Inv(Apply(s, Store))
    ensures Conducts(Apply(s, Store))
  {
    hide Inv, Conducted, Single, Wired, Watched, Swept, Ordered, SeatsFit, WireFit, OnDiagram, Apply;
    var t := Apply(s, Store);
    ChunkHasTarget(s);
    var i := FindFd(s.heap, s.conns, s.pc.fd);
    var p := s.conns[i];
    hide Can;
    StoreLeaves(s, i);
    SeatedFd(s, i);
    SeatedBehaves(s, p);
    StoreSeats(s, t, p, t.heap[p]);
    StoreWire(s, t, p);
    WatchedSame(s, t);
    SweptIdle(t);
    OrderedSame(s, t);
    FitsConducts(s, t, Changes(p, t.heap[p]));
  }

  lemma StoreWire(s: State, t: State, p: Ptr)
    requires Inv(s) && Wired(s) && s.pc.Storing? && p in s.heap && s.heap[p].fd == s.pc.fd >= 0
    requires t.wire == s.wire && t.out == s.out && t.pc == Events
    requires p in t.heap && t.heap[p] == s.heap[p].(inQ := s.heap[p].inQ.Enqueue(s.pc.chunk))
    ensures WireFit(s, t, Changes(p, t.heap[p]))
  {
    hide Inv;
    var c := s.heap[p];
    assert WiredCon(c, s.wire, s.out, s.pc);
    assert c.log.delivered + (c.inQ.items + s.pc.chunk) + [] == c.log.delivered + c.inQ.items + s.pc.chunk;
    forall q | q in s.heap && s.heap[q].fd >= 0 && q != p ensures s.heap[q].fd != s.pc.fd { FdsDistinct(s, p, q); }
  }
}
