/** The steps of the loop that change the tables keep Conduct's invariant; then whole polite runs. */
module ConductLoop {
  import opened Vectors
  import opened Connections
  import opened EventLoop
  import opened Ownership
  import opened Conduct
  import opened ConductSteps

  // ---------------------------------------------------------------- adopting a new connection

  /** What try_connect_to_peer makes of a connection that waits for it. */
  lemma TryConnectBehaves(c: Con, r: Attempt)
    requires OnDiagram(c.log.published) && c.log.published[|c.log.published| - 1] == c.state == InProgress
    requires c.log.connects == 1
    ensures var d := TryConnect(c, r);
      && OnDiagram(d.log.published) && d.log.connects == 1
      && (d.state == Failed ==> d.fd == -1)
      && (d.state != Failed ==> r.UnderWay? || r.Connected?)
      && (d.state != Failed ==> d.fd == r.fd && (d.state == Established || d.state == InProgress))
      && d.log.sent == c.log.sent && d.log.delivered == c.log.delivered && d.inQ == c.inQ
  {
    hide OnDiagram;
    var b := c.log.published;
    DiagramGrows(b, InProgress);
    var b1 := b + [InProgress];
    DiagramGrows(b1, Failed);
    DiagramGrows(b1, Established);
    DiagramGrows(b1 + [Established], Failed);
  }

  lemma AdoptingOne(s: State, p: Ptr)
    requires Inv(s) && Conducted(s) && Single(s) && s.role.Client? && p in s.heap && p in LivePending(s)
    ensures OnDiagram(s.heap[p].log.published) && s.heap[p].state == InProgress && Quiet(s.heap[p])
    ensures s.heap[p].log.published[|s.heap[p].log.published| - 1] == InProgress
    ensures s.heap[p].log.connects == 1 && !Seated(s, p) && p !in s.connecting && multiset(LivePending(s))[p] == 1
  {
    hide Inv;
    Owed(s, p);
    QueuedOnce(s, p);
    assert p in multiset(LivePending(s));
  }

  lemma AdoptSeats(s: State, t: State, p: Ptr)
    requires s.role.Client? && t.role == s.role && t.connecting == s.connecting
    requires LivePending(s) == [p] + LivePending(t) && multiset(LivePending(s))[p] == 1
    requires LiveConns(t) == LiveConns(s) || LiveConns(t) == LiveConns(s) + [p]
    ensures p !in LivePending(t)
    ensures forall q :: q != p ==>
      (Queued(t, q) ==> Queued(s, q)) && (Seated(t, q) ==> Seated(s, q)) && Places(t, q) <= Places(s, q)
    ensures Places(t, p) <= Places(s, p)
  {
    assert multiset(LivePending(s)) == multiset{p} + multiset(LivePending(t));
    assert p in LivePending(t) ==> p in multiset(LivePending(t));
  }

  /** The step from s to t gave p, first of the waiting, the attempt r and made it c. */
  ghost predicate Adoption(s: State, t: State, p: Ptr, c: Con, r: Attempt) {
    && s.role.Client? && t.role == s.role && t.connecting == s.connecting
    && t.nextId == s.nextId && s.pc.Adopting? && t.pc.Adopting?
    && LivePending(s) == [p] + LivePending(t) && LiveConns(s) == s.conns && LiveConns(t) == t.conns
    && Held(s, p) && c == TryConnect(s.heap[p], r) && (r.NoSocket? || NewFd(s, r.fd))
  }

  ghost predicate Rejected(s: State, t: State, p: Ptr, c: Con) {
    && c.state == Failed && p in s.heap && c.refs > 0 && t.heap == Release(s.heap[p := c], p)
    && t.conns == s.conns && t.polled == s.polled && t.wire == s.wire && t.out == s.out
  }

  ghost predicate Adopted(s: State, t: State, p: Ptr, c: Con) {
    && c.state != Failed && t.heap == s.heap[p := c] && t.conns == s.conns + [p]
    && t.polled == s.polled + {c.fd} && t.wire == s.wire[c.fd := []] && t.out == s.out[c.fd := []]
  }

  lemma AdoptFacts(s: State, r: Attempt) returns (p: Ptr, c: Con)
    requires Inv(s) && Can(s, AdoptOne(r))
    ensures Adoption(s, Apply(s, AdoptOne(r)), p, c, r)
    ensures Rejected(s, Apply(s, AdoptOne(r)), p, c) || Adopted(s, Apply(s, AdoptOne(r)), p, c)
  {
    hide Inv;
    p := s.pending[s.pc.next];
    c := TryConnect(s.heap[p], r);
    AdoptIsClient(s, r);
    AdoptOneTables(s, Apply(s, AdoptOne(r)));
  }

  lemma AdoptIsClient(s: State, r: Attempt)
    requires Inv(s) && Can(s, AdoptOne(r))
    ensures s.role.Client?
  {
    hide Counted, Named, Mastered, Accounted;
  }

  lemma NoLonger(s: State, t: State, p: Ptr)
    requires t.connecting == s.connecting && p !in s.connecting && p !in LivePending(t)
    requires LiveConns(t) == LiveConns(s) ==> !Seated(s, p)
    ensures !Queued(t, p) && (LiveConns(t) == LiveConns(s) ==> !Seated(t, p))
  {
  }

  /** The attempt leaves the connection fit for its new place. */
  lemma AdoptSeatsFit(s: State, t: State, p: Ptr, c: Con, r: Attempt, e: Effect)
    requires Inv(s) && Conducted(s) && Single(s) && Adoption(s, t, p, c, r)
    requires Rejected(s, t, p, c) || Adopted(s, t, p, c)
    requires e == Changes(p, c) || e == Releases(p, c)
    ensures SeatsFit(s, t, e)
  {
    hide Inv, Conducted, Single, OnDiagram, TryConnect, Queued, Seated, Places, Release;
    AdoptingOne(s, p);
    TryConnectBehaves(s.heap[p], r);
    AdoptSeats(s, t, p);
    PlacesOnce(s, p);
    NoLonger(s, t, p);
  }

  lemma RejectedParts(s: State, t: State, p: Ptr, c: Con, r: Attempt)
    requires Adoption(s, t, p, c, r) && Rejected(s, t, p, c)
    ensures HeapFits(s, t, Releases(p, c)) && WireFit(s, t, Releases(p, c)) && SameNamesBut(s.heap, t.heap, p)
  {
    TryKeepsName(s.heap[p], r);
    hide TryConnect, LivePending, LiveConns;
  }

  lemma TryKeepsName(c: Con, r: Attempt)
    ensures var d := TryConnect(c, r);
      && d.id == c.id && d.master == c.master && d.refs == c.refs && (d.state == Failed ==> d.fd == -1)
      && (d.state != Failed ==> !r.NoSocket? && d.fd == r.fd)
  {
  }

  lemma RejectedConducts(s: State, t: State, p: Ptr, c: Con, r: Attempt)
    requires Inv(s) && Conducts(s) && Adoption(s, t, p, c, r) && Rejected(s, t, p, c)
    ensures Conducts(t)
  {
    hide Inv, Conducted, Single, Wired, Watched, Swept, SeatsFit, OnDiagram, HeapFits, WireFit, SameNamesBut;
    hide Release, TryConnect;
    AdoptSeatsFit(s, t, p, c, r, Releases(p, c));
    RejectedParts(s, t, p, c, r);
    AdoptingWatched(s, t, p);
    SweptIdle(t);
    FitsConducts(s, t, Releases(p, c));
  }

  ghost predicate SameNamesBut(h: Heap, k: Heap, p: Ptr) {
    forall q :: q in h && q != p ==> q in k && k[q].id == h[q].id && k[q].fd == h[q].fd
  }

  lemma AdoptingWatched(s: State, t: State, p: Ptr)
    requires Inv(s) && Conducted(s) && Single(s) && Watched(s) && s.pc.Adopting? && t.pc.Adopting? && s.role.Client?
    requires p in s.heap && p in LivePending(s) && SameNamesBut(s.heap, t.heap, p)
    requires |s.conns| <= |t.conns| && t.conns[..|s.conns|] == s.conns
    requires forall fd :: fd in t.polled ==> fd in s.polled || Carried(t, fd)
    ensures Watched(t)
  {
    hide Inv, Conducted, Single;
    QueuedOnce(s, p);
    forall fd | fd in t.polled ensures Carried(t, fd) {
      if fd in s.polled {
        assert Carried(s, fd);
        var i :| 0 <= i < |s.conns| && s.conns[i] in s.heap && s.heap[s.conns[i]].fd == fd;
        assert s.conns[i] in LiveConns(s);
        assert t.conns[i] == s.conns[i];
      }
    }
  }

  /** A new descriptor with empty streams, for a connection that has moved nothing. */
  lemma FreshWire(s: State, t: State, p: Ptr, c: Con)
    requires c.fd >= 0 && (forall q :: q in s.heap ==> s.heap[q].fd != c.fd) && Quiet(c)
    requires t.wire == s.wire[c.fd := []] && t.out == s.out[c.fd := []] && !s.pc.Storing? && !t.pc.Storing?
    ensures WireFit(s, t, Changes(p, c))
  {
  }

  lemma AdoptedWire(s: State, t: State, p: Ptr, c: Con, r: Attempt)
    requires Inv(s) && Conducted(s) && Single(s) && Adoption(s, t, p, c, r) && Adopted(s, t, p, c)
    ensures WireFit(s, t, Changes(p, c)) && c.fd >= 0 && forall q :: q in s.heap ==> s.heap[q].fd != c.fd
  {
    hide Inv, Conducted, Single, OnDiagram, Queued, Seated, Places, TryConnect, LivePending, LiveConns, WireFit;
    AdoptingOne(s, p);
    TryConnectBehaves(s.heap[p], r);
    FreshWire(s, t, p, c);
  }

  lemma AdoptedConducts(s: State, t: State, p: Ptr, c: Con, r: Attempt)
    requires Inv(s) && Conducts(s) && Adoption(s, t, p, c, r) && Adopted(s, t, p, c)
    ensures Conducts(t)
  {
    hide Inv, Conducted, Single, Wired, Watched, Swept, SeatsFit, WireFit, OnDiagram;
    AdoptSeatsFit(s, t, p, c, r, Changes(p, c));
    AdoptedWire(s, t, p, c, r);
    assert t.conns[|s.conns|] == p;
    AdoptingWatched(s, t, p);
    SweptIdle(t);
    FitsConducts(s, t, Changes(p, c));
  }

  lemma AdoptConducts(s: State, r: Attempt)
    requires Inv(s) && Conducts(s) && Can(s, AdoptOne(r))
    ensures Conducts(Apply(s, AdoptOne(r)))
  {
    hide Inv, Conducts, Can, Apply, Adoption, Rejected, Adopted;
    var p, c := AdoptFacts(s, r);
    var t := Apply(s, AdoptOne(r));
    if Rejected(s, t, p, c) { RejectedConducts(s, t, p, c, r); } else { AdoptedConducts(s, t, p, c, r); }
  }

  // ---------------------------------------------------------------- sending

  /** Only the loop position moved, to t.pc. */
  predicate Stays(s: State, t: State) { t == s.(pc := t.pc) }

  /** A sweep step that only moves the loop: past entry k, or to closing it. */
  lemma SweepMoved(s: State, t: State, k: nat)
    requires Inv(s) && Inv(t) && Conducts(s) && Stays(s, t)
    requires (s.pc.Sending? || s.pc.Closing?) && k + 1 == Left(s.pc) && k < |s.conns|
    requires Left(t.pc) == k && Orig(t.pc) == Orig(s.pc)
    requires t.pc.Sending? || t.pc.Closing?
         || (t.pc.Unlinking? && s.conns[k] in s.heap && t.pc.fd == s.heap[s.conns[k]].fd)
    ensures Conducts(t)
  {
    hide Inv, Conducted, Single, Wired, Watched, Ordered;
    ConnsPresent(s);
    SeatedFd(s, k);
    EntrySpares(s, t, k);
    assert Running(s.pc) && Running(t.pc);
    RunningTables(s);
    RunningTables(t);
    WatchedSame(s, t);
    OrderedSame(s, t);
    PcConducts(s, t);
  }

  /** s.conns[k] is p; n bytes of its queue were accepted by the kernel. */
  ghost predicate SentSome(s: State, t: State, k: nat, p: Ptr, n: nat) {
    && s.pc.Sending? && s.pc.left == k + 1 && k < |s.conns| && s.conns[k] == p && p in s.heap
    && s.heap[p].state == Established && n <= |s.heap[p].outQ.items|
    && var c := s.heap[p];
       var bytes := c.outQ.items[..n];
       t == s.(heap := s.heap[p := c.(log := c.log.(sent := c.log.sent + bytes))],
               out := s.out[c.fd := Get(s.out, c.fd) + bytes], pc := Popping(p, n, k, s.pc.orig))
  }

  lemma SendFacts(s: State, r: SendResult) returns (k: nat)
    requires Inv(s) && Can(s, SendOne(r))
    ensures var t := Apply(s, SendOne(r));
      && s.pc.Sending? && k + 1 == s.pc.left && k < |s.conns|
      && (SentSome(s, t, k, s.conns[k], if r.Accepted? then r.n else 0)
          || (Stays(s, t) && Left(t.pc) == k && Orig(t.pc) == Orig(s.pc)
              && (t.pc.Sending? || (t.pc.Unlinking? && s.conns[k] in s.heap && t.pc.fd == s.heap[s.conns[k]].fd))))
  {
    hide Inv;
    k := s.pc.left - 1;
    if r.Accepted? && Sendable(s, k) { SendTaken(s, r, k); } else { hide SentSome; SendMovesOn(s, r, k); }
  }

  lemma SendTaken(s: State, r: SendResult, k: nat)
    requires Can(s, SendOne(r)) && k + 1 == s.pc.left && r.Accepted? && Sendable(s, k)
    ensures SentSome(s, Apply(s, SendOne(r)), k, s.conns[k], r.n)
  {
    hide FindId;
  }

  lemma SendDeclined(s: State, r: SendResult, k: nat)
    requires Can(s, SendOne(r)) && k + 1 == s.pc.left && !(r.Accepted? && Sendable(s, k))
    ensures k < |s.conns| && s.conns[k] in s.heap
    ensures var t, back := Apply(s, SendOne(r)), Sending(k, s.pc.orig);
      Stays(s, t) && (t.pc == back || t.pc == Unlinking(s.heap[s.conns[k]].fd, back))
  {
    hide Sendable;
  }

  lemma SendMovesOn(s: State, r: SendResult, k: nat)
    requires Can(s, SendOne(r)) && k + 1 == s.pc.left && !(r.Accepted? && Sendable(s, k))
    ensures k < |s.conns|
    ensures var t := Apply(s, SendOne(r));
      && Stays(s, t) && Left(t.pc) == k && Orig(t.pc) == Orig(s.pc)
      && (t.pc.Sending? || (t.pc.Unlinking? && s.conns[k] in s.heap && t.pc.fd == s.heap[s.conns[k]].fd))
  {
    SendDeclined(s, r, k);
    hide Can, Apply, Sendable;
    var t, back := Apply(s, SendOne(r)), Sending(k, s.pc.orig);
    assert Left(back) == k && Orig(back) == s.pc.orig;
    assert Left(t.pc) == k && Orig(t.pc) == s.pc.orig;
  }

  lemma SentWire(s: State, t: State, k: nat, p: Ptr, n: nat)
    requires Inv(s) && Wired(s) && SentSome(s, t, k, p, n) && s.heap[p].fd >= 0
    ensures WireFit(s, t, Changes(p, t.heap[p]))
  {
    hide Inv;
    assert WiredCon(s.heap[p], s.wire, s.out, s.pc);
    forall q | q in s.heap && s.heap[q].fd >= 0 && q != p ensures s.heap[q].fd != s.heap[p].fd { FdsDistinct(s, p, q); }
  }

  lemma SentConducts(s: State, t: State, k: nat, p: Ptr, n: nat)
    requires Inv(s) && Inv(t) && Conducts(s) && SentSome(s, t, k, p, n)
    ensures Conducts(t)
  {
    hide Inv, Conducted, Single, Wired, Watched, Ordered, OnDiagram, SeatsFit, WireFit;
    SeatedFd(s, k);
    SeatedBehaves(s, p);
    StoreSeats(s, t, p, t.heap[p]);
    SentWire(s, t, k, p, n);
    WatchedSame(s, t);
    OrderedSame(s, t);
    FitsConducts(s, t, Changes(p, t.heap[p]));
  }

  lemma SendConducts(s: State, r: SendResult)
    requires Inv(s) && Conducts(s) && Can(s, SendOne(r)) && Inv(Apply(s, SendOne(r)))
    ensures Conducts(Apply(s, SendOne(r)))
  {
    hide Inv, Conducts, Can, Apply, SentSome;
    var t := Apply(s, SendOne(r));
    var k := SendFacts(s, r);
    var n := if r.Accepted? then r.n else 0;
    if SentSome(s, t, k, s.conns[k], n) { SentConducts(s, t, k, s.conns[k], n); } else { SweepMoved(s, t, k); }
  }

  /** t is s after entry i, connection p, became c in the same place. */
  ghost predicate Reworked(s: State, t: State, i: nat, p: Ptr, c: Con) {
    && i < |s.conns| && s.conns[i] == p && p in s.heap
    && t == s.(heap := s.heap[p := c], pc := t.pc) && Running(s.pc) && Running(t.pc)
    && !s.pc.Storing? && !t.pc.Storing? && !t.pc.Publishing? && !t.pc.Retiring?
    && c.id == s.heap[p].id && c.fd == s.heap[p].fd && c.refs == s.heap[p].refs && c.master == s.heap[p].master
    && c.log.connects == s.heap[p].log.connects && (c.state == s.heap[p].state || c.state == Established)
    && c.log.sent == s.heap[p].log.sent && c.log.delivered == s.heap[p].log.delivered && c.inQ == s.heap[p].inQ
  }

  lemma ReworkedConducts(s: State, t: State, i: nat, p: Ptr, c: Con)
    requires Inv(s) && Inv(t) && Conducts(s) && Reworked(s, t, i, p, c) && OnDiagram(c.log.published) && Swept(t)
    ensures Conducts(t)
  {
    hide Inv, Conducted, Single, Watched, Swept, Ordered, OnDiagram, SeatsFit;
    SeatedFd(s, i);
    StoreSeats(s, t, p, c);
    assert WiredCon(s.heap[p], s.wire, s.out, s.pc);
    WatchedSame(s, t);
    OrderedSame(s, t);
    FitsConducts(s, t, Changes(p, c));
  }

  lemma PopFacts(s: State) returns (p: Ptr, c: Con)
    requires Inv(s) && Can(s, Pop)
    ensures var t := Apply(s, Pop);
      && s.pc.Popping? && Reworked(s, t, s.pc.left, p, c) && c.log.published == s.heap[p].log.published
      && t.pc == Sending(s.pc.left, s.pc.orig)
  {
    hide Inv;
    Position(s);
    p := s.pc.con;
    c := s.heap[p].(outQ := s.heap[p].outQ.Dequeue(s.pc.count));
  }

  lemma PopConducts(s: State)
    requires Inv(s) && Conducts(s) && Can(s, Pop) && Inv(Apply(s, Pop))
    ensures Conducts(Apply(s, Pop))
  {
    hide Inv, Single, Wired, Watched, Ordered, Can, Apply, OnDiagram;
    var t := Apply(s, Pop);
    var p, c := PopFacts(s);
    assert OnDiagram(c.log.published);
    assert Swept(t);
    hide Swept, Conducted, Reworked;
    ReworkedConducts(s, t, s.pc.left, p, c);
  }

  // ---------------------------------------------------------------- writability and hang-up

  lemma WritableFacts(s: State, fd: int, ok: bool)
    requires Inv(s) && Can(s, Writable(fd, ok))
    ensures var t := Apply(s, Writable(fd, ok));
      && AllIn(s.heap, s.conns) && s.pc.Events? && fd >= 0
      && var i := FindFd(s.heap, s.conns, fd);
         if i < |s.conns| && ok then
           Reworked(s, t, i, s.conns[i], s.heap[s.conns[i]].Publish(Established)) && t.pc == s.pc
         else
           Stays(s, t) && (t.pc.Events? || (t.pc.Unlinking? && t.pc.back.Events? && t.pc.fd == fd))
  {
    hide Inv;
  }

  /** Outside the sweeps the loop turns to closing a descriptor, or to nothing. */
  lemma EventsMoved(s: State, t: State)
    requires Inv(s) && Inv(t) && Conducts(s) && Stays(s, t) && s.pc.Events?
    requires t.pc.Events? || (t.pc.Unlinking? && t.pc.back.Events? && t.pc.fd >= 0)
    ensures Conducts(t)
  {
    hide Inv, Conducted, Single, Wired, Watched, Ordered;
    RunningTables(s);
    RunningTables(t);
    WatchedSame(s, t);
    OrderedSame(s, t);
    PcConducts(s, t);
  }

  lemma WritableConducts(s: State, fd: int, ok: bool)
    requires Inv(s) && Conducts(s) && Can(s, Writable(fd, ok)) && Inv(Apply(s, Writable(fd, ok)))
    ensures Conducts(Apply(s, Writable(fd, ok)))
  {
    hide Inv, Can, Apply, OnDiagram, Conducted, Single, Wired, Watched, Swept, Ordered;
    var t := Apply(s, Writable(fd, ok));
    WritableFacts(s, fd, ok);
    var i := FindFd(s.heap, s.conns, fd);
    if i < |s.conns| && ok {
      var p := s.conns[i];
      SeatedFd(s, i);
      SeatedBehaves(s, p);
      Owed(s, p);
      DiagramGrows(s.heap[p].log.published, Established);
      SweptIdle(t);
      ReworkedConducts(s, t, i, p, s.heap[p].Publish(Established));
    } else {
      EventsMoved(s, t);
    }
  }

  // ---------------------------------------------------------------- arrivals on the server

  ghost predicate Arrived(s: State, t: State, p: Ptr, fd: int, c: Con) {
    && s.role.Server? && s.pc.Events? && p !in s.heap && NewFd(s, fd)
    && c == NewCon(s.nextId, fd, s.me, Established, 1)
    && t == s.(heap := s.heap[p := c], nextId := s.nextId + 1, conns := s.conns + [p], pc := Publishing(p),
               polled := s.polled + {fd}, wire := s.wire[fd := []], out := s.out[fd := []])
  }

  lemma ArriveFacts(s: State, p: Ptr, fd: int)
    requires Can(s, Arrive(p, fd))
    ensures Arrived(s, Apply(s, Arrive(p, fd)), p, fd, NewCon(s.nextId, fd, s.me, Established, 1))
  {
  }

  lemma ArrivedWatched(s: State, t: State, p: Ptr, fd: int, c: Con)
    requires Inv(s) && Watched(s) && Arrived(s, t, p, fd, c)
    ensures Watched(t)
  {
    hide Inv;
    ConnsPresent(s);
    forall g | g in t.polled ensures Carried(t, g) {
      if g in s.polled {
        assert Carried(s, g);
        var i :| 0 <= i < |s.conns| && s.conns[i] in s.heap && s.heap[s.conns[i]].fd == g;
        assert t.conns[i] == s.conns[i];
      } else {
        assert t.conns[|s.conns|] == p;
      }
    }
  }

  lemma ArrivedOrdered(s: State, t: State, p: Ptr, fd: int, c: Con)
    requires Inv(s) && Ordered(s) && Arrived(s, t, p, fd, c)
    ensures Ordered(t)
  {
    hide Inv;
    ServerPending(s);
    ConnsPresent(s);
    NamesBelow(s);
    assert Lined(t);
    assert Listed(t);
    assert Awaited(t) by { assert p !in s.pending; }
  }

  lemma ArrivedPlaces(s: State, t: State, p: Ptr)
    requires s.role.Server? && t.role.Server? && Running(s.pc) && Running(t.pc)
    requires t.conns == s.conns + [p] && t.pending == s.pending && t.connecting == s.connecting
    ensures forall q :: (Queued(t, q) ==> Queued(s, q)) && (q != p ==> Seated(t, q) ==> Seated(s, q))
    ensures forall q :: q != p ==> Places(t, q) <= Places(s, q)
    ensures Places(t, p) == Places(s, p) + 1
  {
    RunningTables(s);
    RunningTables(t);
    Appended(s.conns, p);
    hide LivePending, LiveConns;
  }

  lemma NewBehaves(id: nat, fd: int, me: int, seated: bool)
    requires fd >= 0
    ensures Behaves(Server, NewCon(id, fd, me, Established, 1), false, seated)
  {
  }

  lemma ArrivedSeats(s: State, t: State, p: Ptr, fd: int, c: Con)
    requires Inv(s) && Arrived(s, t, p, fd, c)
    ensures SeatsFit(s, t, Adds(p, c))
  {
    hide Inv, Behaves, Queued, Seated, Places;
    ArrivedPlaces(s, t, p);
    StrangerUnseated(s, p);
    NewBehaves(s.nextId, fd, s.me, Seated(t, p));
  }

  lemma ArriveConducts(s: State, p: Ptr, fd: int)
    requires Inv(s) && Conducts(s) && Can(s, Arrive(p, fd))
    ensures Conducts(Apply(s, Arrive(p, fd)))
  {
    hide Inv, Can, Apply, Conducted, Single, Wired, Watched, Swept, Ordered, SeatsFit, OnDiagram;
    var t, c := Apply(s, Arrive(p, fd)), NewCon(s.nextId, fd, s.me, Established, 1);
    ArriveFacts(s, p, fd);
    ArrivedWatched(s, t, p, fd, c);
    ArrivedOrdered(s, t, p, fd, c);
    ArrivedSeats(s, t, p, fd, c);
    SweptIdle(t);
    FitsConducts(s, t, Adds(p, c));
  }

  ghost predicate Published(s: State, t: State, p: Ptr, c: Con) {
    && s.role.Server? && s.pc == Publishing(p) && p in s.heap && c == s.heap[p].(refs := s.heap[p].refs + 1)
    && |s.conns| > 0 && s.conns[|s.conns| - 1] == p
    && t == s.(heap := s.heap[p := c], pending := s.pending + [p], offered := s.offered + 1, pc := Events)
  }

  lemma PublishFacts(s: State) returns (p: Ptr, c: Con)
    requires Inv(s) && Can(s, Publish)
    ensures Published(s, Apply(s, Publish), p, c)
  {
    hide Inv;
    Position(s);
    p := s.pc.con;
    c := s.heap[p].(refs := s.heap[p].refs + 1);
  }

  lemma PublishedOrdered(s: State, t: State, p: Ptr, c: Con)
    requires Inv(s) && Ordered(s) && Published(s, t, p, c)
    ensures Ordered(t)
  {
    hide Inv;
    ServerPending(s);
    forall i | 0 <= i < |s.pending| ensures s.heap[s.pending[i]].id < s.heap[p].id {
      var k :| 0 <= k < |s.conns| && s.conns[k] == s.pending[i];
      assert k < |s.conns| - 1;
    }
    assert Lined(t);
    assert Listed(t);
  }

  lemma PublishedSeats(s: State, t: State, p: Ptr, c: Con)
    requires Inv(s) && Conducted(s) && Single(s) && Published(s, t, p, c)
    ensures SeatsFit(s, t, Takes(p, c))
  {
    hide Inv, Conducted, Single, OnDiagram;
    RunningTables(s);
    RunningTables(t);
    SeatedFd(s, |s.conns| - 1);
    SeatedBehaves(s, p);
    PlacesOnce(s, p);
  }

  lemma PublishedParts(s: State, t: State, p: Ptr, c: Con)
    requires Wired(s) && Published(s, t, p, c)
    ensures HeapFits(s, t, Takes(p, c)) && WireFit(s, t, Takes(p, c)) && SameNames(s.heap, t.heap)
    ensures !Shutting(s.pc) && !Shutting(t.pc) && t.conns == s.conns && t.polled == s.polled && t.pc.Events?
  {
    WiredAt(s, p);
  }

  lemma PublishConducts(s: State)
    requires Inv(s) && Conducts(s) && Can(s, Publish) && Inv(Apply(s, Publish))
    ensures Conducts(Apply(s, Publish))
  {
    hide Inv, Can, Apply, Conducted, Single, Wired, Watched, Swept, Ordered, SeatsFit, OnDiagram, HeapFits, WireFit;
    hide Published, SameNames;
    var t := Apply(s, Publish);
    var p, c := PublishFacts(s);
    PublishedParts(s, t, p, c);
    WatchedSame(s, t);
    PublishedOrdered(s, t, p, c);
    PublishedSeats(s, t, p, c);
    SweptIdle(t);
    FitsConducts(s, t, Takes(p, c));
  }

  // ---------------------------------------------------------------- closing a connection

  ghost predicate Unlinked(s: State, t: State) {
    && s.pc.Unlinking? && AllIn(s.heap, s.pending)
    && t == s.(pending := DropFd(s.heap, s.pending, s.pc.fd), lost := t.lost, pc := Retiring(s.pc.fd, s.pc.back))
  }

  lemma UnlinkFacts(s: State)
    requires Can(s, Unlink)
    ensures Unlinked(s, Apply(s, Unlink))
  {
  }

  /** The rest is the old sequence without the entry found, if one was. */
  lemma DropFdParts(h: Heap, ps: seq<Ptr>, fd: int)
    requires AllIn(h, ps)
    ensures var r, i := DropFd(h, ps, fd), FindFd(h, ps, fd);
      && |r| == (if i < |ps| then |ps| - 1 else |ps|)
      && forall k :: 0 <= k < |r| ==> r[k] == ps[if k < i then k else k + 1]
  {
  }

  lemma DropFdFewer(h: Heap, ps: seq<Ptr>, fd: int)
    requires AllIn(h, ps)
    ensures multiset(DropFd(h, ps, fd)) <= multiset(ps)
    ensures forall q :: q in DropFd(h, ps, fd) ==> q in ps
  {
    hide AllIn, FindFd;
    var i := FindFd(h, ps, fd);
    if i < |ps| { WithoutMultiset(ps, i); }
    var r := DropFd(h, ps, fd);
    forall q | q in r ensures q in ps { assert q in multiset(r); }
  }

  /** With one carrier of a descriptor at most, none is left. */
  lemma DropFdClears(h: Heap, ps: seq<Ptr>, fd: int)
    requires Increasing(h, ps) && fd >= 0
    requires forall p, q :: p in h && q in h && p != q && h[p].fd >= 0 ==> h[p].fd != h[q].fd
    ensures forall k :: 0 <= k < |DropFd(h, ps, fd)| ==> h[DropFd(h, ps, fd)[k]].fd != fd
    ensures Increasing(h, DropFd(h, ps, fd))
  {
    DropFdParts(h, ps, fd);
    var r, i := DropFd(h, ps, fd), FindFd(h, ps, fd);
    forall k | 0 <= k < |r| ensures h[r[k]].fd != fd {
      if k >= i { assert h[ps[i]].id < h[ps[k + 1]].id; }
    }
  }

  lemma DistinctFds(s: State)
    requires Inv(s)
    ensures forall p, q :: p in s.heap && q in s.heap && p != q && s.heap[p].fd >= 0 ==> s.heap[p].fd != s.heap[q].fd
  {
  }

  lemma UnlinkedLined(s: State, t: State)
    requires Inv(s) && Lined(s) && Unlinked(s, t)
    ensures Lined(t)
  {
    hide Inv;
    DropFdParts(s.heap, s.pending, s.pc.fd);
    hide DropFd;
    var i := FindFd(s.heap, s.pending, s.pc.fd);
    forall k | 0 <= k < |t.pending|
      ensures t.pending[k] == s.pending[if k < i then k else k + 1] && t.pending[k] in t.heap
      ensures Later(t.handed, t.heap[t.pending[k]].id)
    {
    }
  }

  lemma UnlinkedListed(s: State, t: State)
    requires Listed(s) && Unlinked(s, t)
    ensures Listed(t)
  {
    DropFdFewer(s.heap, s.pending, s.pc.fd);
    hide DropFd;
  }

  lemma UnlinkedAwaited(s: State, t: State)
    requires Inv(s) && Lined(s) && Unlinked(s, t) && s.pc.fd >= 0
    ensures Awaited(t)
  {
    DistinctFds(s);
    hide Inv;
    DropFdClears(s.heap, s.pending, s.pc.fd);
    hide DropFd;
  }

  lemma UnlinkedOrdered(s: State, t: State)
    requires Inv(s) && Ordered(s) && Unlinked(s, t) && s.pc.fd >= 0
    ensures Ordered(t)
  {
    hide Inv, Lined, Listed, Awaited, DropFd;
    if s.role.Server? {
      UnlinkedLined(s, t);
      UnlinkedListed(s, t);
      UnlinkedAwaited(s, t);
    }
  }

  lemma UnlinkedSeats(s: State, t: State)
    requires Unlinked(s, t) && Running(s.pc) && Running(t.pc)
    ensures HeapFits(s, t, Moves) && SeatsFit(s, t, Moves)
  {
    DropFdFewer(s.heap, s.pending, s.pc.fd);
    hide DropFd;
    RunningTables(s);
    RunningTables(t);
    hide LivePending, LiveConns;
  }

  lemma UnlinkConducts(s: State)
    requires Inv(s) && Conducts(s) && Can(s, Unlink) && Inv(Apply(s, Unlink))
    ensures Conducts(Apply(s, Unlink))
  {
    hide Inv, Can, Apply, Conducted, Single, Wired, Watched, Ordered, DropFd, OnDiagram, HeapFits, SeatsFit;
    var t := Apply(s, Unlink);
    UnlinkFacts(s);
    UnlinkedSeats(s, t);
    WatchedSame(s, t);
    UnlinkedOrdered(s, t);
    FitsConducts(s, t, Moves);
  }

  /** Entry i, connection p, failed and left m_connections. */
  ghost predicate Retired(s: State, t: State, i: nat, p: Ptr, c: Con) {
    && s.pc.Retiring? && i < |s.conns| && s.conns[i] == p && Held(s, p) && AllIn(s.heap, s.conns)
    && s.heap[p].fd == s.pc.fd && c == s.heap[p].Publish(Failed)
    && t == s.(heap := Release(s.heap[p := c], p), conns := Without(s.conns, i),
               polled := s.polled - {s.pc.fd}, pc := s.pc.back)
  }

  lemma RetireFacts(s: State) returns (i: nat, p: Ptr, c: Con)
    requires Inv(s) && Can(s, Retire)
    ensures s.pc.Retiring? && AllIn(s.heap, s.conns) && (s.pc.back.Sending? || s.pc.back.Closing? || s.pc.back.Events?)
    ensures var t := Apply(s, Retire);
      if i < |s.conns| then Retired(s, t, i, p, c)
      else t == s.(pc := s.pc.back) && forall k :: 0 <= k < |s.conns| ==> s.heap[s.conns[k]].fd != s.pc.fd
  {
    hide Inv;
    Position(s);
    i := FindFd(s.heap, s.conns, s.pc.fd);
    if i < |s.conns| {
      p := s.conns[i];
      c := s.heap[p].Publish(Failed);
    } else {
      p, c := 0, NewCon(0, 0, 0, Idle, 0);
    }
  }

  /** The entry that leaves lies behind what the sweep still has to visit. */
  lemma RetiredSwept(s: State, t: State, i: nat, p: Ptr, c: Con)
    requires Swept(s) && Retired(s, t, i, p, c) && (s.pc.back.Sending? || s.pc.back.Closing? || s.pc.back.Events?)
    ensures Swept(t) && Left(s.pc) <= i
  {
    assert Left(s.pc) == Left(t.pc) && Orig(s.pc) == Orig(t.pc);
    assert Spared(s, Left(s.pc), s.pc.fd);
  }

  lemma RetiredDistinct(s: State, i: nat)
    requires Inv(s) && Single(s) && s.pc.Retiring? && i < |s.conns|
    ensures s.conns[i] !in Without(s.conns, i)
    ensures multiset(Without(s.conns, i)) <= multiset(s.conns)
    ensures forall q :: q in Without(s.conns, i) ==> q in s.conns
    ensures forall q :: q in s.conns && q != s.conns[i] ==> q in Without(s.conns, i)
  {
    hide Inv, Single;
    ConnsPresent(s);
    SeatsDistinct(s);
    WithoutMultiset(s.conns, i);
    var r := Without(s.conns, i);
    forall k | 0 <= k < |r| ensures r[k] != s.conns[i] { assert r[k] == s.conns[if k < i then k else k + 1]; }
    forall q | q in s.conns && q != s.conns[i] ensures q in r {
      var k :| 0 <= k < |s.conns| && s.conns[k] == q;
      assert q == r[if k < i then k else k - 1];
    }
  }

  lemma RetiredWatched(s: State, t: State, i: nat, p: Ptr, c: Con)
    requires Inv(s) && Single(s) && Watched(s) && Retired(s, t, i, p, c)
    requires s.pc.back.Sending? || s.pc.back.Closing? || s.pc.back.Events?
    ensures Watched(t)
  {
    hide Inv, Single, Without;
    RetiredDistinct(s, i);
    forall g | g in t.polled ensures Carried(t, g) {
      assert Carried(s, g);
      var k :| 0 <= k < |s.conns| && s.conns[k] in s.heap && s.heap[s.conns[k]].fd == g;
      var q := s.conns[k];
      assert q != p && q in t.conns;
      var j :| 0 <= j < |t.conns| && t.conns[j] == q;
      assert q in t.heap;
    }
  }

  lemma RetiredListed(s: State, t: State, i: nat, p: Ptr, c: Con)
    requires Inv(s) && Inv(t) && Single(s) && Listed(s) && Retired(s, t, i, p, c) && !Shutting(t.pc) && p !in s.pending
    ensures Listed(t)
  {
    hide Inv, Single;
    RetiredDistinct(s, i);
    ReleasedNames(s.heap, p, c);
    ConnsPresent(t);
    hide Release;
    forall j, k | 0 <= j < k < |t.conns| ensures t.heap[t.conns[j]].id < t.heap[t.conns[k]].id {
      assert t.conns[j] == s.conns[if j < i then j else j + 1] && t.conns[k] == s.conns[if k < i then k else k + 1];
    }
    forall j | 0 <= j < |t.pending| ensures t.pending[j] in t.conns { assert t.pending[j] != p; }
  }

  lemma RetiredOrdered(s: State, t: State, i: nat, p: Ptr, c: Con)
    requires Inv(s) && Inv(t) && Single(s) && Ordered(s) && Retired(s, t, i, p, c)
    requires s.pc.back.Sending? || s.pc.back.Closing? || s.pc.back.Events?
    ensures Ordered(t)
  {
    hide Inv, Single, Lined, Listed, Without;
    if s.role.Server? {
      ServerPending(s);
      assert p !in s.pending;
      ReleasedNames(s.heap, p, c);
      LinedSame(s, t);
      RetiredListed(s, t, i, p, c);
    }
  }

  lemma RetiredPlaces(s: State, t: State, i: nat)
    requires Inv(s) && Single(s) && s.pc.Retiring? && Running(t.pc) && i < |s.conns|
    requires t.role == s.role && t.conns == Without(s.conns, i) && t.pending == s.pending
    requires t.connecting == s.connecting
    ensures forall q :: Queued(t, q) == Queued(s, q) && (Seated(t, q) ==> Seated(s, q))
    ensures forall q :: Places(t, q) <= Places(s, q)
    ensures !Seated(t, s.conns[i])
  {
    hide Inv, Single, Without, LivePending, LiveConns;
    RetiredDistinct(s, i);
    RunningTables(s);
    RunningTables(t);
  }

  lemma FailedBehaves(role: Role, c: Con, seated: bool)
    requires Behaves(role, c, false, seated) && c.state != Failed && c.log.connects == 1
    requires c.log.published[|c.log.published| - 1] == c.state
    ensures Behaves(role, c.Publish(Failed), false, false)
  {
    DiagramGrows(c.log.published, Failed);
  }

  lemma NotQueuedHere(s: State, p: Ptr)
    requires Inv(s) && Single(s) && Ordered(s) && s.pc.Retiring? && p in s.heap && Seated(s, p)
    requires s.heap[p].fd == s.pc.fd
    ensures !Queued(s, p)
  {
    hide Single, Lined, Listed;
    if s.role.Client? { SeatedNotQueued(s, p); } else { ServerPending(s); hide Inv; }
  }

  lemma RetiredSeats(s: State, t: State, i: nat, p: Ptr, c: Con)
    requires Inv(s) && Conducted(s) && Single(s) && Ordered(s) && Retired(s, t, i, p, c)
    requires s.pc.back.Sending? || s.pc.back.Closing? || s.pc.back.Events?
    ensures SeatsFit(s, t, Releases(p, c))
  {
    hide Inv, Conducted, Single, Ordered, OnDiagram, Without, Queued, Seated, Places, CloseEntry;
    SeatedFd(s, i);
    SeatedBehaves(s, p);
    Owed(s, p);
    RetiredPlaces(s, t, i);
    PlacesOnce(s, p);
    NotQueuedHere(s, p);
    FailedBehaves(s.role, s.heap[p], true);
  }

  lemma RetireConducts(s: State)
    requires Inv(s) && Conducts(s) && Can(s, Retire) && Inv(Apply(s, Retire))
    ensures Conducts(Apply(s, Retire))
  {
    hide Inv, Can, Apply, Conducted, Single, Wired, Watched, Ordered, OnDiagram, Without, Retired;
    var t := Apply(s, Retire);
    var i, p, c := RetireFacts(s);
    if i < |s.conns| {
      hide Swept;
      RetiredConducts(s, t, i, p, c);
    } else {
      assert Left(s.pc) == Left(t.pc) && Orig(s.pc) == Orig(t.pc);
      RunningTables(s);
      RunningTables(t);
      WatchedSame(s, t);
      OrderedSame(s, t);
      PcConducts(s, t);
    }
  }

  lemma RetiredConducts(s: State, t: State, i: nat, p: Ptr, c: Con)
    requires Inv(s) && Inv(t) && Conducts(s) && Retired(s, t, i, p, c)
    requires s.pc.back.Sending? || s.pc.back.Closing? || s.pc.back.Events?
    ensures Conducts(t)
  {
    hide Inv, Conducted, Single, Watched, Swept, Ordered, SeatsFit, OnDiagram, Without;
    assert WiredCon(s.heap[p], s.wire, s.out, s.pc);
    RetiredSwept(s, t, i, p, c);
    RetiredWatched(s, t, i, p, c);
    RetiredOrdered(s, t, i, p, c);
    RetiredSeats(s, t, i, p, c);
    FitsConducts(s, t, Releases(p, c));
  }

  // ---------------------------------------------------------------- shutdown

  /** Shutdown gave back the reference of p, an entry counted so far. */
  ghost predicate Dismissed(s: State, t: State, p: Ptr) {
    && Shutting(s.pc) && Shutting(t.pc) && Held(s, p)
    && t == s.(heap := Release(s.heap, p), pc := t.pc)
    && ((LivePending(s) == LivePending(t) + [p] && LiveConns(t) == LiveConns(s))
        || (LiveConns(s) == LiveConns(t) + [p] && LivePending(t) == LivePending(s)))
  }

  lemma DismissFacts(s: State, a: Step) returns (p: Ptr)
    requires Can(s, a) && (a.ShutPendingOne? || a.ShutConnsOne?)
    ensures Dismissed(s, Apply(s, a), p)
  {
    if a.ShutPendingOne? {
      p := s.pending[s.pc.left - 1];
      assert s.pending[..s.pc.left] == s.pending[..s.pc.left - 1] + [p];
    } else {
      p := s.conns[s.pc.left - 1];
      assert s.conns[..s.pc.left] == s.conns[..s.pc.left - 1] + [p];
    }
  }

  lemma DismissedFewer(s: State, t: State, p: Ptr)
    requires Dismissed(s, t, p)
    ensures forall q :: (Queued(t, q) ==> Queued(s, q)) && (Seated(t, q) ==> Seated(s, q))
    ensures multiset(LivePending(t)) <= multiset(LivePending(s)) && multiset(LiveConns(t)) <= multiset(LiveConns(s))
  {
    hide LivePending, LiveConns, Release, Held;
  }

  lemma DismissedPlaces(s: State, t: State, q: Ptr)
    requires t.role == s.role && t.connecting == s.connecting
    requires multiset(LivePending(t)) <= multiset(LivePending(s)) && multiset(LiveConns(t)) <= multiset(LiveConns(s))
    ensures Places(t, q) <= Places(s, q)
  {
    hide LivePending, LiveConns;
  }

  lemma DismissedSeats(s: State, t: State, p: Ptr)
    requires Inv(s) && Conducted(s) && Single(s) && Dismissed(s, t, p)
    ensures SeatsFit(s, t, Releases(p, s.heap[p]))
  {
    hide Inv, Single, Behaves, LivePending, LiveConns, Queued, Seated, Places, Release;
    DismissedFewer(s, t, p);
    forall q ensures Places(t, q) <= Places(s, q) { DismissedPlaces(s, t, q); }
    PlacesOnce(s, p);
    BehavesFreer(s.role, s.heap[p], Queued(s, p), Seated(s, p), Queued(t, p), Seated(t, p));
  }

  lemma DismissConducts(s: State, a: Step)
    requires Inv(s) && Conducts(s) && Can(s, a) && (a.ShutPendingOne? || a.ShutConnsOne?) && Inv(Apply(s, a))
    ensures Conducts(Apply(s, a))
  {
    hide Inv, Can, Apply, Conducted, Single, Wired, Watched, Swept, Ordered, SeatsFit;
    var t := Apply(s, a);
    var p := DismissFacts(s, a);
    assert s.heap[p := s.heap[p]] == s.heap;
    ReleasedNames(s.heap, p, s.heap[p]);
    assert WiredCon(s.heap[p], s.wire, s.out, s.pc) by { WiredAt(s, p); }
    DismissedSeats(s, t, p);
    WatchedSame(s, t);
    SweptIdle(t);
    OrderedSame(s, t);
    FitsConducts(s, t, Releases(p, s.heap[p]));
  }

  lemma WiredAt(s: State, p: Ptr)
    requires Wired(s) && p in s.heap
    ensures WiredCon(s.heap[p], s.wire, s.out, s.pc)
  {
  }

  // ---------------------------------------------------------------- every step, every run

  lemma AppConducts(s: State, a: Step)
    requires Inv(s) && Conducts(s) && Can(s, a) && ConnectsOnce(s, a) && OfApplication(a) && Inv(Apply(s, a))
    ensures Conducts(Apply(s, a))
  {
    hide Inv, Conducts, Can, Apply, ConnectsOnce;
    match a
    case Create(p, fd) => CreateConducts(s, p, fd);
    case ConnectBegin(p) => ConnectBeginConducts(s, p);
    case ConnectPush(p) => ConnectPushConducts(s, p);
    case Accept => AcceptConducts(s);
    case DestroyRelease(p) => DestroyReleaseConducts(s, p);
    case _ => HandleConducts(s, a);
  }

  /** Every step keeps the rules, provided connect is not called a second time. */
  lemma StepConducts(s: State, a: Step)
    requires Inv(s) && Conducts(s) && Can(s, a) && ConnectsOnce(s, a)
    ensures Inv(Apply(s, a)) && Conducts(Apply(s, a))
  {
    hide Inv, Conducts, Can, Apply, ConnectsOnce;
    StepKeeps(s, a);
    match a
    case AdoptOne(r) => AdoptConducts(s, r);
    case SendOne(r) => SendConducts(s, r);
    case Pop => PopConducts(s);
    case Writable(fd, ok) => WritableConducts(s, fd, ok);
    case Incoming(fd, chunk) => IncomingConducts(s, fd, chunk);
    case Store => StoreConducts(s);
    case Arrive(p, fd) => ArriveConducts(s, p, fd);
    case Publish => PublishConducts(s);
    case Unlink => UnlinkConducts(s);
    case Retire => RetireConducts(s);
    case ShutPendingOne => DismissConducts(s, a);
    case ShutConnsOne => DismissConducts(s, a);
    case _ => if OfApplication(a) { AppConducts(s, a); } else { MovesConducts(s, a); }
  }

  lemma InitialConducts(role: Role, me: int)
    ensures Conducts(Initial(role, me))
  {
  }

  lemma {:induction false} RunConducts(s: State, steps: seq<Step>, t: State)
    requires Inv(s) && Conducts(s) && LeadsPolitely(s, steps, t)
    ensures Inv(t) && Conducts(t)
    decreases |steps|
  {
    hide Inv, Conducts, Can, Apply, ConnectsOnce;
    if steps != [] {
      StepConducts(s, steps[0]);
      RunConducts(Apply(s, steps[0]), steps[1..], t);
    }
  }
}
