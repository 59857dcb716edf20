/** What runs keep when the application connects each connection at most once: the state diagram,
    the routing of received bytes, the visit-once sweeps, and the order of accepted connections. */
module Conduct {
  import opened Bytes
  import opened Connections
  import opened EventLoop
  import opened Ownership

  // ---------------------------------------------------------------- the state diagram

  /** include/asock.h: Idle -> InProgress -> Established, and Failed from anywhere, for good. */
  predicate Follows(a: ConState, b: ConState) {
    || a == b
    || (a.Idle? && b.InProgress?)
    || (a.InProgress? && b.Established?)
    || (!a.Failed? && b.Failed?)
  }

  ghost predicate OnDiagram(published: seq<ConState>) {
    && |published| > 0
    && forall i, j :: 0 <= i && j == i + 1 && j < |published| ==> Follows(published[i], published[j])
  }

  // ---------------------------------------------------------------- the invariant

  /** On its way into m_connections, or in m_new_connections. */
  ghost predicate Queued(s: State, p: Ptr) { p in s.connecting || p in LivePending(s) }

  /** In m_connections. */
  ghost predicate Seated(s: State, p: Ptr) { p in LiveConns(s) }

  /** No byte has moved in either direction. */
  predicate Quiet(c: Con) { c.log.sent == [] && c.log.delivered == [] && c.inQ.items == [] }

  ghost predicate Behaves(role: Role, c: Con, queued: bool, seated: bool) {
    && OnDiagram(c.log.published)
    && (c.log.connects == 0 ==> c.state == Idle && Quiet(c))
    && (queued && role.Client? ==> c.state == InProgress && Quiet(c))
    && (queued && role.Server? ==> c.state == Established)
    && (seated ==> c.fd >= 0 && (c.state == Established || (c.state == InProgress && role.Client?)))
  }

  ghost predicate Conducted(s: State) {
    forall p :: p in s.heap ==> Behaves(s.role, s.heap[p], Queued(s, p), Seated(s, p))
  }

  /** Table places that a call of connect, or an arrival, entitles a connection to. */
  function Places(s: State, p: Ptr): nat {
    if s.role.Client? then Tabled(s, p) else multiset(LiveConns(s))[p]
  }

  ghost predicate Single(s: State) {
    forall p :: p in s.heap ==> Places(s, p) <= s.heap[p].log.connects <= 1
  }

  /** The chunk read from fd that has not reached an in-queue yet. */
  function Chunk(pc: Pc, fd: int): seq<byte> {
    if pc.Storing? && pc.fd == fd then pc.chunk else []
  }

  ghost predicate WiredCon(c: Con, wire: map<int, seq<byte>>, out: map<int, seq<byte>>, pc: Pc) {
    c.fd >= 0 ==> (
      && Get(wire, c.fd) == c.log.delivered + c.inQ.items + Chunk(pc, c.fd)
      && Get(out, c.fd) == c.log.sent)
  }

  /** Everything read from a descriptor went to the connection that carries it, in order, and
      everything sent on it came from that connection. */
  ghost predicate Wired(s: State) {
    forall p :: p in s.heap ==> WiredCon(s.heap[p], s.wire, s.out, s.pc)
  }

  /** Epoll watches only descriptors of table entries. */
  ghost predicate Watched(s: State) {
    && (!Shutting(s.pc) ==> forall fd :: fd in s.polled ==> Carried(s, fd))
    && (s.pc.Storing? ==> s.pc.fd in s.polled)
  }

  ghost predicate Carried(s: State, fd: int) {
    exists i :: 0 <= i < |s.conns| && s.conns[i] in s.heap && s.heap[s.conns[i]].fd == fd
  }

  /** A sweep has not disturbed the part of the table it still has to visit. */
  ghost predicate Swept(s: State) {
    var left, orig := Left(s.pc), Orig(s.pc);
    && left <= |s.conns| && left <= |orig|
    && (forall j :: 0 <= j < left ==> s.conns[j] == orig[j])
    && (s.pc.Unlinking? || s.pc.Retiring? ==> s.pc.fd >= 0 && Spared(s, left, s.pc.fd))
  }

  /** None of the first n entries carries the descriptor. */
  ghost predicate Spared(s: State, n: nat, fd: int) {
    forall j :: 0 <= j < n && j < |s.conns| && s.conns[j] in s.heap ==> s.heap[s.conns[j]].fd != fd
  }

  ghost predicate Increasing(h: Heap, ps: seq<Ptr>) {
    AllIn(h, ps) && forall i, j :: 0 <= i < j < |ps| ==> h[ps[i]].id < h[ps[j]].id
  }

  ghost predicate Later(handed: seq<nat>, id: nat) { forall i :: 0 <= i < |handed| ==> handed[i] < id }

  /** The server's tables: connections wait for accept in arrival order. */
  ghost predicate Ordered(s: State) {
    s.role.Server? ==> s.connecting == multiset{} && Lined(s) && Awaited(s) && (!Shutting(s.pc) ==> Listed(s))
  }

  /** Ids were handed out in order, and whoever still waits, or is yet to come, has a later one. */
  ghost predicate Lined(s: State) {
    && Increasing(s.heap, s.pending)
    && (forall i, j :: 0 <= i < j < |s.handed| ==> s.handed[i] < s.handed[j])
    && (forall i :: 0 <= i < |s.pending| ==> Later(s.handed, s.heap[s.pending[i]].id))
    && Later(s.handed, s.nextId)
  }

  /** Whoever waits is in the table, and the table is in arrival order. */
  ghost predicate Listed(s: State) {
    && Increasing(s.heap, s.conns)
    && (forall i :: 0 <= i < |s.pending| ==> s.pending[i] in s.conns)
  }

  /** Half-done work: a connection accepted but not published, or unlinked but not retired. */
  ghost predicate Awaited(s: State) {
    && (s.pc.Publishing? ==>
          s.pc.con in s.heap && s.pc.con !in s.pending && Later(s.handed, s.heap[s.pc.con].id))
    && (s.pc.Retiring? ==>
          forall i :: 0 <= i < |s.pending| && s.pending[i] in s.heap ==> s.heap[s.pending[i]].fd != s.pc.fd)
  }

  ghost predicate Conducts(s: State) {
    Conducted(s) && Single(s) && Wired(s) && Watched(s) && Swept(s) && Ordered(s)
  }

  // ---------------------------------------------------------------- consequences used step by step

  lemma PlacesSplit(s: State, p: Ptr)
    ensures Places(s, p) >= multiset(LiveConns(s))[p]
    ensures s.role.Client? ==> Places(s, p) == s.connecting[p] + multiset(LivePending(s))[p] + multiset(LiveConns(s))[p]
  {
  }

  /** No connection sits in the table twice. */
  lemma SeatsDistinct(s: State)
    requires Inv(s) && Single(s)
    ensures forall i, j :: 0 <= i < j < |LiveConns(s)| ==> LiveConns(s)[i] != LiveConns(s)[j]
  {
    ConnsLive(s);
    forall i, j | 0 <= i < j < |LiveConns(s)| ensures LiveConns(s)[i] != LiveConns(s)[j] {
      var p := LiveConns(s)[i];
      assert p in s.heap && Places(s, p) <= 1;
      PlacesSplit(s, p);
      if p == LiveConns(s)[j] { TwoPlaces(LiveConns(s), i, j); }
    }
  }

  /** On the client a seated connection is not queued any more. */
  lemma SeatedNotQueued(s: State, p: Ptr)
    requires Single(s) && s.role.Client? && p in s.heap && Seated(s, p)
    ensures !Queued(s, p) && s.heap[p].log.connects == 1
  {
    PlacesSplit(s, p);
    assert p in multiset(LiveConns(s));
    assert p in LivePending(s) ==> p in multiset(LivePending(s));
  }

  /** A queued connection is queued once, and called connect. */
  lemma QueuedOnce(s: State, p: Ptr)
    requires Single(s) && s.role.Client? && p in s.heap && Queued(s, p)
    ensures !Seated(s, p) && s.heap[p].log.connects == 1
    ensures s.connecting[p] + multiset(LivePending(s))[p] == 1
  {
    PlacesSplit(s, p);
    assert p in LivePending(s) ==> p in multiset(LivePending(s));
    assert p in LiveConns(s) ==> p in multiset(LiveConns(s));
  }

  lemma FdsDistinct(s: State, p: Ptr, q: Ptr)
    requires Inv(s) && p in s.heap && q in s.heap && p != q && s.heap[p].fd >= 0
    ensures s.heap[p].fd != s.heap[q].fd
  {
  }

  /** A seated connection is not idle, has moved no byte it should not have, and called connect. */
  lemma SeatedBehaves(s: State, p: Ptr)
    requires Conducted(s) && Single(s) && p in s.heap && Seated(s, p)
    ensures Behaves(s.role, s.heap[p], Queued(s, p), true) && s.heap[p].log.connects == 1
  {
    PlacesSplit(s, p);
    assert multiset(LiveConns(s))[p] >= 1;
  }

  // ---------------------------------------------------------------- the parts, kept in general

  predicate About(e: Effect, q: Ptr) { !e.Moves? && e.p == q }

  /** Nobody but the connection the effect is about gains a place. */
  ghost predicate SeatsFit(s: State, t: State, e: Effect) {
    && t.role == s.role
    && (forall q :: !About(e, q) ==>
          && (Queued(t, q) ==> Queued(s, q)) && (Seated(t, q) ==> Seated(s, q))
          && Places(t, q) <= Places(s, q))
    && (!e.Moves? ==>
          && Behaves(t.role, e.c, Queued(t, e.p), Seated(t, e.p))
          && Places(t, e.p) <= e.c.log.connects <= 1)
  }

  lemma BehavesFreer(role: Role, c: Con, queued: bool, seated: bool, queued': bool, seated': bool)
    requires Behaves(role, c, queued, seated) && (queued' ==> queued) && (seated' ==> seated)
    ensures Behaves(role, c, queued', seated')
  {
  }

  lemma ConductedFits(s: State, t: State, e: Effect)
    requires Conducted(s) && HeapFits(s, t, e) && SeatsFit(s, t, e)
    ensures Conducted(t)
  {
    hide Queued, Seated, Places;
    forall q | q in t.heap ensures Behaves(t.role, t.heap[q], Queued(t, q), Seated(t, q)) {
      if !About(e, q) {
        assert q in s.heap && t.heap[q] == s.heap[q];
        hide Behaves;
        BehavesFreer(s.role, s.heap[q], Queued(s, q), Seated(s, q), Queued(t, q), Seated(t, q));
      }
    }
  }

  lemma SingleFits(s: State, t: State, e: Effect)
    requires Single(s) && HeapFits(s, t, e) && SeatsFit(s, t, e)
    ensures Single(t)
  {
    forall q | q in t.heap ensures Places(t, q) <= t.heap[q].log.connects <= 1 {
      if !About(e, q) { assert q in s.heap && t.heap[q] == s.heap[q]; }
    }
  }

  ghost predicate WireFit(s: State, t: State, e: Effect) {
    && (forall q :: q in s.heap && s.heap[q].fd >= 0 && !About(e, q) ==>
          && Get(t.wire, s.heap[q].fd) == Get(s.wire, s.heap[q].fd)
          && Get(t.out, s.heap[q].fd) == Get(s.out, s.heap[q].fd)
          && Chunk(t.pc, s.heap[q].fd) == Chunk(s.pc, s.heap[q].fd))
    && (!e.Moves? ==> WiredCon(e.c, t.wire, t.out, t.pc))
  }

  lemma WiredFits(s: State, t: State, e: Effect)
    requires Wired(s) && HeapFits(s, t, e) && WireFit(s, t, e)
    ensures Wired(t)
  {
    forall q | q in t.heap ensures WiredCon(t.heap[q], t.wire, t.out, t.pc) {
      if !About(e, q) { assert q in s.heap && t.heap[q] == s.heap[q]; }
    }
  }
}
