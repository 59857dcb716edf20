/** What every run of the loop keeps, whatever the applications do: nobody follows a dangling
    pointer, reference counts are exactly the references taken, ids and descriptors are unique, the
    sweeps stay inside the table they erase from, and no outgoing byte is lost. */
module Ownership {
  import opened Bytes
  import opened Vectors
  import opened Connections
  import opened EventLoop

  // ---------------------------------------------------------------- the invariant

  /** Memory is live exactly while references are counted for, and the counts are right. */
  ghost predicate Counted(s: State) {
    forall p :: (p in s.heap <==> Owners(s, p) > 0) && (p in s.heap ==> s.heap[p].refs == Owners(s, p))
  }

  ghost predicate Named(h: Heap, next: nat) {
    && (forall p :: p in h ==> h[p].id < next && h[p].fd >= -1)
    && (forall p, q :: p in h && q in h && p != q ==> h[p].id != h[q].id)
    && (forall p, q :: p in h && q in h && p != q && h[p].fd >= 0 ==> h[p].fd != h[q].fd)
  }

  ghost predicate Mastered(s: State) {
    forall p :: p in s.heap && Tabled(s, p) > 0 ==> s.heap[p].master == s.me
  }

  /** Bytes of p's out-queue that are sent already and wait to be popped. */
  function Unpopped(pc: Pc, p: Ptr): nat {
    if pc.Popping? && pc.con == p then pc.count else 0
  }

  /** Written is sent plus what the out-queue still owes; the state is the last one published; no
      byte is sent before Established was. */
  ghost predicate Balanced(c: Con, unpopped: nat) {
    && unpopped <= |c.outQ.items|
    && c.log.written == c.log.sent + c.outQ.items[unpopped..]
    && |c.log.published| > 0 && c.log.published[|c.log.published| - 1] == c.state
    && (c.log.sent != [] ==> Established in c.log.published)
  }

  ghost predicate Accounted(h: Heap, pc: Pc) {
    forall p :: p in h ==> Balanced(h[p], Unpopped(pc, p))
  }

  ghost predicate BackOk(back: Pc, n: nat) {
    && (back.Sending? || back.Closing? || back.Events?)
    && (Left(back) == 0 || Left(back) < n)
  }

  /** The loop position fits the tables: in particular a sweep index is always in range. */
  ghost predicate Placed(role: Role, pc: Pc, conns: seq<Ptr>, pending: seq<Ptr>) {
    match pc
    case Adopting(next) => role.Client? && next <= |pending|
    case Sending(left, _) => left <= |conns|
    case Popping(p, _, left, _) => left < |conns| && conns[left] == p
    case Closing(left, _) => left <= |conns|
    case Publishing(p) => role.Server? && |conns| > 0 && conns[|conns| - 1] == p
    case Unlinking(_, back) => BackOk(back, |conns|)
    case Retiring(_, back) => BackOk(back, |conns|)
    case ShutPending(left) => role.Client? && left <= |pending|
    case ShutConns(left, released) => left <= |conns| && released <= |pending| && (role.Server? ==> released == 0)
    case Stopped(released) => released <= |pending| && (role.Server? ==> released == 0)
    case _ => true
  }

  ghost predicate Inv(s: State) {
    && Counted(s)
    && Named(s.heap, s.nextId)
    && Mastered(s)
    && Accounted(s.heap, s.pc)
    && Placed(s.role, s.pc, s.conns, s.pending)
  }

  // ---------------------------------------------------------------- what the invariant says at one place

  lemma Position(s: State)
    requires Inv(s)
    ensures Placed(s.role, s.pc, s.conns, s.pending)
  {
  }

  lemma Owed(s: State, p: Ptr)
    requires Inv(s) && p in s.heap
    ensures Balanced(s.heap[p], Unpopped(s.pc, p))
  {
  }

  lemma Account(h: Heap, pc: Pc, p: Ptr)
    requires Accounted(h, pc) && p in h
    ensures Balanced(h[p], Unpopped(pc, p))
  {
  }

  lemma Member<T>(s: seq<T>, i: nat)
    requires i < |s|
    ensures multiset(s)[s[i]] > 0
  {
    assert s[i] in multiset(s);
  }

  /** A connection somebody is counted for is live, and nobody is counted for any other. */
  lemma LiveIffOwned(s: State, p: Ptr)
    requires Counted(s)
    ensures p in s.heap <==> Owners(s, p) > 0
    ensures Owners(s, p) > 0 ==> Held(s, p)
  {
  }

  lemma ConnsLive(s: State)
    requires Counted(s)
    ensures forall i :: 0 <= i < |LiveConns(s)| ==> Held(s, LiveConns(s)[i])
    ensures AllIn(s.heap, LiveConns(s))
  {
    hide Counted, LiveConns, LivePending;
    forall i | 0 <= i < |LiveConns(s)| ensures Held(s, LiveConns(s)[i]) {
      Member(LiveConns(s), i);
      LiveIffOwned(s, LiveConns(s)[i]);
    }
  }

  lemma PendingLive(s: State)
    requires Counted(s)
    ensures forall i :: 0 <= i < |LivePending(s)| ==> Held(s, LivePending(s)[i])
    ensures AllIn(s.heap, LivePending(s))
  {
    hide Counted, LiveConns, LivePending;
    forall i | 0 <= i < |LivePending(s)| ensures Held(s, LivePending(s)[i]) {
      Member(LivePending(s), i);
      LiveIffOwned(s, LivePending(s)[i]);
    }
  }

  // ---------------------------------------------------------------- what a step amounts to

  /** What a step does to the heap and to the references. */
  datatype Effect =
    | Moves                     // nothing
    | Changes(p: Ptr, c: Con)   // p becomes c
    | Adds(p: Ptr, c: Con)      // a new connection with one reference
    | Takes(p: Ptr, c: Con)     // p becomes c, with one more reference
    | Releases(p: Ptr, c: Con)  // p becomes c and one reference is given back

  /** c is what h[p] may become: the same name, and a descriptor that is the old one, none, or new. */
  ghost predicate Renews(h: Heap, p: Ptr, c: Con) {
    && p in h && c.id == h[p].id && c.master == h[p].master
    && (c.fd == h[p].fd || c.fd == -1 || (c.fd >= 0 && forall q :: q in h ==> h[q].fd != c.fd))
  }

  ghost predicate HeapFits(s: State, t: State, e: Effect) {
    match e
    case Moves => t.heap == s.heap && t.nextId == s.nextId
    case Changes(p, c) =>
      && Renews(s.heap, p, c) && c.refs == s.heap[p].refs && t.heap == s.heap[p := c]
      && t.nextId == s.nextId
    case Adds(p, c) =>
      && p !in s.heap && c.refs == 1 && c.id == s.nextId && t.heap == s.heap[p := c]
      && c.fd >= 0 && (forall q :: q in s.heap ==> s.heap[q].fd != c.fd)
      && t.nextId == s.nextId + 1
    case Takes(p, c) =>
      && p in s.heap && c.id == s.heap[p].id && c.fd == s.heap[p].fd
      && (c.master == s.heap[p].master || c.master == s.me)
      && c.refs == s.heap[p].refs + 1 && t.heap == s.heap[p := c]
      && t.nextId == s.nextId
    case Releases(p, c) =>
      && Renews(s.heap, p, c) && c.refs == s.heap[p].refs > 0 && t.heap == Release(s.heap[p := c], p)
      && t.nextId == s.nextId
  }

  /** References the effect adds for q. */
  function Gain(e: Effect, q: Ptr): int {
    if (e.Adds? || e.Takes?) && e.p == q then 1 else if e.Releases? && e.p == q then -1 else 0
  }

  ghost predicate OwnersFit(s: State, t: State, e: Effect) {
    forall q :: Owners(t, q) == Owners(s, q) + Gain(e, q)
  }

  ghost predicate TablesFit(s: State, t: State, e: Effect) {
    && t.me == s.me
    && forall q :: Tabled(t, q) > 0 ==> Tabled(s, q) > 0 || ((e.Adds? || e.Takes?) && q == e.p && e.c.master == s.me)
  }

  ghost predicate BytesFit(s: State, t: State, e: Effect) {
    && (e.Moves? ==> forall q :: Unpopped(t.pc, q) == Unpopped(s.pc, q))
    && (!e.Moves? ==>
          && Balanced(e.c, Unpopped(t.pc, e.p))
          && forall q :: q != e.p ==> Unpopped(t.pc, q) == Unpopped(s.pc, q))
  }

  ghost predicate Fits(s: State, t: State, e: Effect) {
    && HeapFits(s, t, e) && OwnersFit(s, t, e) && TablesFit(s, t, e) && BytesFit(s, t, e)
    && Placed(t.role, t.pc, t.conns, t.pending)
  }

  /** Where t's connections come from: the one the effect is about, the others from s as they were. */
  lemma HeapOf(s: State, t: State, e: Effect, q: Ptr)
    requires HeapFits(s, t, e)
    ensures e.Moves? || q != e.p ==> (q in t.heap <==> q in s.heap) && (q in s.heap ==> t.heap[q] == s.heap[q])
    ensures !e.Moves? && q == e.p && q in t.heap ==> t.heap[q].id == e.c.id && t.heap[q].fd == e.c.fd
    ensures !e.Moves? && !e.Releases? && q == e.p ==> q in t.heap && t.heap[q] == e.c
    ensures e.Releases? && q == e.p ==>
      (q in t.heap <==> e.c.refs > 1) && (q in t.heap ==> t.heap[q].refs == e.c.refs - 1)
  {
  }

  lemma CountedFits(s: State, t: State, e: Effect)
    requires Counted(s) && HeapFits(s, t, e) && OwnersFit(s, t, e)
    ensures Counted(t)
  {
    hide Holders, Release;
    forall q ensures (q in t.heap <==> Owners(t, q) > 0) && (q in t.heap ==> t.heap[q].refs == Owners(t, q)) {
      assert (q in s.heap <==> Owners(s, q) > 0) && (q in s.heap ==> s.heap[q].refs == Owners(s, q));
      assert Owners(t, q) == Owners(s, q) + Gain(e, q);
      HeapOf(s, t, e, q);
    }
  }

  /** The name the effect gives is nobody else's. */
  lemma OwnName(s: State, t: State, e: Effect, q: Ptr)
    requires Named(s.heap, s.nextId) && HeapFits(s, t, e) && !e.Moves? && q in s.heap && q != e.p
    ensures e.c.id != s.heap[q].id && (e.c.fd >= 0 ==> e.c.fd != s.heap[q].fd) && e.c.id < t.nextId && e.c.fd >= -1
    ensures s.heap[q].fd >= 0 ==> s.heap[q].fd != e.c.fd
  {
    hide Release;
  }

  lemma NamedFits(s: State, t: State, e: Effect)
    requires Named(s.heap, s.nextId) && HeapFits(s, t, e)
    ensures Named(t.heap, t.nextId)
  {
    forall q | q in t.heap ensures t.heap[q].id < t.nextId && t.heap[q].fd >= -1 {
      HeapOf(s, t, e, q);
      hide Release;
    }
    forall p, q | p in t.heap && q in t.heap && p != q
      ensures t.heap[p].id != t.heap[q].id && (t.heap[p].fd >= 0 ==> t.heap[p].fd != t.heap[q].fd)
    {
      hide HeapFits;
      HeapOf(s, t, e, p);
      HeapOf(s, t, e, q);
      if !e.Moves? && p == e.p { OwnName(s, t, e, q); }
      if !e.Moves? && q == e.p { OwnName(s, t, e, p); }
    }
  }

  lemma MasteredFits(s: State, t: State, e: Effect)
    requires Mastered(s) && Counted(s) && HeapFits(s, t, e) && TablesFit(s, t, e)
    ensures Mastered(t)
  {
    hide LivePending, LiveConns;
    forall q | q in t.heap && Tabled(t, q) > 0 ensures t.heap[q].master == t.me {
      if Tabled(s, q) > 0 { LiveIffOwned(s, q); }
    }
  }

  lemma AccountedFits(s: State, t: State, e: Effect)
    requires Accounted(s.heap, s.pc) && HeapFits(s, t, e) && BytesFit(s, t, e)
    ensures Accounted(t.heap, t.pc)
  {
    forall q | q in t.heap ensures Balanced(t.heap[q], Unpopped(t.pc, q)) {
      if e.Moves? || q != e.p { assert Balanced(s.heap[q], Unpopped(s.pc, q)); }
    }
  }

  /** Any step that fits an effect keeps the invariant. */
  lemma FitsKeeps(s: State, t: State, e: Effect)
    requires Inv(s) && Fits(s, t, e)
    ensures Inv(t)
  {
    hide Counted, Named, Mastered, Accounted, Placed, HeapFits, OwnersFit, TablesFit, BytesFit;
    CountedFits(s, t, e);
    NamedFits(s, t, e);
    MasteredFits(s, t, e);
    AccountedFits(s, t, e);
  }

  // ---------------------------------------------------------------- where the references are

  predicate Running(pc: Pc) { !pc.Adopting? && !Shutting(pc) }

  /** Outside adoption and shutdown every table entry is counted. */
  lemma RunningTables(s: State)
    requires Running(s.pc)
    ensures LivePending(s) == s.pending && LiveConns(s) == s.conns
  {
  }

  /** Tables and loop position as they were, while the application moves references. */
  lemma SameTables(s: State, t: State)
    requires t.pc == s.pc && t.conns == s.conns && t.pending == s.pending
    ensures LivePending(t) == LivePending(s) && LiveConns(t) == LiveConns(s)
  {
  }

  /** b has d more of p than a, and the same of everybody else. */
  ghost predicate Differ(a: multiset<Ptr>, b: multiset<Ptr>, p: Ptr, d: int) {
    forall q :: b[q] == a[q] + (if q == p then d else 0)
  }

  lemma Appended(ps: seq<Ptr>, p: Ptr)
    ensures Differ(multiset(ps), multiset(ps + [p]), p, 1)
  {
  }

  lemma Prepended(ps: seq<Ptr>, p: Ptr)
    ensures Differ(multiset([p] + ps), multiset(ps), p, -1)
  {
    assert multiset([p] + ps) == multiset([p]) + multiset(ps);
  }

  lemma Removed(ps: seq<Ptr>, i: nat)
    requires i < |ps|
    ensures Differ(multiset(ps), multiset(Without(ps, i)), ps[i], -1)
  {
    WithoutMultiset(ps, i);
  }

  /** References of p that handles, connect calls, the two tables and the strays gained; nobody
      else's changed. */
  lemma RefsFit(s: State, t: State, e: Effect, p: Ptr, h: int, c: int, n: int, m: int, l: int)
    requires Differ(s.handles, t.handles, p, h) && Differ(s.connecting, t.connecting, p, c)
    requires Differ(multiset(LivePending(s)), multiset(LivePending(t)), p, n)
    requires Differ(multiset(LiveConns(s)), multiset(LiveConns(t)), p, m) && Differ(s.lost, t.lost, p, l)
    requires (e.Moves? || e.Changes? || e.p == p) && Gain(e, p) == h + c + n + m + l
    requires t.me == s.me && (c + n + m <= 0 || ((e.Adds? || e.Takes?) && e.c.master == s.me))
    ensures OwnersFit(s, t, e) && TablesFit(s, t, e)
  {
    hide LivePending, LiveConns;
  }

  /** No reference moved. */
  lemma RefsSame(s: State, t: State, e: Effect)
    requires t.handles == s.handles && t.connecting == s.connecting && t.lost == s.lost && t.me == s.me
    requires LivePending(t) == LivePending(s) && LiveConns(t) == LiveConns(s) && (e.Moves? || e.Changes?)
    ensures OwnersFit(s, t, e) && TablesFit(s, t, e)
  {
    hide LivePending, LiveConns;
  }

  /** b is a with other things to show for, but the same outgoing bytes; at most one more state was
      published. */
  predicate SameBytes(a: Con, b: Con) {
    && b.outQ.items == a.outQ.items && b.log.written == a.log.written && b.log.sent == a.log.sent
    && ((b.state == a.state && b.log.published == a.log.published) || b.log.published == a.log.published + [b.state])
  }

  lemma StaysBalanced(a: Con, b: Con, u: nat)
    requires Balanced(a, u) && SameBytes(a, b)
    ensures Balanced(b, u)
  {
    assert Established in a.log.published ==> Established in a.log.published + [b.state];
  }

  // ---------------------------------------------------------------- application steps

  /** The application moves references of p; tables and loop stay. */
  lemma HandleRefs(s: State, t: State, e: Effect, p: Ptr, h: int, c: int)
    requires t.pc == s.pc && t.conns == s.conns && t.pending == s.pending && t.lost == s.lost && t.me == s.me
    requires Differ(s.handles, t.handles, p, h) && Differ(s.connecting, t.connecting, p, c)
    requires (e.Moves? || e.Changes? || e.p == p) && Gain(e, p) == h + c
    requires c <= 0 || ((e.Adds? || e.Takes?) && e.c.master == s.me)
    ensures OwnersFit(s, t, e) && TablesFit(s, t, e)
  {
    SameTables(s, t);
    hide LivePending, LiveConns, OwnersFit, TablesFit, Gain;
    RefsFit(s, t, e, p, h, c, 0, 0, 0);
  }

  lemma CreateFits(s: State, p: Ptr, fd: int)
    requires p !in s.heap && NewFd(s, fd) && s.pc.Top?
    ensures Fits(s, DoCreate(s, p, fd), Adds(p, NewCon(s.nextId, fd, -1, Idle, 0)))
  {
    hide OwnersFit, TablesFit;
    HandleRefs(s, DoCreate(s, p, fd), Adds(p, NewCon(s.nextId, fd, -1, Idle, 0)), p, 1, 0);
  }

  lemma ConnectBeginFits(s: State, p: Ptr)
    requires p in s.heap && Balanced(s.heap[p], Unpopped(s.pc, p)) && Placed(s.role, s.pc, s.conns, s.pending)
    ensures Fits(s, DoConnectBegin(s, p), Takes(p, DoConnectBegin(s, p).heap[p]))
  {
    hide Placed, Balanced, OwnersFit, TablesFit;
    var t := DoConnectBegin(s, p);
    StaysBalanced(s.heap[p], t.heap[p], Unpopped(s.pc, p));
    HandleRefs(s, t, Takes(p, t.heap[p]), p, 0, 1);
  }

  lemma ConnectPushTables(s: State, p: Ptr)
    requires !LockHeld(s.pc)
    requires s.pc.ShutConns? || s.pc.Stopped? ==> s.pc.released <= |s.pending|
    ensures LivePending(DoConnectPush(s, p)) == LivePending(s) + [p]
    ensures LiveConns(DoConnectPush(s, p)) == LiveConns(s)
  {
    if s.pc.ShutConns? || s.pc.Stopped? {
      assert (s.pending + [p])[s.pc.released..] == s.pending[s.pc.released..] + [p];
    }
  }

  lemma ConnectPushFits(s: State, p: Ptr)
    requires p in s.connecting && !LockHeld(s.pc) && Placed(s.role, s.pc, s.conns, s.pending)
    ensures Fits(s, DoConnectPush(s, p), Moves)
  {
    hide LivePending, LiveConns, OwnersFit, TablesFit;
    ConnectPushTables(s, p);
    Appended(LivePending(s), p);
    RefsFit(s, DoConnectPush(s, p), Moves, p, 0, -1, 1, 0, 0);
  }

  lemma AcceptTables(s: State)
    requires !LockHeld(s.pc) && |s.pending| > 0 && s.pending[0] in s.heap
    requires s.pc.ShutConns? || s.pc.Stopped? ==> s.pc.released == 0
    ensures LivePending(s) == [s.pending[0]] + LivePending(DoAccept(s)) && LiveConns(DoAccept(s)) == LiveConns(s)
  {
  }

  lemma AcceptFits(s: State)
    requires s.role.Server? && !LockHeld(s.pc) && |s.pending| > 0 && s.pending[0] in s.heap
    requires Placed(s.role, s.pc, s.conns, s.pending)
    ensures Fits(s, DoAccept(s), Moves)
  {
    hide LivePending, LiveConns, OwnersFit, TablesFit;
    AcceptTables(s);
    var p := s.pending[0];
    Prepended(LivePending(DoAccept(s)), p);
    RefsFit(s, DoAccept(s), Moves, p, 1, 0, -1, 0, 0);
  }

  lemma WriteBalanced(c: Con, u: nat, bytes: seq<byte>)
    requires Balanced(c, u)
    ensures Balanced(c.(outQ := c.outQ.Enqueue(bytes), log := c.log.(written := c.log.written + bytes)), u)
  {
    var w := c.outQ.items;
    assert (w + bytes)[u..] == w[u..] + bytes;
    assert (c.log.sent + w[u..]) + bytes == c.log.sent + (w[u..] + bytes);
  }

  /** The application writes, reads, or marks the connection for closing. */
  lemma TouchFits(s: State, p: Ptr, c: Con)
    requires p in s.heap && Balanced(c, Unpopped(s.pc, p)) && Placed(s.role, s.pc, s.conns, s.pending)
    requires var d := s.heap[p]; c.id == d.id && c.fd == d.fd && c.master == d.master && c.refs == d.refs
    ensures Fits(s, s.(heap := s.heap[p := c]), Changes(p, c))
  {
    hide Placed, Balanced, OwnersFit, TablesFit;
    HandleRefs(s, s.(heap := s.heap[p := c]), Changes(p, c), p, 0, 0);
  }

  lemma DestroyReleaseFits(s: State, p: Ptr)
    requires p in s.handles && Held(s, p) && Balanced(s.heap[p], Unpopped(s.pc, p))
    requires Placed(s.role, s.pc, s.conns, s.pending)
    ensures Fits(s, DoDestroyRelease(s, p), Releases(p, s.heap[p]))
  {
    hide Placed, Balanced, OwnersFit, TablesFit;
    assert s.heap[p := s.heap[p]] == s.heap;
    HandleRefs(s, DoDestroyRelease(s, p), Releases(p, s.heap[p]), p, -1, 0);
  }

  lemma HandleFits(s: State, a: Step) returns (e: Effect)
    requires Inv(s) && Can(s, a) && (a.Write? || a.Read? || a.DestroyMark? || a.DestroyRelease?)
    ensures Fits(s, Apply(s, a), e)
  {
    Position(s);
    Owed(s, a.p);
    hide Inv, Placed, Balanced, Fits;
    var t, p, u := Apply(s, a), a.p, Unpopped(s.pc, a.p);
    if a.DestroyRelease? {
      DestroyReleaseFits(s, p);
      e := Releases(p, s.heap[p]);
    } else {
      var c := t.heap[p];
      if a.Write? { WriteBalanced(s.heap[p], u, a.bytes); } else { StaysBalanced(s.heap[p], c, u); }
      TouchFits(s, p, c);
      e := Changes(p, c);
    }
  }

  lemma AppFits(s: State, a: Step) returns (e: Effect)
    requires Inv(s) && Can(s, a) && (a.Create? || a.ConnectBegin? || a.ConnectPush? || a.Accept?)
    ensures Fits(s, Apply(s, a), e)
  {
    Position(s);
    if a.ConnectBegin? { Owed(s, a.p); }
    hide Inv, Placed, Balanced, Fits;
    e := Moves;
    if a.Create? { CreateFits(s, a.p, a.fd); e := Adds(a.p, NewCon(s.nextId, a.fd, -1, Idle, 0)); }
    else if a.ConnectBegin? { ConnectBeginFits(s, a.p); e := Takes(a.p, DoConnectBegin(s, a.p).heap[a.p]); }
    else if a.ConnectPush? { ConnectPushFits(s, a.p); }
    else { AcceptFits(s); }
  }

  // ---------------------------------------------------------------- steps that only move the loop

  predicate OnlyMoves(a: Step) {
    || a.AdoptBegin? || a.AdoptEnd? || a.SendBegin? || a.SendEnd? || a.CloseOne? || a.CloseEnd?
    || a.Hangup? || a.Incoming? || a.EventsEnd? || a.StopBegin? || a.ShutPendingEnd? || a.ShutConnsEnd?
  }

  lemma MovesTables(s: State, a: Step)
    requires OnlyMoves(a) && Can(s, a) && Placed(s.role, s.pc, s.conns, s.pending)
    ensures LivePending(Apply(s, a)) == LivePending(s) && LiveConns(Apply(s, a)) == LiveConns(s)
  {
    assert s.pending[0..] == s.pending && s.conns[..|s.conns|] == s.conns && s.pending[..|s.pending|] == s.pending;
  }

  lemma MovesLittle(s: State, a: Step)
    requires OnlyMoves(a) && Can(s, a)
    ensures var t := Apply(s, a);
      && t.heap == s.heap && t.handles == s.handles && t.connecting == s.connecting
      && t.lost == s.lost && t.nextId == s.nextId && t.me == s.me
      && !s.pc.Popping? && !t.pc.Popping?
  {
  }

  lemma MovesFitTables(s: State, a: Step)
    requires OnlyMoves(a) && Can(s, a) && Placed(s.role, s.pc, s.conns, s.pending)
    ensures var t := Apply(s, a); Placed(t.role, t.pc, t.conns, t.pending)
  {
  }

  lemma MovesFit(s: State, a: Step) returns (e: Effect)
    requires Inv(s) && Can(s, a) && OnlyMoves(a)
    ensures Fits(s, Apply(s, a), e)
  {
    Position(s);
    hide Inv, Can, Apply, LivePending, LiveConns, Placed, OwnersFit, TablesFit;
    MovesTables(s, a);
    MovesLittle(s, a);
    MovesFitTables(s, a);
    e := Moves;
    RefsSame(s, Apply(s, a), e);
  }

  // ---------------------------------------------------------------- loop steps

  /** While the loop runs, a step that leaves tables and references alone. */
  lemma RunningFits(s: State, t: State, e: Effect)
    requires Running(s.pc) && Running(t.pc) && t.conns == s.conns && t.pending == s.pending && t.me == s.me
    requires t.handles == s.handles && t.connecting == s.connecting && t.lost == s.lost
    requires (e.Moves? || e.Changes?) && HeapFits(s, t, e) && BytesFit(s, t, e)
    requires Placed(t.role, t.pc, t.conns, t.pending)
    ensures Fits(s, t, e)
  {
    RunningTables(s);
    RunningTables(t);
    hide LivePending, LiveConns, HeapFits, BytesFit, Placed, OwnersFit, TablesFit;
    RefsSame(s, t, e);
  }

  /** try_connect_to_peer leaves the identity, the count and the bytes alone, and appends to what
      was published. */
  lemma TryConnectFits(h: Heap, p: Ptr, r: Attempt)
    requires p in h && Balanced(h[p], 0) && (r.NoSocket? || (r.fd >= 0 && forall q :: q in h ==> h[q].fd != r.fd))
    ensures var c := TryConnect(h[p], r);
      && Renews(h, p, c) && c.refs == h[p].refs && Balanced(c, 0)
  {
    var b := h[p].log.published;
    assert Established in b ==> Established in b + [InProgress];
  }

  lemma AdoptOneTables(s: State, t: State)
    requires s.pc.Adopting? && s.pc.next < |s.pending| && t.pending == s.pending && t.pc == Adopting(s.pc.next + 1)
    ensures LivePending(s) == [s.pending[s.pc.next]] + LivePending(t)
    ensures LiveConns(s) == s.conns && LiveConns(t) == t.conns
  {
    assert s.pending[s.pc.next..] == [s.pending[s.pc.next]] + s.pending[s.pc.next + 1..];
  }

  lemma AdoptRefs(s: State, t: State, e: Effect)
    requires s.pc.Adopting? && s.pc.next < |s.pending| && t.pending == s.pending && t.pc == Adopting(s.pc.next + 1)
    requires t.handles == s.handles && t.connecting == s.connecting && t.lost == s.lost && t.me == s.me
    requires var p := s.pending[s.pc.next];
      (e.Releases? && e.p == p && t.conns == s.conns) || (e.Changes? && t.conns == s.conns + [p])
    ensures OwnersFit(s, t, e) && TablesFit(s, t, e)
  {
    hide LivePending, LiveConns, OwnersFit, TablesFit;
    var p := s.pending[s.pc.next];
    AdoptOneTables(s, t);
    Prepended(LivePending(t), p);
    Appended(s.conns, p);
    RefsFit(s, t, e, p, 0, 0, -1, if e.Changes? then 1 else 0, 0);
  }

  lemma TriedFits(s: State, r: Attempt, p: Ptr, e: Effect)
    requires s.pc.Adopting? && s.pc.next < |s.pending| && p == s.pending[s.pc.next] && Held(s, p)
    requires Balanced(s.heap[p], 0) && (r.NoSocket? || NewFd(s, r.fd)) && Placed(s.role, s.pc, s.conns, s.pending)
    requires var c := TryConnect(s.heap[p], r); e == if c.state == Failed then Releases(p, c) else Changes(p, c)
    ensures Fits(s, DoAdoptOne(s, r), e)
  {
    hide TryConnect, Renews, Balanced, Release, OwnersFit, TablesFit;
    TryConnectFits(s.heap, p, r);
    AdoptRefs(s, DoAdoptOne(s, r), e);
  }

  lemma AdoptFits(s: State, r: Attempt) returns (e: Effect)
    requires Inv(s) && Can(s, AdoptOne(r))
    ensures Fits(s, Apply(s, AdoptOne(r)), e)
  {
    Position(s);
    var p := s.pending[s.pc.next];
    Owed(s, p);
    hide Inv, Balanced, TryConnect, Placed, Fits;
    var c := TryConnect(s.heap[p], r);
    e := if c.state == Failed then Releases(p, c) else Changes(p, c);
    TriedFits(s, r, p, e);
  }

  lemma SentBalanced(c: Con, n: nat)
    requires Balanced(c, 0) && n <= |c.outQ.items| && c.state == Established
    ensures Balanced(c.(log := c.log.(sent := c.log.sent + c.outQ.items[..n])), n)
  {
    var w := c.outQ.items;
    assert w[0..] == w[..n] + w[n..];
    assert c.log.sent + (w[..n] + w[n..]) == (c.log.sent + w[..n]) + w[n..];
  }

  lemma SentFits(s: State, r: SendResult)
    requires s.pc.Sending? && 0 < s.pc.left <= |s.conns| && AllIn(s.heap, s.conns)
    requires r.Accepted? && r.n <= |s.heap[s.conns[s.pc.left - 1]].outQ.items|
    requires Sendable(s, s.pc.left - 1) && Balanced(s.heap[s.conns[s.pc.left - 1]], 0)
    ensures var p := s.conns[s.pc.left - 1]; Fits(s, DoSendOne(s, r), Changes(p, DoSendOne(s, r).heap[p]))
  {
    hide Balanced, FindId, Fits;
    var t, p := DoSendOne(s, r), s.conns[s.pc.left - 1];
    SentBalanced(s.heap[p], r.n);
    RunningFits(s, t, Changes(p, t.heap[p]));
  }

  lemma UnsentFits(s: State, r: SendResult)
    requires s.pc.Sending? && 0 < s.pc.left <= |s.conns| && AllIn(s.heap, s.conns)
    requires r.Accepted? ==> r.n <= |s.heap[s.conns[s.pc.left - 1]].outQ.items|
    requires r.Broken? || !Sendable(s, s.pc.left - 1)
    ensures Fits(s, DoSendOne(s, r), Moves)
  {
    hide Sendable, Fits;
    RunningFits(s, DoSendOne(s, r), Moves);
  }

  lemma SendFits(s: State, r: SendResult) returns (e: Effect)
    requires Inv(s) && Can(s, SendOne(r))
    ensures Fits(s, Apply(s, SendOne(r)), e)
  {
    hide Inv, Balanced, Sendable, Fits;
    var p := s.conns[s.pc.left - 1];
    Owed(s, p);
    if r.Accepted? && Sendable(s, s.pc.left - 1) {
      SentFits(s, r);
      e := Changes(p, DoSendOne(s, r).heap[p]);
    } else {
      UnsentFits(s, r);
      e := Moves;
    }
  }

  lemma PoppedBalanced(c: Con, n: nat)
    requires Balanced(c, n)
    ensures Balanced(c.(outQ := c.outQ.Dequeue(n)), 0)
  {
    assert c.outQ.Dequeue(n).items[0..] == c.outQ.items[n..];
  }

  lemma PopFits(s: State) returns (e: Effect)
    requires Inv(s) && Can(s, Pop)
    ensures Fits(s, Apply(s, Pop), e)
  {
    Position(s);
    var t, p := Apply(s, Pop), s.pc.con;
    Owed(s, p);
    hide Inv, Fits, Balanced;
    PoppedBalanced(s.heap[p], s.pc.count);
    e := Changes(p, t.heap[p]);
    RunningFits(s, t, e);
  }

  /** While the loop runs, entry i is replaced by c, with the same outgoing bytes. */
  lemma EntryFits(s: State, t: State, i: nat, c: Con)
    requires Running(s.pc) && Running(t.pc) && !s.pc.Popping? && !t.pc.Popping? && Accounted(s.heap, s.pc)
    requires i < |s.conns| && s.conns[i] in s.heap && SameBytes(s.heap[s.conns[i]], c)
    requires var d := s.heap[s.conns[i]]; c.id == d.id && c.fd == d.fd && c.master == d.master && c.refs == d.refs
    requires t == s.(heap := s.heap[s.conns[i] := c], pc := t.pc, wire := t.wire)
    requires Placed(t.role, t.pc, t.conns, t.pending)
    ensures Fits(s, t, Changes(s.conns[i], c))
  {
    var p := s.conns[i];
    Account(s.heap, s.pc, p);
    hide Accounted, Balanced, Placed, Fits;
    StaysBalanced(s.heap[p], c, 0);
    RunningFits(s, t, Changes(p, c));
  }

  lemma WritableFits(s: State, fd: int, ok: bool) returns (e: Effect)
    requires Inv(s) && Can(s, Writable(fd, ok))
    ensures Fits(s, Apply(s, Writable(fd, ok)), e)
  {
    hide Counted, Named, Mastered, Accounted, Fits;
    var t, i := Apply(s, Writable(fd, ok)), FindFd(s.heap, s.conns, fd);
    if i < |s.conns| && ok {
      var c := s.heap[s.conns[i]].Publish(Established);
      EntryFits(s, t, i, c);
      e := Changes(s.conns[i], c);
    } else {
      e := Moves;
      RunningFits(s, t, e);
    }
  }

  lemma StoreFits(s: State) returns (e: Effect)
    requires Inv(s) && Can(s, Store)
    ensures Fits(s, Apply(s, Store), e)
  {
    hide Counted, Named, Mastered, Accounted, Fits;
    var t, i := Apply(s, Store), FindFd(s.heap, s.conns, s.pc.fd);
    if i < |s.conns| {
      var c := s.heap[s.conns[i]].(inQ := s.heap[s.conns[i]].inQ.Enqueue(s.pc.chunk));
      EntryFits(s, t, i, c);
      e := Changes(s.conns[i], c);
    } else {
      e := Moves;
      RunningFits(s, t, e);
    }
  }

  /** While the loop runs: what the tables gained or lost of p. */
  lemma RunningRefs(s: State, t: State, e: Effect, p: Ptr, n: int, m: int, l: int)
    requires Running(s.pc) && Running(t.pc) && t.handles == s.handles && t.connecting == s.connecting && t.me == s.me
    requires Differ(multiset(s.pending), multiset(t.pending), p, n)
    requires Differ(multiset(s.conns), multiset(t.conns), p, m)
    requires Differ(s.lost, t.lost, p, l)
    requires (e.Moves? || e.Changes? || e.p == p) && Gain(e, p) == n + m + l
    requires n + m <= 0 || ((e.Adds? || e.Takes?) && e.c.master == s.me)
    ensures OwnersFit(s, t, e) && TablesFit(s, t, e)
  {
    RunningTables(s);
    RunningTables(t);
    hide LivePending, LiveConns, OwnersFit, TablesFit, Gain;
    RefsFit(s, t, e, p, 0, 0, n, m, l);
  }

  lemma ArriveFits(s: State, p: Ptr, fd: int) returns (e: Effect)
    requires Inv(s) && Can(s, Arrive(p, fd))
    ensures Fits(s, Apply(s, Arrive(p, fd)), e)
  {
    hide Inv, OwnersFit, TablesFit;
    var t := Apply(s, Arrive(p, fd));
    Appended(s.conns, p);
    e := Adds(p, t.heap[p]);
    RunningRefs(s, t, e, p, 0, 1, 0);
  }

  lemma EntryMastered(s: State, i: nat)
    requires Counted(s) && Mastered(s) && Running(s.pc) && i < |s.conns|
    ensures s.conns[i] in s.heap && s.heap[s.conns[i]].master == s.me
  {
    RunningTables(s);
    Member(s.conns, i);
    LiveIffOwned(s, s.conns[i]);
    hide LivePending, LiveConns, Counted;
  }

  lemma PublishedFits(s: State)
    requires s.pc.Publishing? && s.pc.con in s.heap && Balanced(s.heap[s.pc.con], 0) && s.heap[s.pc.con].master == s.me
    ensures Fits(s, DoPublish(s), Takes(s.pc.con, DoPublish(s).heap[s.pc.con]))
  {
    hide Balanced, OwnersFit, TablesFit;
    var t, p := DoPublish(s), s.pc.con;
    StaysBalanced(s.heap[p], t.heap[p], 0);
    Appended(s.pending, p);
    RunningRefs(s, t, Takes(p, t.heap[p]), p, 1, 0, 0);
  }

  lemma PublishFits(s: State) returns (e: Effect)
    requires Inv(s) && Can(s, Publish)
    ensures Fits(s, Apply(s, Publish), e)
  {
    Position(s);
    Owed(s, s.pc.con);
    EntryMastered(s, |s.conns| - 1);
    hide Inv, Balanced, Fits;
    PublishedFits(s);
    e := Takes(s.pc.con, DoPublish(s).heap[s.pc.con]);
  }

  lemma UnlinkRefs(s: State, t: State)
    requires s.pc.Unlinking? && AllIn(s.heap, s.pending) && t == DoUnlink(s)
    ensures OwnersFit(s, t, Moves) && TablesFit(s, t, Moves)
  {
    hide OwnersFit, TablesFit;
    var i := FindFd(s.heap, s.pending, s.pc.fd);
    if i < |s.pending| {
      Removed(s.pending, i);
      RunningRefs(s, t, Moves, s.pending[i], -1, 0, 1);
    } else {
      RunningRefs(s, t, Moves, 0, 0, 0, 0);
    }
  }

  lemma UnlinkFits(s: State) returns (e: Effect)
    requires Inv(s) && Can(s, Unlink)
    ensures Fits(s, Apply(s, Unlink), e)
  {
    Position(s);
    hide Inv, OwnersFit, TablesFit, DropFd, FindFd;
    UnlinkRefs(s, Apply(s, Unlink));
    e := Moves;
  }

  lemma RetireOneFits(s: State, t: State, i: nat, c: Con)
    requires s.pc.Retiring? && Placed(s.role, s.pc, s.conns, s.pending) && Accounted(s.heap, s.pc)
    requires i < |s.conns| && Held(s, s.conns[i]) && c == s.heap[s.conns[i]].Publish(Failed)
    requires t == s.(heap := CloseEntry(s.heap, s.conns[i]), conns := Without(s.conns, i),
                    polled := t.polled, pc := s.pc.back)
    ensures Fits(s, t, Releases(s.conns[i], c))
  {
    var p := s.conns[i];
    Account(s.heap, s.pc, p);
    RetirePlaced(s, t, i);
    RetiredRefs(s, t, i, Releases(p, c));
    hide Accounted, Balanced, OwnersFit, TablesFit, Release, Without, Placed;
    StaysBalanced(s.heap[p], c, 0);
  }

  lemma RetiredRefs(s: State, t: State, i: nat, e: Effect)
    requires Running(s.pc) && Running(t.pc) && i < |s.conns| && e.Releases? && e.p == s.conns[i] && t.me == s.me
    requires t.conns == Without(s.conns, i) && t.pending == s.pending
    requires t.handles == s.handles && t.connecting == s.connecting && t.lost == s.lost
    ensures OwnersFit(s, t, e) && TablesFit(s, t, e)
  {
    hide OwnersFit, TablesFit, Without;
    Removed(s.conns, i);
    RunningRefs(s, t, e, s.conns[i], 0, -1, 0);
  }

  lemma RetirePlaced(s: State, t: State, i: nat)
    requires s.pc.Retiring? && Placed(s.role, s.pc, s.conns, s.pending) && i < |s.conns|
    requires t.pc == s.pc.back && t.conns == Without(s.conns, i)
    ensures Placed(t.role, t.pc, t.conns, t.pending) && !t.pc.Popping? && Running(t.pc)
  {
  }

  lemma RetireFits(s: State) returns (e: Effect)
    requires Inv(s) && Can(s, Retire)
    ensures Fits(s, Apply(s, Retire), e)
  {
    Position(s);
    hide Counted, Named, Mastered, Accounted, Fits, CloseEntry, Without;
    var t, i := Apply(s, Retire), FindFd(s.heap, s.conns, s.pc.fd);
    if i < |s.conns| {
      var c := s.heap[s.conns[i]].Publish(Failed);
      RetireOneFits(s, t, i, c);
      e := Releases(s.conns[i], c);
    } else {
      e := Moves;
      RunningFits(s, t, e);
    }
  }

  lemma ShutTables(s: State, a: Step) returns (p: Ptr)
    requires Can(s, a) && (a.ShutPendingOne? || a.ShutConnsOne?)
    ensures var t := Apply(s, a);
      && t == s.(heap := t.heap, pc := t.pc) && Held(s, p) && t.heap == Release(s.heap, p)
      && (if a.ShutPendingOne? then LivePending(s) == LivePending(t) + [p] && LiveConns(t) == LiveConns(s)
          else LiveConns(s) == LiveConns(t) + [p] && LivePending(t) == LivePending(s))
  {
    if a.ShutPendingOne? {
      p := s.pending[s.pc.left - 1];
      assert s.pending[..s.pc.left] == s.pending[..s.pc.left - 1] + [p];
    } else {
      p := s.conns[s.pc.left - 1];
      assert s.conns[..s.pc.left] == s.conns[..s.pc.left - 1] + [p];
    }
  }

  lemma ShutRefs(s: State, t: State, p: Ptr, c: Con)
    requires t == s.(heap := t.heap, pc := t.pc)
    requires (LivePending(s) == LivePending(t) + [p] && LiveConns(t) == LiveConns(s))
          || (LiveConns(s) == LiveConns(t) + [p] && LivePending(t) == LivePending(s))
    ensures OwnersFit(s, t, Releases(p, c)) && TablesFit(s, t, Releases(p, c))
  {
    hide LivePending, LiveConns, OwnersFit, TablesFit;
    Appended(LivePending(t), p);
    Appended(LiveConns(t), p);
    if LiveConns(t) == LiveConns(s) { RefsFit(s, t, Releases(p, c), p, 0, 0, -1, 0, 0); }
    else { RefsFit(s, t, Releases(p, c), p, 0, 0, 0, -1, 0); }
  }

  lemma ShutPlaced(s: State, a: Step)
    requires Can(s, a) && (a.ShutPendingOne? || a.ShutConnsOne?) && Placed(s.role, s.pc, s.conns, s.pending)
    ensures var t := Apply(s, a); Placed(t.role, t.pc, t.conns, t.pending) && !s.pc.Popping? && !t.pc.Popping?
  {
  }

  lemma ShutOneFits(s: State, t: State, p: Ptr)
    requires t == s.(heap := t.heap, pc := t.pc) && Held(s, p) && t.heap == Release(s.heap, p)
    requires !s.pc.Popping? && !t.pc.Popping? && Balanced(s.heap[p], 0) && Placed(t.role, t.pc, t.conns, t.pending)
    requires OwnersFit(s, t, Releases(p, s.heap[p])) && TablesFit(s, t, Releases(p, s.heap[p]))
    ensures Fits(s, t, Releases(p, s.heap[p]))
  {
    hide Placed, Balanced, OwnersFit, TablesFit, Release;
    assert s.heap[p := s.heap[p]] == s.heap;
  }

  lemma ShutFits(s: State, a: Step) returns (e: Effect)
    requires Inv(s) && Can(s, a) && (a.ShutPendingOne? || a.ShutConnsOne?)
    ensures Fits(s, Apply(s, a), e)
  {
    Position(s);
    var p := ShutTables(s, a);
    Owed(s, p);
    hide Inv, Can, Apply, LivePending, LiveConns, Balanced, OwnersFit, TablesFit, Placed, Fits, Release;
    ShutRefs(s, Apply(s, a), p, s.heap[p]);
    ShutPlaced(s, a);
    ShutOneFits(s, Apply(s, a), p);
    e := Releases(p, s.heap[p]);
  }

  // ---------------------------------------------------------------- every step keeps the invariant

  predicate OfApplication(a: Step) {
    || a.Create? || a.ConnectBegin? || a.ConnectPush? || a.Accept? || a.Write? || a.Read?
    || a.DestroyMark? || a.DestroyRelease?
  }

  /** Applications leave the loop thread's side alone, and every descriptor. */
  lemma AppLeavesLoop(s: State, a: Step)
    requires Can(s, a) && OfApplication(a)
    ensures var t := Apply(s, a);
      && t.role == s.role && t.pc == s.pc && t.conns == s.conns && t.polled == s.polled
      && (LockHeld(s.pc) ==> t.pending == s.pending)
      && forall q :: q in s.heap && q in t.heap ==> t.heap[q].fd == s.heap[q].fd
  {
  }

  lemma RoleStays(s: State, a: Step)
    requires Can(s, a)
    ensures Apply(s, a).role == s.role
  {
    hide Can, Apply;
    if OfApplication(a) { AppLeavesLoop(s, a); } else { LoopRole(s, a); }
  }

  lemma LoopRole(s: State, a: Step)
    requires Can(s, a) && !OfApplication(a)
    ensures Apply(s, a).role == s.role
  {
  }

  /** Every step has an effect of the listed kinds. */
  lemma StepFits(s: State, a: Step) returns (e: Effect)
    requires Inv(s) && Can(s, a)
    ensures Fits(s, Apply(s, a), e)
  {
    hide Inv, Can, Apply, Fits;
    if OnlyMoves(a) { e := MovesFit(s, a); }
    else if a.Create? || a.ConnectBegin? || a.ConnectPush? || a.Accept? { e := AppFits(s, a); }
    else if OfApplication(a) { e := HandleFits(s, a); }
    else if a.ShutPendingOne? || a.ShutConnsOne? { e := ShutFits(s, a); }
    else if a.AdoptOne? { e := AdoptFits(s, a.attempt); }
    else if a.SendOne? { e := SendFits(s, a.result); }
    else if a.Pop? { e := PopFits(s); }
    else if a.Writable? { e := WritableFits(s, a.fd, a.ok); }
    else if a.Store? { e := StoreFits(s); }
    else if a.Arrive? { e := ArriveFits(s, a.p, a.fd); }
    else if a.Publish? { e := PublishFits(s); }
    else if a.Unlink? { e := UnlinkFits(s); }
    else { e := RetireFits(s); }
  }

  lemma StepKeeps(s: State, a: Step)
    requires Inv(s) && Can(s, a)
    ensures Inv(Apply(s, a))
  {
    hide Inv, Can, Apply, Fits;
    var e := StepFits(s, a);
    FitsKeeps(s, Apply(s, a), e);
  }

  // ---------------------------------------------------------------- no step follows a dangling pointer

  /** Whatever a thread may do next, the memory it touches is live and the index it uses is in range. */
  lemma StepIsSafe(s: State, a: Step)
    requires Inv(s) && Enabled(s, a)
    ensures Safe(s, a)
  {
    Position(s);
    if OfApplication(a) {
      hide Safe;
      AppIsSafe(s, a);
    } else if Shutting(s.pc) || s.pc.Adopting? {
      hide Safe;
      EdgeIsSafe(s, a);
    } else {
      RunningTables(s);
      ConnsLive(s);
      PendingLive(s);
      if s.pc.Popping? { Owed(s, s.pc.con); }
      hide Inv, LivePending, LiveConns;
    }
  }

  lemma AppIsSafe(s: State, a: Step)
    requires Counted(s) && Placed(s.role, s.pc, s.conns, s.pending) && Enabled(s, a) && OfApplication(a)
    ensures Safe(s, a)
  {
    if a.Accept? {
      PendingLive(s);
      assert s.pending[0] == LivePending(s)[0];
    } else if !a.Create? && !a.ConnectPush? {
      LiveIffOwned(s, a.p);
    }
    hide Counted, Placed;
  }

  lemma AdoptIsSafe(s: State, r: Attempt)
    requires Counted(s) && Placed(s.role, s.pc, s.conns, s.pending) && Enabled(s, AdoptOne(r))
    ensures Safe(s, AdoptOne(r))
  {
    PendingLive(s);
    hide Counted;
    assert s.pending[s.pc.next] == LivePending(s)[0];
  }

  lemma ShutPendingIsSafe(s: State)
    requires Counted(s) && Placed(s.role, s.pc, s.conns, s.pending) && Enabled(s, ShutPendingOne)
    ensures Safe(s, ShutPendingOne)
  {
    PendingLive(s);
    hide Counted;
    assert s.pending[s.pc.left - 1] == LivePending(s)[s.pc.left - 1];
  }

  lemma ShutConnsIsSafe(s: State)
    requires Counted(s) && Placed(s.role, s.pc, s.conns, s.pending) && Enabled(s, ShutConnsOne)
    ensures Safe(s, ShutConnsOne)
  {
    ConnsLive(s);
    hide Counted;
    assert s.conns[s.pc.left - 1] == LiveConns(s)[s.pc.left - 1];
  }

  lemma EdgeIsSafe(s: State, a: Step)
    requires Counted(s) && Placed(s.role, s.pc, s.conns, s.pending) && Enabled(s, a) && !OfApplication(a)
    requires Shutting(s.pc) || s.pc.Adopting?
    ensures Safe(s, a)
  {
    hide Counted, Placed;
    if a.AdoptOne? { AdoptIsSafe(s, a.attempt); }
    else if a.ShutPendingOne? { ShutPendingIsSafe(s); }
    else if a.ShutConnsOne? { ShutConnsIsSafe(s); }
  }

  // ---------------------------------------------------------------- over whole runs

  lemma InitialHolds(role: Role, me: int)
    ensures Inv(Initial(role, me))
  {
  }

  lemma {:induction false} RunKeeps(s: State, steps: seq<Step>, t: State)
    requires Inv(s) && Leads(s, steps, t)
    ensures Inv(t)
    decreases |steps|
  {
    hide Inv, Can, Apply;
    if steps != [] {
      StepKeeps(s, steps[0]);
      RunKeeps(Apply(s, steps[0]), steps[1..], t);
    }
  }
}
