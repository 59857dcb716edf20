/** The connection object of asock_impl.h, its reference-counted lifetime (asock_impl.c), and the
    table lookups that asock_service.c and asock_server.c share. Memory is a map from live pointers
    to connections: freeing removes the key, so a dangling use shows up as a missing key. */
module Connections {
  import opened Rings
  import opened Bytes
  import opened Vectors

  type Ptr = nat

  datatype ConState = Idle | InProgress | Established | Failed

  type ByteQueue = q: Ring<byte> | q.Valid() witness Ring(1, 0, [])

  /** What happened to a connection. No code reads this; it is what the theorems speak about. */
  datatype Log = Log(
    published: seq<ConState>,  // every value assigned to m_state while others could see it
    connects: nat,             // calls of connect; on the server, 1 for being accepted by the kernel
    written: seq<byte>,        // bytes the application wrote
    sent: seq<byte>,           // bytes the kernel took
    delivered: seq<byte>)      // bytes the application read

  datatype Con = Con(
    id: nat, fd: int, master: int, state: ConState, disconnect: bool, refs: nat,
    inQ: ByteQueue, outQ: ByteQueue, log: Log)
  {
    function Publish(s: ConState): Con {
      this.(state := s, log := log.(published := log.published + [s]))
    }
  }

  type Heap = map<Ptr, Con>

  /** asock_fcreate_asock; `visible` lists the states others see of the new object. */
  function NewCon(id: nat, fd: int, master: int, state: ConState, connects: nat): Con {
    Con(id, fd, master, state, false, 1, Ring(4096, 0, []), Ring(4096, 0, []), Log([state], connects, [], [], []))
  }

  /** asock_destroy_asock: give up one reference, and free with the last one. */
  function Release(h: Heap, p: Ptr): Heap
    requires p in h && h[p].refs > 0
  {
    if h[p].refs == 1 then map q | q in h && q != p :: h[q]
    else h[p := h[p].(disconnect := true, refs := h[p].refs - 1)]
  }

  /** The end of close_connection: mark the connection failed and give up the table's reference. */
  function CloseEntry(h: Heap, p: Ptr): Heap
    requires p in h && h[p].refs > 0
  {
    Release(h[p := h[p].Publish(Failed)], p)
  }

  ghost predicate AllIn(h: Heap, ps: seq<Ptr>) {
    forall i :: 0 <= i < |ps| ==> ps[i] in h
  }

  /** index_of_con_by_sock_desc: the first entry with the descriptor, |ps| for -1. */
  function FindFd(h: Heap, ps: seq<Ptr>, fd: int): (i: nat)
    requires AllIn(h, ps)
    ensures i <= |ps|
    ensures i < |ps| ==> h[ps[i]].fd == fd
    ensures forall j :: 0 <= j < i ==> h[ps[j]].fd != fd
  {
    if ps == [] || h[ps[0]].fd == fd then 0
    else
      assert AllIn(h, ps[1..]);
      1 + FindFd(h, ps[1..], fd)
  }

  /** index_of_con: the first entry with the connection id, |ps| for -1. */
  function FindId(h: Heap, ps: seq<Ptr>, id: nat): (i: nat)
    requires AllIn(h, ps)
    ensures i <= |ps|
    ensures i < |ps| ==> h[ps[i]].id == id
    ensures forall j :: 0 <= j < i ==> h[ps[j]].id != id
  {
    if ps == [] || h[ps[0]].id == id then 0
    else
      assert AllIn(h, ps[1..]);
      1 + FindId(h, ps[1..], id)
  }

  /** The first half of close_connection: take the descriptor's connection out of m_new_connections. */
  function DropFd(h: Heap, ps: seq<Ptr>, fd: int): seq<Ptr>
    requires AllIn(h, ps)
  {
    var i := FindFd(h, ps, fd);
    if i < |ps| then Without(ps, i) else ps
  }

  /** The order in which the sweeps look at a table. */
  function Backwards<T>(s: seq<T>): seq<T> { if s == [] then [] else Backwards(s[1..]) + [s[0]] }

  /** ps without the items in gone, in order. */
  function Sift(ps: seq<Ptr>, gone: set<Ptr>): seq<Ptr> {
    if ps == [] then []
    else if ps[0] in gone then Sift(ps[1..], gone)
    else [ps[0]] + Sift(ps[1..], gone)
  }

  lemma {:induction false} SiftNone(ps: seq<Ptr>, gone: set<Ptr>)
    requires forall i :: 0 <= i < |ps| ==> ps[i] !in gone
    ensures Sift(ps, gone) == ps
  {
    if ps != [] { SiftNone(ps[1..], gone); }
  }

  lemma {:induction false} SiftMore(ps: seq<Ptr>, gone: set<Ptr>, more: set<Ptr>)
    ensures Sift(Sift(ps, gone), more) == Sift(ps, gone + more)
  {
    if ps != [] { SiftMore(ps[1..], gone, more); }
  }

  lemma {:induction false} SiftMembers(ps: seq<Ptr>, gone: set<Ptr>, p: Ptr)
    ensures p in Sift(ps, gone) <==> p in ps && p !in gone
  {
    if ps != [] { SiftMembers(ps[1..], gone, p); }
  }

  lemma {:induction false} SiftDistinct(ps: seq<Ptr>, gone: set<Ptr>)
    requires Distinct(ps)
    ensures Distinct(Sift(ps, gone))
  {
    if ps != [] {
      SiftDistinct(ps[1..], gone);
      SiftMembers(ps[1..], gone, ps[0]);
    }
  }

  predicate Distinct(ps: seq<Ptr>) { forall i, j :: 0 <= i < j < |ps| ==> ps[i] != ps[j] }

  /** Taking out the one occurrence of p. */
  lemma {:induction false} SiftOne(ps: seq<Ptr>, i: nat)
    requires Distinct(ps) && i < |ps|
    ensures Sift(ps, {ps[i]}) == Without(ps, i)
  {
    if i == 0 {
      SiftNone(ps[1..], {ps[0]});
    } else {
      SiftOne(ps[1..], i - 1);
      assert Without(ps, i) == [ps[0]] + Without(ps[1..], i - 1);
    }
  }

  /** An item at two places counts twice. */
  lemma TwoPlaces<T>(ps: seq<T>, i: nat, j: nat)
    requires i < j < |ps| && ps[i] == ps[j]
    ensures multiset(ps)[ps[i]] >= 2
  {
    assert ps == ps[..i] + [ps[i]] + ps[i + 1..];
    assert ps[i + 1..][j - i - 1] in multiset(ps[i + 1..]);
  }

  lemma WithoutMultiset<T>(s: seq<T>, i: nat)
    requires i < |s|
    ensures multiset(s) == multiset(Without(s, i)) + multiset{s[i]}
  {
    assert s == s[..i] + [s[i]] + s[i + 1..];
  }
}
