/** Two endpoints and the stream between them: what one application writes is what the other one
    reads. Each endpoint is a whole event loop with its applications (EventLoop.dfy); the network
    hands the receiving loop, in pieces of any size, a prefix of what the sending loop's kernel took. */
module Link {
  import opened Bytes
  import opened Connections
  import opened EventLoop
  import opened Ownership
  import opened Conduct
  import opened ConductLoop
  import opened Frames
  import opened Meaning
  import opened Runs

  /** Both loops and the connection objects at the two ends, p the sender's and q the receiver's.
      While p is live, `written` is what its application wrote and `took` what its kernel took of it;
      when the last reference to p is gone, they stay what they were. */
  datatype Pair = Pair(from: State, p: Ptr, to: State, q: Ptr, live: bool, written: seq<byte>, took: seq<byte>)

  datatype Turn = Near(a: Step) | Far(b: Step)

  /** Bytes the receiving loop has read from the network, in order. */
  ghost function Gave(j: Pair): seq<byte>
    requires j.q in j.to.heap
  {
    Get(j.to.wire, j.to.heap[j.q].fd)
  }

  /** The records of the sender's side are those of p. */
  ghost predicate Recorded(j: Pair) {
    && Settled(j.from, j.p)
    && j.written == j.from.heap[j.p].log.written
    && j.took == Get(j.from.out, j.from.heap[j.p].fd)
  }

  /** Both ends are connected, the receiver's is live, and the network has delivered a prefix of what
      it took. */
  ghost predicate Joined(j: Pair) {
    && (if j.live then Recorded(j) else j.took <= j.written)
    && Settled(j.to, j.q) && Gave(j) <= j.took
  }

  /** The sender's side after its state became s. */
  function Noted(j: Pair, s: State): Pair {
    if j.live && j.p in s.heap
    then j.(from := s, written := s.heap[j.p].log.written, took := Get(s.out, s.heap[j.p].fd))
    else j.(from := s, live := false)
  }

  function Moved(j: Pair, t: Turn): Pair
    requires if t.Near? then Can(j.from, t.a) else Can(j.to, t.b)
  {
    if t.Near? then Noted(j, Apply(j.from, t.a)) else j.(to := Apply(j.to, t.b))
  }

  /** Any turn of the sender's side, also the one that frees p, and any turn of the receiver's side
      that leaves q live. The network is a FIFO: what the receiving loop reads next is what comes next
      in what the sender's kernel took. */
  ghost predicate Legal(j: Pair, t: Turn)
    requires Joined(j)
  {
    match t
    case Near(a) => Can(j.from, a) && ConnectsOnce(j.from, a)
    case Far(b) =>
      && Can(j.to, b) && ConnectsOnce(j.to, b) && j.q in Apply(j.to, b).heap
      && Gave(j) + ReadBy(b, j.to.heap[j.q].fd) <= j.took
  }

  ghost predicate Good(j: Pair) {
    Inv(j.from) && Conducts(j.from) && Inv(j.to) && Conducts(j.to) && Joined(j)
  }

  lemma NearKeeps(j: Pair, a: Step)
    requires Good(j) && Legal(j, Near(a))
    ensures Good(Moved(j, Near(a)))
  {
    hide Inv, Conducts, Can, Apply, ConnectsOnce, Settled;
    StepConducts(j.from, a);
    if j.live {
      NearBalance(j);
      if j.p in Apply(j.from, a).heap { SettledStep(j.from, a, j.p); }
    }
  }

  /** Every turn keeps both sides' rules and the order of the streams. */
  lemma TurnKeeps(j: Pair, t: Turn)
    requires Good(j) && Legal(j, t)
    ensures Good(Moved(j, t))
    ensures j.took <= Moved(j, t).took && Gave(j) <= Gave(Moved(j, t))
  {
    hide Inv, Conducts, Can, Apply, ConnectsOnce;
    match t
    case Near(a) =>
      NearKeeps(j, a);
      if j.live && j.p in Apply(j.from, a).heap { SettledStep(j.from, a, j.p); }
    case Far(b) => SettledStep(j.to, b, j.q);
  }

  ghost predicate Unfolds(j: Pair, turns: seq<Turn>, k: Pair)
    requires Joined(j)
    decreases |turns|
  {
    if turns == [] then j == k
    else Legal(j, turns[0]) && Joined(Moved(j, turns[0])) && Unfolds(Moved(j, turns[0]), turns[1..], k)
  }

  /** The network takes nothing back: what the sender's kernel took, and what the receiving loop has
      read, only ever grow. */
  lemma {:induction false} StreamsGrow(j: Pair, turns: seq<Turn>, k: Pair)
    requires Good(j) && Unfolds(j, turns, k)
    ensures Good(k) && j.took <= k.took && Gave(j) <= Gave(k)
    decreases |turns|
  {
    hide Inv, Conducts, Can, Apply, ConnectsOnce;
    if turns != [] {
      TurnKeeps(j, turns[0]);
      StreamsGrow(Moved(j, turns[0]), turns[1..], k);
    }
  }

  /** Where a link begins: a connection the client's loop has just connected, and one the server's
      loop has just accepted. */
  lemma AdoptedEnd(s: State, r: Attempt) returns (p: Ptr)
    requires Inv(s) && Conducts(s) && Can(s, AdoptOne(r)) && (r.UnderWay? || r.Connected?) && r.registered
    ensures var t := Apply(s, AdoptOne(r));
      Settled(t, p) && Get(t.out, t.heap[p].fd) == [] == Get(t.wire, t.heap[p].fd)
  {
    hide Inv, Conducted, Single, Wired, Watched, Swept, Ordered, LivePending, Can, Apply, OnDiagram, Adoption;
    hide Rejected, Adopted;
    var q, c := AdoptFacts(s, r);
    p := q;
    AdoptedHere(s, Apply(s, AdoptOne(r)), p, c, r);
  }

  lemma AdoptedHere(s: State, t: State, p: Ptr, c: Con, r: Attempt)
    requires Inv(s) && Conducts(s) && Adoption(s, t, p, c, r) && (r.UnderWay? || r.Connected?) && r.registered
    requires Rejected(s, t, p, c) || Adopted(s, t, p, c)
    ensures Settled(t, p) && Get(t.out, t.heap[p].fd) == [] == Get(t.wire, t.heap[p].fd)
  {
    hide Inv, Conducted, Single, Wired, Watched, Swept, Ordered, LivePending, OnDiagram, Release;
    assert c.state != Failed && c.fd == r.fd;
    hide TryConnect;
    AdoptingOne(s, p);
    TryConnectBehaves(s.heap[p], r);
    AdoptSeats(s, t, p);
  }

  lemma ArrivedEnd(s: State, q: Ptr, fd: int)
    requires Inv(s) && Can(s, Arrive(q, fd))
    ensures var t := Apply(s, Arrive(q, fd));
      Settled(t, q) && Get(t.out, t.heap[q].fd) == [] == Get(t.wire, t.heap[q].fd)
  {
    hide Inv;
  }

  /** Bytes on their way: taken by the sender's kernel, not yet read by the receiving loop. */
  ghost function Channel(j: Pair): seq<byte>
    requires Joined(j)
  {
    j.took[|Gave(j)|..]
  }

  /** Bytes written and not yet taken by the kernel. */
  ghost function Unsent(j: Pair): seq<byte>
    requires j.p in j.from.heap && Unpopped(j.from.pc, j.p) <= |j.from.heap[j.p].outQ.items|
  {
    j.from.heap[j.p].outQ.items[Unpopped(j.from.pc, j.p)..]
  }

  lemma NearBalance(j: Pair)
    requires Inv(j.from) && Conducts(j.from) && Recorded(j)
    ensures j.p in j.from.heap && Unpopped(j.from.pc, j.p) <= |j.from.heap[j.p].outQ.items|
    ensures j.written == j.took + Unsent(j)
  {
    hide Conducted, Single, Watched, Swept, Ordered;
    Owed(j.from, j.p);
    hide Inv;
    WiredAt(j.from, j.p);
  }

  lemma FarBalance(j: Pair)
    requires Good(j)
    ensures var d := j.to.heap[j.q];
      Gave(j) == d.log.delivered + d.inQ.items + Chunk(j.to.pc, d.fd)
  {
    hide Inv, Conducted, Single, Watched, Swept, Ordered;
    WiredAt(j.to, j.q);
  }

  lemma ReachedIsGood(j: Pair)
    requires PolitelyReachable(j.from) && PolitelyReachable(j.to) && Joined(j)
    ensures Good(j)
  {
    hide PolitelyReachable, Inv, Conducts, Joined;
    PoliteInv(j.from);
    PoliteInv(j.to);
  }

  lemma AllAccounted(k: Pair)
    requires Good(k)
    ensures Joined(k)
    ensures var d := k.to.heap[k.q];
      && k.took == d.log.delivered + d.inQ.items + Chunk(k.to.pc, d.fd) + Channel(k)
      && d.log.delivered <= k.took <= k.written
    ensures k.live ==>
      && k.p in k.from.heap && k.written == k.from.heap[k.p].log.written
      && Unpopped(k.from.pc, k.p) <= |k.from.heap[k.p].outQ.items|
      && k.written == k.took + Unsent(k)
  {
    hide Inv, Conducts;
    FarBalance(k);
    assert k.took == Gave(k) + Channel(k);
    if k.live { NearBalance(k); }
  }

  /** End to end, for as long as the receiver's end is live: after any interleaving of writes, passes
      of both loops, partial sends, reads of any size, growth, application reads and closes, also
      after the sender's end has been destroyed and freed, what the sender's kernel took is what was
      read, plus what waits in the receiver's queue or on its way into it, plus what the network
      holds; in this order and with nothing in between. What was read is a prefix of what was written,
      and while the sender's end is live the rest of what was written still waits there. */
  lemma EndToEnd(j: Pair, turns: seq<Turn>, k: Pair)
    requires PolitelyReachable(j.from) && PolitelyReachable(j.to) && Joined(j) && Unfolds(j, turns, k)
    ensures Joined(k)
    ensures var d := k.to.heap[k.q];
      && k.took == d.log.delivered + d.inQ.items + Chunk(k.to.pc, d.fd) + Channel(k)
      && d.log.delivered <= k.took <= k.written
    ensures k.live ==>
      && k.p in k.from.heap && k.written == k.from.heap[k.p].log.written
      && Unpopped(k.from.pc, k.p) <= |k.from.heap[k.p].outQ.items|
      && k.written == k.took + Unsent(k)
  {
    ReachedIsGood(j);
    hide *;
    StreamsGrow(j, turns, k);
    AllAccounted(k);
  }

  /** With nothing left in the network and no chunk under way, one read with room for the in-queue hands
      out everything that was still missing: the receiver then has all the sender's kernel ever took. */
  lemma ReadDrains(k: Pair, n: nat)
    requires PolitelyReachable(k.from) && PolitelyReachable(k.to) && Joined(k) && Legal(k, Far(Read(k.q, n)))
    requires Channel(k) == [] && Chunk(k.to.pc, k.to.heap[k.q].fd) == [] && n >= |k.to.heap[k.q].inQ.items|
    ensures var l := Moved(k, Far(Read(k.q, n)));
      && k.q in l.to.heap && l.took == k.took
      && l.to.heap[k.q].log.delivered == k.took && l.to.heap[k.q].inQ.items == []
  {
    assert Can(k.to, Read(k.q, n));
    hide *;
    ReachedIsGood(k);
    AllAccounted(k);
    var d := ReadYields(k.to, k.q, n);
    DrainedBy(k, n, d);
  }

  lemma DrainedBy(k: Pair, n: nat, d: Con)
    requires Can(k.to, Read(k.q, n)) && k.q in k.to.heap && n >= |k.to.heap[k.q].inQ.items|
    requires var c, m := k.to.heap[k.q], Least(n, |k.to.heap[k.q].inQ.items|);
      && Apply(k.to, Read(k.q, n)) == k.to.(heap := k.to.heap[k.q := d])
      && d.log.delivered == c.log.delivered + c.inQ.items[..m] && d.inQ.items == c.inQ.items[m..]
      && k.took == c.log.delivered + c.inQ.items + [] + []
    ensures var l := Moved(k, Far(Read(k.q, n)));
      && k.q in l.to.heap && l.took == k.took
      && l.to.heap[k.q].log.delivered == k.took && l.to.heap[k.q].inQ.items == []
  {
    hide Can, Apply;
    var c := k.to.heap[k.q];
    assert c.inQ.items[..|c.inQ.items|] == c.inQ.items;
  }

  lemma {:induction false} StaysFreed(j: Pair, turns: seq<Turn>, k: Pair)
    requires Joined(j) && !j.live && Unfolds(j, turns, k)
    ensures k.took == j.took && k.written == j.written
    decreases |turns|
  {
    hide Can, Apply, ConnectsOnce;
    if turns != [] { StaysFreed(Moved(j, turns[0]), turns[1..], k); }
  }

  lemma SentIsTaken(j: Pair)
    requires Good(j) && j.live
    ensures j.p in j.from.heap && j.took == j.from.heap[j.p].log.sent && j.written == j.from.heap[j.p].log.written
  {
    hide Inv, Conducted, Single, Watched, Swept, Ordered;
    WiredAt(j.from, j.p);
  }

  /** The turn that frees p, and everything after it: the bytes that p had sent by then, and no others,
      are in order what the receiver has read, what waits in its queue or on its way into it, and what
      the network still holds. Nothing of it is lost with p, and nothing that reuses p's memory or its
      descriptor gets in between. */
  lemma FreedLeavesAllSent(j: Pair, a: Step, turns: seq<Turn>, k: Pair)
    requires PolitelyReachable(j.from) && PolitelyReachable(j.to) && Joined(j) && j.live
    requires Legal(j, Near(a)) && j.p !in Apply(j.from, a).heap && Unfolds(j, [Near(a)] + turns, k)
    ensures j.p in j.from.heap && Joined(k) && Gave(j) <= Gave(k)
    ensures var d := k.to.heap[k.q];
      j.from.heap[j.p].log.sent == d.log.delivered + d.inQ.items + Chunk(k.to.pc, d.fd) + Channel(k)
  {
    assert ([Near(a)] + turns)[1..] == turns;
    assert Unfolds(Moved(j, Near(a)), turns, k) && !Moved(j, Near(a)).live && Moved(j, Near(a)).took == j.took;
    hide *;
    ReachedIsGood(j);
    SentIsTaken(j);
    StreamsGrow(j, [Near(a)] + turns, k);
    TurnKeeps(j, Near(a));
    GoodIsJoined(Moved(j, Near(a)));
    StaysFreed(Moved(j, Near(a)), turns, k);
    AllAccounted(k);
  }

  lemma GoodIsJoined(j: Pair)
    requires Good(j)
    ensures Joined(j)
  {
  }
}
