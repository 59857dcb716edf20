/** The loop thread's own code over its tables, statement by statement: the lookups, closing a
    connection, the two backward sweeps that erase while they run, adoption, accept and shutdown.
    EventLoop.dfy cuts the same code into steps for interleaving; here each routine runs alone and
    is proved to compute what it should on the whole tables. */
module LoopTables {
  import opened SizeT
  import opened Vectors
  import opened Connections
  import opened EventLoop

  ghost predicate FdsApart(h: Heap) {
    forall p, q :: p in h && q in h && p != q && h[p].fd >= 0 ==> h[p].fd != h[q].fd
  }

  ghost predicate Referenced(h: Heap, ps: seq<Ptr>) {
    forall i :: 0 <= i < |ps| ==> ps[i] in h && h[ps[i]].refs > 0
  }

  /** The first entry with p's descriptor is p. */
  lemma FindsOwn(h: Heap, ps: seq<Ptr>, i: nat)
    requires FdsApart(h) && AllIn(h, ps) && Distinct(ps) && i < |ps| && h[ps[i]].fd >= 0
    ensures FindFd(h, ps, h[ps[i]].fd) == i
  {
  }

  /** Dropping p's descriptor is sifting p out. */
  lemma DropIsSift(h: Heap, ps: seq<Ptr>, p: Ptr)
    requires FdsApart(h) && AllIn(h, ps) && Distinct(ps) && p in h && h[p].fd >= 0
    ensures DropFd(h, ps, h[p].fd) == Sift(ps, {p})
  {
    if p in ps {
      var i :| 0 <= i < |ps| && ps[i] == p;
      FindsOwn(h, ps, i);
      SiftOne(ps, i);
    } else {
      SiftNone(ps, {p});
    }
  }

  /** What closing the entry of p leaves of it: nothing, or a failed connection others still hold. */
  ghost predicate Buried(h: Heap, k: Heap, p: Ptr)
    requires p in h && h[p].refs > 0
  {
    if h[p].refs == 1 then p !in k
    else p in k && k[p] == h[p].Publish(Failed).(disconnect := true, refs := h[p].refs - 1)
  }

  lemma CloseEntryBuries(h: Heap, p: Ptr)
    requires p in h && h[p].refs > 0
    ensures Buried(h, CloseEntry(h, p), p)
    ensures forall q :: q != p ==> (q in CloseEntry(h, p) <==> q in h)
    ensures forall q :: q != p && q in h ==> CloseEntry(h, p)[q] == h[q]
  {
  }

  lemma {:induction false} SiftPrefix(ps: seq<Ptr>, gone: set<Ptr>, k: nat)
    requires k <= |ps| && forall i :: 0 <= i < k ==> ps[i] !in gone
    ensures k <= |Sift(ps, gone)| && Sift(ps, gone)[..k] == ps[..k]
  {
    if k > 0 {
      SiftPrefix(ps[1..], gone, k - 1);
      assert Sift(ps, gone)[..k] == [ps[0]] + Sift(ps[1..], gone)[..k - 1];
    }
  }

  /** The entries among ps that a predicate picks. */
  ghost function Picked(ps: seq<Ptr>, pick: Ptr -> bool): set<Ptr> {
    set p | p in ps && pick(p)
  }

  /** Everybody in gone was closed once; everybody else is as before. */
  ghost predicate Cleared(h: Heap, gone: set<Ptr>, k: Heap) {
    && (forall p :: p in k ==> p in h)
    && (forall p :: p in gone ==> p in h && h[p].refs > 0 && Buried(h, k, p))
    && (forall p :: p in h && p !in gone ==> p in k && k[p] == h[p])
  }

  /** The tables fit the heap: what Valid says about values. */
  ghost predicate Sound(h: Heap, conns: seq<Ptr>, pending: seq<Ptr>) {
    && FdsApart(h) && Referenced(h, conns) && Distinct(conns) && Referenced(h, pending) && Distinct(pending)
  }

  /** Closing entry i of sound tables takes it out of both tables, leaves them sound, and touches
      nobody else. */
  lemma ClosingEntry(h: Heap, conns: seq<Ptr>, pending: seq<Ptr>, i: nat)
    requires Sound(h, conns, pending) && i < |conns| && h[conns[i]].fd >= 0
    ensures var p := conns[i];
      && FindFd(h, conns, h[p].fd) == i && Without(conns, i) == Sift(conns, {p})
      && DropFd(h, pending, h[p].fd) == Sift(pending, {p})
      && Sound(CloseEntry(h, p), Sift(conns, {p}), Sift(pending, {p}))
  {
    var p := conns[i];
    FindsOwn(h, conns, i);
    SiftOne(conns, i);
    DropIsSift(h, pending, p);
    CloseEntryBuries(h, p);
    SiftDistinct(conns, {p});
    SiftDistinct(pending, {p});
    SiftedReferenced(h, CloseEntry(h, p), conns, p);
    SiftedReferenced(h, CloseEntry(h, p), pending, p);
    FdsStayApart(h, p);
  }

  lemma FdsStayApart(h: Heap, p: Ptr)
    requires FdsApart(h) && p in h && h[p].refs > 0
    ensures FdsApart(CloseEntry(h, p))
  {
  }

  lemma SiftedReferenced(h: Heap, k: Heap, ps: seq<Ptr>, p: Ptr)
    requires Referenced(h, ps) && forall q :: q != p && q in h ==> q in k && k[q] == h[q]
    ensures Referenced(k, Sift(ps, {p}))
  {
    var r := Sift(ps, {p});
    forall i | 0 <= i < |r| ensures r[i] in k && k[r[i]].refs > 0 { SiftMembers(ps, {p}, r[i]); }
  }

  lemma ClearedMore(h: Heap, gone: set<Ptr>, k: Heap, p: Ptr)
    requires Cleared(h, gone, k) && p in h && p !in gone && h[p].refs > 0
    ensures p in k && k[p] == h[p] && Cleared(h, gone + {p}, CloseEntry(k, p))
  {
    CloseEntryBuries(k, p);
    forall q | q in gone ensures Buried(h, CloseEntry(k, p), q) { assert Buried(h, k, q); }
  }

  /** What the sweep has not reached yet is where it was. */
  lemma Untouched(cs: seq<Ptr>, k: nat, gone: set<Ptr>, pick: Ptr -> bool)
    requires Distinct(cs) && k < |cs| && gone == Picked(cs[k + 1..], pick)
    ensures cs[k] !in gone && |Sift(cs, gone)| > k && Sift(cs, gone)[k] == cs[k]
  {
    forall i | 0 <= i < k + 1 ensures cs[i] !in gone {
      var rest := cs[k + 1..];
      forall j | 0 <= j < |rest| ensures rest[j] != cs[i] { assert rest[j] == cs[k + 1 + j]; }
    }
    SiftPrefix(cs, gone, k + 1);
    assert Sift(cs, gone)[..k + 1][k] == cs[..k + 1][k];
  }

  lemma PickedStep(cs: seq<Ptr>, k: nat, pick: Ptr -> bool)
    requires k < |cs|
    ensures Picked(cs[k..], pick) == Picked(cs[k + 1..], pick) + (if pick(cs[k]) then {cs[k]} else {})
    ensures Backwards(cs[k..]) == Backwards(cs[k + 1..]) + [cs[k]]
  {
    assert cs[k..] == [cs[k]] + cs[k + 1..];
  }

  /** A sweep over tables cs and ps has k entries left and has closed those in gone; heap, conns and
      pending are what the tables are now. */
  ghost predicate Swept(h: Heap, cs: seq<Ptr>, ps: seq<Ptr>, gone: set<Ptr>,
                        heap: Heap, conns: seq<Ptr>, pending: seq<Ptr>)
  {
    && Sound(heap, conns, pending) && conns == Sift(cs, gone) && pending == Sift(ps, gone) && Cleared(h, gone, heap)
  }

  /** The entry under the sweep index is the original one, and as it was. */
  lemma UnderIndex(h: Heap, cs: seq<Ptr>, ps: seq<Ptr>, gone: set<Ptr>, k: nat, pick: Ptr -> bool,
                   heap: Heap, conns: seq<Ptr>, pending: seq<Ptr>)
    requires Swept(h, cs, ps, gone, heap, conns, pending) && Distinct(cs) && Referenced(h, cs) && k < |cs|
    requires gone == Picked(cs[k + 1..], pick)
    ensures k < |conns| && conns[k] == cs[k] && cs[k] !in gone
    ensures cs[k] in h && cs[k] in heap && heap[cs[k]] == h[cs[k]]
  {
    Untouched(cs, k, gone, pick);
  }

  /** Closing the entry under the sweep index. */
  lemma Advance(h: Heap, cs: seq<Ptr>, ps: seq<Ptr>, gone: set<Ptr>, k: nat,
                heap: Heap, conns: seq<Ptr>, pending: seq<Ptr>)
    requires Swept(h, cs, ps, gone, heap, conns, pending)
    requires k < |conns| && k < |cs| && conns[k] == cs[k] && cs[k] !in gone && cs[k] in h && h[cs[k]].refs > 0
    requires h[cs[k]].fd >= 0
    ensures Referenced(heap, conns) && Referenced(heap, pending)
    ensures var p := cs[k];
      && p in heap && heap[p] == h[p] && FindFd(heap, conns, h[p].fd) == k
      && Swept(h, cs, ps, gone + {p}, CloseEntry(heap, p), Without(conns, k), DropFd(heap, pending, h[p].fd))
  {
    var p := cs[k];
    ClearedMore(h, gone, heap, p);
    ClosingEntry(heap, conns, pending, k);
    SiftMore(cs, gone, {p});
    SiftMore(ps, gone, {p});
  }

  lemma {:induction false} SiftShorter(ps: seq<Ptr>, gone: set<Ptr>)
    ensures |Sift(ps, gone)| <= |ps|
  {
    if ps != [] { SiftShorter(ps[1..], gone); }
  }

  lemma SweepStarts(h: Heap, cs: seq<Ptr>, ps: seq<Ptr>, pick: Ptr -> bool)
    requires Sound(h, cs, ps)
    ensures Swept(h, cs, ps, {}, h, cs, ps) && Picked(cs[|cs|..], pick) == {} && Backwards(cs[|cs|..]) == []
  {
    SiftNone(cs, {});
    SiftNone(ps, {});
  }

  lemma SweepEnds(h: Heap, cs: seq<Ptr>, ps: seq<Ptr>, gone: set<Ptr>, heap: Heap, conns: seq<Ptr>, pending: seq<Ptr>)
    requires Swept(h, cs, ps, gone, heap, conns, pending)
    ensures Sound(heap, conns, pending) && Cleared(h, gone, heap) && cs[0..] == cs
    ensures conns == Sift(cs, gone) && pending == Sift(ps, gone) && |conns| <= |cs| && |pending| <= |ps|
  {
    SiftShorter(cs, gone);
    SiftShorter(ps, gone);
  }

  /** Connections that somebody has asked to close. */
  ghost function Marked(h: Heap): Ptr -> bool { p => p in h && h[p].disconnect }

  /** The state of a close sweep with k entries left. */
  ghost predicate ClosesUpTo(h: Heap, cs: seq<Ptr>, ps: seq<Ptr>, k: nat, gone: set<Ptr>, visited: seq<Ptr>,
                             heap: Heap, conns: seq<Ptr>, pending: seq<Ptr>)
  {
    && k <= |cs| && Referenced(h, cs) && Distinct(cs) && (forall i :: 0 <= i < |cs| ==> h[cs[i]].fd >= 0)
    && visited == Backwards(cs[k..]) && gone == Picked(cs[k..], Marked(h))
    && Swept(h, cs, ps, gone, heap, conns, pending)
  }

  lemma CloseBegins(h: Heap, cs: seq<Ptr>, ps: seq<Ptr>, k: nat, gone: set<Ptr>, visited: seq<Ptr>,
                    heap: Heap, conns: seq<Ptr>, pending: seq<Ptr>)
    requires k < |cs| && ClosesUpTo(h, cs, ps, k + 1, gone, visited, heap, conns, pending)
    ensures k < |conns| && conns[k] == cs[k] && cs[k] in heap && heap[cs[k]].fd >= 0
    ensures Referenced(heap, conns) && Referenced(heap, pending)
    ensures cs[k] in h && heap[cs[k]] == h[cs[k]]
  {
    hide Swept, Sound, Picked, Marked, Backwards;
    UnderIndex(h, cs, ps, gone, k, Marked(h), heap, conns, pending);
    Advance(h, cs, ps, gone, k, heap, conns, pending);
  }

  lemma CloseEnds(h: Heap, cs: seq<Ptr>, ps: seq<Ptr>, k: nat, gone: set<Ptr>, visited: seq<Ptr>,
                  heap: Heap, conns: seq<Ptr>, pending: seq<Ptr>)
    requires k < |cs| && ClosesUpTo(h, cs, ps, k + 1, gone, visited, heap, conns, pending)
    requires cs[k] in h && h[cs[k]].disconnect
    ensures cs[k] in heap && heap[cs[k]].refs > 0 && heap[cs[k]] == h[cs[k]]
    ensures Referenced(heap, conns) && Referenced(heap, pending) && k < |conns| && conns[k] == cs[k]
    ensures FindFd(heap, conns, h[cs[k]].fd) == k
    ensures ClosesUpTo(h, cs, ps, k, gone + {cs[k]}, visited + [cs[k]],
                       CloseEntry(heap, cs[k]), Without(conns, k), DropFd(heap, pending, h[cs[k]].fd))
  {
    assert Marked(h)(cs[k]);
    hide Swept, Sound, Picked, Marked, Backwards, Without, DropFd, CloseEntry;
    UnderIndex(h, cs, ps, gone, k, Marked(h), heap, conns, pending);
    Advance(h, cs, ps, gone, k, heap, conns, pending);
    PickedStep(cs, k, Marked(h));
  }

  lemma CloseSkips(h: Heap, cs: seq<Ptr>, ps: seq<Ptr>, k: nat, gone: set<Ptr>, visited: seq<Ptr>,
                   heap: Heap, conns: seq<Ptr>, pending: seq<Ptr>)
    requires k < |cs| && ClosesUpTo(h, cs, ps, k + 1, gone, visited, heap, conns, pending)
    requires cs[k] in h && !h[cs[k]].disconnect
    ensures ClosesUpTo(h, cs, ps, k, gone, visited + [cs[k]], heap, conns, pending)
  {
    assert !Marked(h)(cs[k]);
    hide Swept, Sound, Picked, Marked, Backwards;
    PickedStep(cs, k, Marked(h));
    assert gone + {} == gone;
  }

  /** The loop offers what c's out-queue holds to the kernel. */
  predicate Offered(c: Con, me: int) { c.outQ.items != [] && c.master == me && c.state == Established }

  /** Connections whose send fails, given what the kernel says for each. */
  ghost function Failing(h: Heap, me: int, answers: map<Ptr, SendResult>): Ptr -> bool {
    p => p in h && h[p].outQ.items != [] && h[p].master == me && h[p].state == Established
         && p in answers && answers[p].Broken?
  }

  /** The kernel took n bytes. */
  function Sent(c: Con, n: nat): Con
    requires n <= |c.outQ.items|
  {
    c.(log := c.log.(sent := c.log.sent + c.outQ.items[..n]))
  }

  /** A connection after its turn in a send sweep that did not fail: what the kernel took is recorded as
      sent and gone from the front of the out-queue. */
  function Flushed(c: Con, me: int, answer: SendResult): (d: Con)
    ensures d == c.(outQ := d.outQ, log := c.log.(sent := d.log.sent))
    ensures
      if c.outQ.items != [] && c.master == me && c.state == Established && answer.Accepted?
         && answer.n <= |c.outQ.items|
      then d.log.sent == c.log.sent + c.outQ.items[..answer.n] && d.outQ.items == c.outQ.items[answer.n..]
      else d == c
  {
    if c.outQ.items != [] && c.master == me && c.state == Established && answer.Accepted?
       && answer.n <= |c.outQ.items|
    then Sent(c, answer.n).(outQ := c.outQ.Dequeue(answer.n))
    else c
  }

  /** The heap after a send sweep has served the entries in served. */
  ghost function Serving(h: Heap, served: seq<Ptr>, me: int, answers: map<Ptr, SendResult>): Heap {
    map p | p in h :: if p in served && p in answers then Flushed(h[p], me, answers[p]) else h[p]
  }

  /** send answers within what it was offered: the head window, cut to a uint32_t. */
  ghost predicate Answered(h: Heap, ps: seq<Ptr>, answers: map<Ptr, SendResult>) {
    forall i :: 0 <= i < |ps| ==> ps[i] in h && ps[i] in answers && Plausible(h[ps[i]], answers[ps[i]])
  }

  predicate Plausible(c: Con, answer: SendResult) { answer.Accepted? ==> answer.n <= c.outQ.Window() % LIMIT32 }

  lemma ServingStep(h: Heap, cs: seq<Ptr>, k: nat, me: int, answers: map<Ptr, SendResult>)
    requires Referenced(h, cs) && k < |cs| && Answered(h, cs, answers)
    ensures var p := cs[k];
      && p in answers && Plausible(h[p], answers[p])
      && Serving(h, cs[k..], me, answers) == Serving(h, cs[k + 1..], me, answers)[p := Flushed(h[p], me, answers[p])]
      && (Failing(h, me, answers)(p) <==> Offered(h[p], me) && answers[p].Broken?)
      && (Flushed(h[p], me, answers[p]) == h[p] || (Offered(h[p], me) && answers[p].Accepted?))
  {
    assert cs[k..] == [cs[k]] + cs[k + 1..];
  }

  lemma ServingStarts(h: Heap, cs: seq<Ptr>, me: int, answers: map<Ptr, SendResult>)
    ensures Serving(h, cs[|cs|..], me, answers) == h
  {
  }

  lemma ServingLeaves(h: Heap, cs: seq<Ptr>, k: nat, me: int, answers: map<Ptr, SendResult>)
    requires Distinct(cs) && Referenced(h, cs) && k < |cs|
    ensures var g := Serving(h, cs[k + 1..], me, answers);
      cs[k] in g && g[cs[k]] == h[cs[k]] && Referenced(g, cs)
  {
    var rest := cs[k + 1..];
    forall j | 0 <= j < |rest| ensures rest[j] != cs[k] { assert rest[j] == cs[k + 1 + j]; }
  }

  /** Serving one connection on both sides. */
  lemma ClearedServe(g: Heap, gone: set<Ptr>, p: Ptr, c: Con, heap: Heap)
    requires Cleared(g, gone, heap) && p in heap && p in g && p !in gone && c.refs == g[p].refs
    ensures Cleared(g[p := c], gone, heap[p := c])
  {
    forall q | q in gone ensures q in g && g[q].refs > 0 && Buried(g[p := c], heap[p := c], q) {
      assert Buried(g, heap, q);
    }
  }

  lemma SoundServe(heap: Heap, conns: seq<Ptr>, pending: seq<Ptr>, p: Ptr, c: Con)
    requires Sound(heap, conns, pending) && p in heap && c.fd == heap[p].fd && c.refs == heap[p].refs
    ensures Sound(heap[p := c], conns, pending)
  {
  }

  lemma SweptServe(g: Heap, cs: seq<Ptr>, ps: seq<Ptr>, gone: set<Ptr>, p: Ptr, c: Con,
                  heap: Heap, conns: seq<Ptr>, pending: seq<Ptr>)
    requires Swept(g, cs, ps, gone, heap, conns, pending) && p in heap && p in g && p !in gone
    requires c.fd == heap[p].fd && c.refs == heap[p].refs == g[p].refs
    ensures Swept(g[p := c], cs, ps, gone, heap[p := c], conns, pending)
  {
    hide Sound, Cleared, Sift;
    ClearedServe(g, gone, p, c, heap);
    SoundServe(heap, conns, pending, p, c);
  }

  /** What one turn of the send sweep does to the heap and the tables. */
  ghost predicate Turned(me: int, p: Ptr, answer: SendResult,
                         h: Heap, cs: seq<Ptr>, ps: seq<Ptr>, heap: Heap, conns: seq<Ptr>, pending: seq<Ptr>)
    requires p in h && Referenced(h, cs) && Referenced(h, ps)
  {
    if h[p].outQ.items == [] || h[p].master != me || h[p].state != Established then
      heap == h && conns == cs && pending == ps
    else if answer.Accepted? then heap == h[p := Flushed(h[p], me, answer)] && conns == cs && pending == ps
    else
      var i := FindFd(h, cs, h[p].fd);
      && pending == DropFd(h, ps, h[p].fd)
      && conns == (if i < |cs| then Without(cs, i) else cs)
      && heap == (if i < |cs| then CloseEntry(h, cs[i]) else h)
  }

  /** A turn takes the sweep from k + 1 entries left to k. */
  lemma TurnDone(g: Heap, cs: seq<Ptr>, ps: seq<Ptr>, gone: set<Ptr>, k: nat, me: int, answer: SendResult,
                 heap: Heap, conns: seq<Ptr>, pending: seq<Ptr>, heap': Heap, conns': seq<Ptr>, pending': seq<Ptr>)
    requires Swept(g, cs, ps, gone, heap, conns, pending)
    requires k < |conns| && k < |cs| && conns[k] == cs[k] && cs[k] !in gone && cs[k] in g && g[cs[k]].refs > 0
    requires g[cs[k]].fd >= 0 && cs[k] in heap && heap[cs[k]] == g[cs[k]]
    requires Referenced(heap, conns) && Referenced(heap, pending)
    requires Turned(me, cs[k], answer, heap, conns, pending, heap', conns', pending')
    ensures var p := cs[k];
      var gone' := if Offered(g[p], me) && answer.Broken? then gone + {p} else gone;
      Swept(g[p := Flushed(g[p], me, answer)], cs, ps, gone', heap', conns', pending')
  {
    var p := cs[k];
    hide Swept, Sound;
    if Ready(g[p], me) && answer.Accepted? {
      SweptServe(g, cs, ps, gone, p, Flushed(g[p], me, answer), heap, conns, pending);
    } else {
      assert Flushed(g[p], me, answer) == g[p] && g[p := g[p]] == g;
      if Ready(g[p], me) { Advance(g, cs, ps, gone, k, heap, conns, pending); }
    }
  }

  /** The state of a send sweep with k entries left. */
  ghost predicate Sweeping(h: Heap, cs: seq<Ptr>, ps: seq<Ptr>, k: nat, me: int, answers: map<Ptr, SendResult>,
                           gone: set<Ptr>, visited: seq<Ptr>, heap: Heap, conns: seq<Ptr>, pending: seq<Ptr>)
  {
    && k <= |cs| && Referenced(h, cs) && Distinct(cs) && Answered(h, cs, answers)
    && (forall i :: 0 <= i < |cs| ==> h[cs[i]].fd >= 0)
    && visited == Backwards(cs[k..]) && gone == Picked(cs[k..], Failing(h, me, answers))
    && Swept(Serving(h, cs[k..], me, answers), cs, ps, gone, heap, conns, pending)
  }

  lemma TurnBegins(h: Heap, cs: seq<Ptr>, ps: seq<Ptr>, k: nat, me: int, answers: map<Ptr, SendResult>,
                   gone: set<Ptr>, visited: seq<Ptr>, heap: Heap, conns: seq<Ptr>, pending: seq<Ptr>)
    requires k < |cs| && Sweeping(h, cs, ps, k + 1, me, answers, gone, visited, heap, conns, pending)
    ensures k < |conns| && conns[k] == cs[k] && cs[k] in heap && heap[cs[k]].fd >= 0
    ensures cs[k] in answers && Plausible(heap[cs[k]], answers[cs[k]])
    ensures Referenced(heap, conns) && Referenced(heap, pending)
    ensures cs[k] in h && heap[cs[k]] == h[cs[k]]
  {
    var g := Serving(h, cs[k + 1..], me, answers);
    ServingLeaves(h, cs, k, me, answers);
    UnderIndex(g, cs, ps, gone, k, Failing(h, me, answers), heap, conns, pending);
    hide Swept, Sound;
    Advance(g, cs, ps, gone, k, heap, conns, pending);
  }

  lemma TurnEnds(h: Heap, cs: seq<Ptr>, ps: seq<Ptr>, k: nat, me: int, answers: map<Ptr, SendResult>,
                 gone: set<Ptr>, visited: seq<Ptr>, heap: Heap, conns: seq<Ptr>, pending: seq<Ptr>,
                 heap': Heap, conns': seq<Ptr>, pending': seq<Ptr>)
    requires k < |cs| && Sweeping(h, cs, ps, k + 1, me, answers, gone, visited, heap, conns, pending)
    requires cs[k] in heap && Referenced(heap, conns) && Referenced(heap, pending) && cs[k] in answers
    requires Turned(me, cs[k], answers[cs[k]], heap, conns, pending, heap', conns', pending')
    ensures var gone' := if Failing(h, me, answers)(cs[k]) then gone + {cs[k]} else gone;
      Sweeping(h, cs, ps, k, me, answers, gone', visited + [cs[k]], heap', conns', pending')
  {
    var g := Serving(h, cs[k + 1..], me, answers);
    ServingLeaves(h, cs, k, me, answers);
    UnderIndex(g, cs, ps, gone, k, Failing(h, me, answers), heap, conns, pending);
    hide Swept, Sound, Turned, Serving, Failing, Picked, Backwards;
    PickedStep(cs, k, Failing(h, me, answers));
    ServingStep(h, cs, k, me, answers);
    TurnDone(g, cs, ps, gone, k, me, answers[cs[k]], heap, conns, pending, heap', conns', pending');
  }

  lemma OwnIdFound(h: Heap, ps: seq<Ptr>, i: nat)
    requires AllIn(h, ps) && i < |ps|
    ensures FindId(h, ps, h[ps[i]].id) < |ps|
  {
  }

  // ---------------------------------------------------------------- references of entries

  /** Each entry counted in m has a reference of its own. */
  ghost predicate Covered(h: Heap, m: multiset<Ptr>) { forall p :: p in m ==> p in h && m[p] <= h[p].refs }

  /** p, once c, lost n references: it is as it was, gone, or marked for closing and still held. */
  ghost predicate Released(c: Con, n: nat, k: Heap, p: Ptr) {
    if n == 0 then p in k && k[p] == c
    else if c.refs <= n then p !in k
    else p in k && k[p] == c.(disconnect := true, refs := c.refs - n)
  }

  /** Every connection gave back as many references as m counts for it. */
  ghost predicate LetGo(h: Heap, m: multiset<Ptr>, k: Heap) {
    && (forall p :: p in h ==> Released(h[p], m[p], k, p))
    && (forall q :: q in k ==> q in h)
  }

  lemma LetGoOne(h: Heap, m: multiset<Ptr>, k: Heap, p: Ptr)
    requires LetGo(h, m, k) && Covered(h, m + multiset{p})
    ensures p in k && k[p].refs > 0 && LetGo(h, m + multiset{p}, Release(k, p))
  {
    assert p in m + multiset{p} && (m + multiset{p})[p] == m[p] + 1;
    assert Released(h[p], m[p], k, p);
    var k' := Release(k, p);
    forall q | q in h ensures Released(h[q], (m + multiset{p})[q], k', q) { assert Released(h[q], m[q], k, q); }
  }

  lemma CoveredLess(h: Heap, m: multiset<Ptr>, n: multiset<Ptr>)
    requires Covered(h, m) && n <= m
    ensures Covered(h, n)
  {
  }

  lemma LetGoTail(h: Heap, ps: seq<Ptr>, n: nat, k: Heap)
    requires n < |ps| && Covered(h, multiset(ps)) && LetGo(h, multiset(ps[n + 1..]), k)
    ensures ps[n] in k && k[ps[n]].refs > 0 && LetGo(h, multiset(ps[n..]), Release(k, ps[n]))
  {
    assert ps[n..] == [ps[n]] + ps[n + 1..] && ps == ps[..n] + ps[n..];
    assert multiset(ps[n..]) == multiset(ps[n + 1..]) + multiset{ps[n]};
    hide LetGo, Covered;
    CoveredLess(h, multiset(ps), multiset(ps[n..]));
    LetGoOne(h, multiset(ps[n + 1..]), k, ps[n]);
  }

  lemma LetGoBoth(h: Heap, m: multiset<Ptr>, n: multiset<Ptr>, mid: Heap)
    requires Covered(h, m + n) && LetGo(h, m, mid)
    ensures Covered(mid, n)
    ensures forall k :: LetGo(mid, n, k) ==> LetGo(h, m + n, k)
  {
    forall p | p in n ensures p in mid && n[p] <= mid[p].refs {
      assert p in m + n && (m + n)[p] == m[p] + n[p];
      assert Released(h[p], m[p], mid, p);
    }
    forall k | LetGo(mid, n, k) ensures LetGo(h, m + n, k) {
      forall p | p in h ensures Released(h[p], (m + n)[p], k, p) {
        assert (m + n)[p] == m[p] + n[p] && (p in m + n || m[p] + n[p] == 0);
        assert Released(h[p], m[p], mid, p);
        if p in mid { assert Released(mid[p], n[p], k, p); }
      }
    }
  }

  // ---------------------------------------------------------------- adoption

  /** The attempts a connection gets when those waiting in ps get the attempts rs, in order. */
  function Attempts(ps: seq<Ptr>, rs: seq<Attempt>, p: Ptr): (r: seq<Attempt>)
    requires |ps| == |rs|
    ensures |r| == multiset(ps)[p]
    ensures forall x :: x in r ==> exists i :: 0 <= i < |ps| && ps[i] == p && rs[i] == x
  {
    if ps == [] then []
    else
      var n := |ps| - 1;
      assert ps == ps[..n] + [ps[n]];
      Attempts(ps[..n], rs[..n], p) + (if ps[n] == p then [rs[n]] else [])
  }

  /** The state an attempt leaves, by what the kernel said. */
  function Outcome(r: Attempt): ConState {
    if r.Connected? && r.registered then Established else if r.UnderWay? && r.registered then InProgress else Failed
  }

  /** A connection after the attempts rs: each failed one costs a reference. */
  function TryAll(c: Con, rs: seq<Attempt>): (d: Con)
    requires |rs| <= c.refs
    ensures d.refs >= c.refs - |rs| && d.id == c.id
    ensures rs != [] ==> d.state == Outcome(rs[|rs| - 1])
    ensures d.fd == c.fd || d.fd == -1 || exists r :: r in rs && !r.NoSocket? && d.fd == r.fd
  {
    if rs == [] then c
    else
      var n := |rs| - 1;
      var b := TryConnect(TryAll(c, rs[..n]), rs[n]);
      TryConnectFails(TryAll(c, rs[..n]), rs[n]);
      assert rs[n] in rs;
      if Fails(rs[n]) then b.(disconnect := true, refs := b.refs - 1) else b
  }

  /** From h to k every connection had its attempts, and went with its last reference. */
  ghost predicate TriedAll(h: Heap, ps: seq<Ptr>, rs: seq<Attempt>, k: Heap)
    requires |ps| == |rs| && Covered(h, multiset(ps))
  {
    && (forall p :: p in h ==> TriedOne(h[p], Attempts(ps, rs, p), k, p))
    && (forall q :: q in k ==> q in h)
  }

  ghost predicate TriedOne(c: Con, rs: seq<Attempt>, k: Heap, p: Ptr) {
    && |rs| <= c.refs
    && var d := TryAll(c, rs);
       if d.refs == 0 < c.refs then p !in k else p in k && k[p] == d
  }

  /** Those whose attempt does not fail, in order. */
  function Adoptees(ps: seq<Ptr>, rs: seq<Attempt>): (r: seq<Ptr>)
    requires |ps| == |rs|
    ensures |r| <= |ps|
  {
    if ps == [] then []
    else
      var n := |ps| - 1;
      Adoptees(ps[..n], rs[..n]) + (if Fails(rs[n]) then [] else [ps[n]])
  }

  /** One round of the adoption loop, on the heap. */
  function Attempted(k: Heap, p: Ptr, r: Attempt): Heap
    requires p in k && k[p].refs > 0
  {
    TryConnectFails(k[p], r);
    if Fails(r) then Release(k[p := TryConnect(k[p], r)], p) else k[p := TryConnect(k[p], r)]
  }

  lemma TryOneMore(c: Con, rs: seq<Attempt>, r: Attempt, k: Heap, p: Ptr)
    requires |rs| < c.refs && TriedOne(c, rs, k, p)
    ensures p in k && k[p].refs > 0 && TriedOne(c, rs + [r], Attempted(k, p, r), p)
  {
    var more := rs + [r];
    assert more[..|more| - 1] == rs;
    TryConnectFails(k[p], r);
    hide TryConnect;
  }

  lemma TriedElsewhere(k: Heap, p: Ptr, r: Attempt, q: Ptr, c: Con, rs: seq<Attempt>)
    requires p in k && k[p].refs > 0 && q != p && TriedOne(c, rs, k, q)
    ensures TriedOne(c, rs, Attempted(k, p, r), q)
  {
    hide TryConnect, TryAll;
  }

  lemma AttemptsNext(ps: seq<Ptr>, rs: seq<Attempt>, i: nat, q: Ptr)
    requires |ps| == |rs| && i < |ps|
    ensures Attempts(ps[..i + 1], rs[..i + 1], q)
         == Attempts(ps[..i], rs[..i], q) + (if ps[i] == q then [rs[i]] else [])
    ensures multiset(ps[..i + 1])[q] <= multiset(ps)[q]
    ensures Adoptees(ps[..i + 1], rs[..i + 1]) == Adoptees(ps[..i], rs[..i]) + (if Fails(rs[i]) then [] else [ps[i]])
  {
    assert ps[..i + 1][..i] == ps[..i] && rs[..i + 1][..i] == rs[..i];
    assert ps == ps[..i + 1] + ps[i + 1..];
  }

  /** The adoption loop after i rounds. */
  ghost predicate AdoptsUpTo(h: Heap, cs: seq<Ptr>, ps: seq<Ptr>, rs: seq<Attempt>, i: nat,
                            heap: Heap, conns: seq<Ptr>)
  {
    && i <= |ps| == |rs| && Covered(h, multiset(ps)) && Covered(h, multiset(ps[..i]))
    && TriedAll(h, ps[..i], rs[..i], heap) && conns == cs + Adoptees(ps[..i], rs[..i])
  }

  lemma AdoptStarts(h: Heap, cs: seq<Ptr>, ps: seq<Ptr>, rs: seq<Attempt>)
    requires |ps| == |rs| && Covered(h, multiset(ps))
    ensures AdoptsUpTo(h, cs, ps, rs, 0, h, cs)
  {
  }

  lemma AdoptEnds(h: Heap, cs: seq<Ptr>, ps: seq<Ptr>, rs: seq<Attempt>, heap: Heap, conns: seq<Ptr>)
    requires AdoptsUpTo(h, cs, ps, rs, |ps|, heap, conns)
    ensures |ps| == |rs| && Covered(h, multiset(ps)) && TriedAll(h, ps, rs, heap) && conns == cs + Adoptees(ps, rs)
  {
    hide TriedAll, Adoptees, Covered, Attempts;
    assert ps[..|ps|] == ps && rs[..|ps|] == rs;
  }

  /** The entry whose turn comes has a reference of its own, beyond those of earlier entries. */
  lemma CoveredPrefix(h: Heap, ps: seq<Ptr>, i: nat)
    requires i < |ps| && Covered(h, multiset(ps))
    ensures Covered(h, multiset(ps[..i + 1])) && ps[i] in h && multiset(ps[..i])[ps[i]] < h[ps[i]].refs
  {
    assert ps[..i + 1] == ps[..i] + [ps[i]] && ps == ps[..i + 1] + ps[i + 1..];
    CoveredLess(h, multiset(ps), multiset(ps[..i + 1]));
    assert ps[i] in multiset(ps[..i + 1]);
  }

  lemma TriedAt(h: Heap, ps: seq<Ptr>, rs: seq<Attempt>, k: Heap, q: Ptr)
    requires |ps| == |rs| && Covered(h, multiset(ps)) && TriedAll(h, ps, rs, k) && q in h
    ensures TriedOne(h[q], Attempts(ps, rs, q), k, q)
  {
  }

  lemma AttemptedKeys(k: Heap, p: Ptr, r: Attempt)
    requires p in k && k[p].refs > 0
    ensures forall q :: q in Attempted(k, p, r) ==> q in k
  {
    TryConnectFails(k[p], r);
    hide TryConnect;
  }

  lemma AdoptRound(h: Heap, cs: seq<Ptr>, ps: seq<Ptr>, rs: seq<Attempt>, i: nat, heap: Heap, conns: seq<Ptr>)
    requires i < |ps| && AdoptsUpTo(h, cs, ps, rs, i, heap, conns)
    ensures i < |rs| && ps[i] in heap && heap[ps[i]].refs > 0
    ensures AdoptsUpTo(h, cs, ps, rs, i + 1, Attempted(heap, ps[i], rs[i]),
                       conns + (if Fails(rs[i]) then [] else [ps[i]]))
  {
    hide Attempts, TryAll, TryConnect, TriedOne, Attempted, Adoptees, Covered, TriedAll, Fails, Release;
    var p, r, own := ps[i], rs[i], Attempts(ps[..i], rs[..i], ps[i]);
    AttemptsNext(ps, rs, i, p);
    CoveredPrefix(h, ps, i);
    TriedAt(h, ps[..i], rs[..i], heap, p);
    TryOneMore(h[p], own, r, heap, p);
    AdoptedAll(h, ps, rs, i, heap);
  }

  lemma AdoptedAll(h: Heap, ps: seq<Ptr>, rs: seq<Attempt>, i: nat, heap: Heap)
    requires i < |ps| == |rs| && Covered(h, multiset(ps[..i])) && Covered(h, multiset(ps[..i + 1]))
    requires TriedAll(h, ps[..i], rs[..i], heap) && ps[i] in h && ps[i] in heap && heap[ps[i]].refs > 0
    requires TriedOne(h[ps[i]], Attempts(ps[..i], rs[..i], ps[i]) + [rs[i]], Attempted(heap, ps[i], rs[i]), ps[i])
    ensures TriedAll(h, ps[..i + 1], rs[..i + 1], Attempted(heap, ps[i], rs[i]))
  {
    hide Attempts, TryAll, TryConnect, TriedOne, Attempted, Adoptees, Covered, Fails, Release;
    var p, k := ps[i], Attempted(heap, ps[i], rs[i]);
    AttemptedKeys(heap, p, rs[i]);
    forall q | q in h ensures TriedOne(h[q], Attempts(ps[..i + 1], rs[..i + 1], q), k, q) {
      AttemptsNext(ps, rs, i, q);
      if q != p {
        TriedAt(h, ps[..i], rs[..i], heap, q);
        TriedElsewhere(heap, p, rs[i], q, h[q], Attempts(ps[..i], rs[..i], q));
        assert Attempts(ps[..i], rs[..i], q) + [] == Attempts(ps[..i], rs[..i], q);
      }
    }
  }

  /** The new sockets are new, and no two attempts got the same one. */
  ghost predicate FreshSockets(h: Heap, rs: seq<Attempt>) {
    && (forall i :: 0 <= i < |rs| && !rs[i].NoSocket? ==> rs[i].fd >= 0 && forall q :: q in h ==> h[q].fd != rs[i].fd)
    && (forall i, j :: 0 <= i < j < |rs| && !rs[i].NoSocket? && !rs[j].NoSocket? ==> rs[i].fd != rs[j].fd)
  }

  /** A connection keeps its descriptor, loses it, or has the socket of one of its attempts. */
  lemma NewFdOf(h: Heap, ps: seq<Ptr>, rs: seq<Attempt>, k: Heap, p: Ptr) returns (i: nat)
    requires |ps| == |rs| && Covered(h, multiset(ps)) && TriedAll(h, ps, rs, k) && p in k
    ensures p in h
    ensures k[p].fd == -1 || k[p].fd == h[p].fd
         || (i < |ps| && ps[i] == p && !rs[i].NoSocket? && k[p].fd == rs[i].fd)
  {
    i := 0;
    var own := Attempts(ps, rs, p);
    assert TriedOne(h[p], own, k, p);
    var d := TryAll(h[p], own);
    hide TryConnect, Attempts, TryAll;
    if d.fd != h[p].fd && d.fd != -1 {
      var r :| r in own && !r.NoSocket? && d.fd == r.fd;
      i :| 0 <= i < |ps| && ps[i] == p && rs[i] == r;
    }
  }

  lemma TriedFds(h: Heap, ps: seq<Ptr>, rs: seq<Attempt>, k: Heap)
    requires |ps| == |rs| && Covered(h, multiset(ps)) && FdsApart(h) && FreshSockets(h, rs) && TriedAll(h, ps, rs, k)
    ensures FdsApart(k)
  {
    hide TriedAll, Covered;
    forall p, q | p in k && q in k && p != q && k[p].fd >= 0 ensures k[p].fd != k[q].fd {
      var i := NewFdOf(h, ps, rs, k, p);
      var j := NewFdOf(h, ps, rs, k, q);
    }
  }

  /** What the attempts leave is enough for the entries they leave. */
  lemma {:induction false} TryAllRefs(c: Con, rs: seq<Attempt>)
    requires |rs| <= c.refs
    ensures TryAll(c, rs).refs == c.refs - |rs| + Successes(rs)
  {
    if rs != [] {
      TryAllRefs(c, rs[..|rs| - 1]);
      TryConnectFails(TryAll(c, rs[..|rs| - 1]), rs[|rs| - 1]);
      hide TryConnect;
    }
  }

  function Successes(rs: seq<Attempt>): nat {
    if rs == [] then 0 else Successes(rs[..|rs| - 1]) + (if Fails(rs[|rs| - 1]) then 0 else 1)
  }

  lemma SuccessesNext(rs: seq<Attempt>, r: Attempt)
    ensures Successes(rs + [r]) == Successes(rs) + (if Fails(r) then 0 else 1)
  {
    assert (rs + [r])[..|rs|] == rs;
  }

  lemma CountOne(a: seq<Ptr>, p: Ptr, x: seq<Ptr>)
    requires |x| <= 1
    ensures multiset(a + x)[p] == multiset(a)[p] + (if x == [p] then 1 else 0)
  {
    assert multiset(a + x) == multiset(a) + multiset(x);
    if x != [] { assert x == [x[0]]; }
  }

  lemma {:induction false} AdopteesCount(ps: seq<Ptr>, rs: seq<Attempt>, p: Ptr)
    requires |ps| == |rs|
    ensures multiset(Adoptees(ps, rs))[p] == Successes(Attempts(ps, rs, p))
  {
    if ps != [] {
      hide Fails, Successes, Attempts, Adoptees;
      var n := |ps| - 1;
      var own, kept := Attempts(ps[..n], rs[..n], p), Adoptees(ps[..n], rs[..n]);
      AdopteesCount(ps[..n], rs[..n], p);
      assert ps[..n + 1] == ps && rs[..n + 1] == rs;
      AttemptsNext(ps, rs, n, p);
      SuccessesNext(own, rs[n]);
      CountOne(kept, p, if Fails(rs[n]) then [] else [ps[n]]);
      if ps[n] != p { assert own + [] == own; }
    }
  }

  /** The table entries are covered again. */
  lemma AdoptedCovered(h: Heap, cs: seq<Ptr>, ps: seq<Ptr>, rs: seq<Attempt>, k: Heap)
    requires |ps| == |rs| && Covered(h, multiset(cs) + multiset(ps)) && Covered(h, multiset(ps))
    requires TriedAll(h, ps, rs, k)
    ensures Covered(k, multiset(cs + Adoptees(ps, rs)))
  {
    hide TriedAll, TryAll, Attempts, Adoptees, Fails, Successes, TryConnect;
    var table := cs + Adoptees(ps, rs);
    forall p | p in multiset(table) ensures p in k && multiset(table)[p] <= k[p].refs {
      var own := Attempts(ps, rs, p);
      AdopteesCount(ps, rs, p);
      assert multiset(table)[p] == multiset(cs)[p] + Successes(own);
      SuccessesFew(own);
      assert p in multiset(cs) + multiset(ps);
      TryAllRefs(h[p], own);
      TriedAt(h, ps, rs, k, p);
    }
  }

  lemma {:induction false} SuccessesFew(rs: seq<Attempt>)
    ensures Successes(rs) <= |rs|
  {
    if rs != [] { SuccessesFew(rs[..|rs| - 1]); }
  }

  /** A connection that waits once gets the one attempt made for it. */
  lemma AttemptsOnce(ps: seq<Ptr>, rs: seq<Attempt>, i: nat)
    requires |ps| == |rs| && i < |ps| && multiset(ps)[ps[i]] == 1
    ensures Attempts(ps, rs, ps[i]) == [rs[i]]
  {
    var own := Attempts(ps, rs, ps[i]);
    assert own[0] in own;
    hide Attempts;
    var j :| 0 <= j < |ps| && ps[j] == ps[i] && rs[j] == own[0];
    if j != i { TwoPlaces(ps, if i < j then i else j, if i < j then j else i); }
  }

  /** Where no connection waits twice or sits in the table already, none sits there twice afterwards. */
  lemma {:induction false} AdopteesDistinct(cs: seq<Ptr>, ps: seq<Ptr>, rs: seq<Attempt>)
    requires |ps| == |rs| && Distinct(cs + ps)
    ensures Distinct(cs + Adoptees(ps, rs))
    ensures forall p :: p in Adoptees(ps, rs) ==> p in ps
  {
    if ps == [] {
      assert Adoptees(ps, rs) == ps;
    } else {
      var n := |ps| - 1;
      forall i, j | 0 <= i < j < |cs + ps[..n]| ensures (cs + ps[..n])[i] != (cs + ps[..n])[j] {
        assert (cs + ps)[i] == (cs + ps[..n])[i] && (cs + ps)[j] == (cs + ps[..n])[j];
      }
      AdopteesDistinct(cs, ps[..n], rs[..n]);
      var kept := Adoptees(ps[..n], rs[..n]);
      forall j | 0 <= j < |cs + kept| ensures (cs + kept)[j] != ps[n] {
        assert (cs + ps)[|cs| + n] == ps[n];
        if j < |cs| {
          assert (cs + ps)[j] == cs[j];
        } else {
          assert kept[j - |cs|] in ps[..n];
          var i :| 0 <= i < n && ps[i] == kept[j - |cs|];
          assert (cs + ps)[|cs| + i] == ps[i];
        }
      }
      if Fails(rs[n]) {
        assert cs + (kept + []) == cs + kept;
      } else {
        assert cs + (kept + [ps[n]]) == (cs + kept) + [ps[n]];
      }
    }
  }

  class Loop {
    var heap: Heap
    var conns: seq<Ptr>
    var pending: seq<Ptr>
    const me: int

    ghost predicate Valid()
      reads this
    {
      Sound(heap, conns, pending) && |conns| < LIMIT - 1 && |pending| < LIMIT - 1
    }

    /** index_of_con: -1 for a connection of another loop or one that is not in the table. */
    method IndexOfCon(p: Ptr) returns (index: int)
      requires Referenced(heap, conns) && p in heap
      ensures var i := FindId(heap, conns, heap[p].id);
        index == if heap[p].master == me && i < |conns| then i else -1
    {
      if heap[p].master != me {
        return -1;
      }
      var i := 0;
      while i < |conns|
        invariant i <= |conns|
        invariant forall j :: 0 <= j < i ==> heap[conns[j]].id != heap[p].id
      {
        if heap[p].id == heap[conns[i]].id {
          return i;
        }
        i := i + 1;
      }
      index := -1;
    }

    /** index_of_con_by_sock_desc */
    method IndexOfConBySockDesc(fd: int) returns (index: int)
      requires Referenced(heap, conns)
      ensures var i := FindFd(heap, conns, fd); index == if i < |conns| then i else -1
    {
      var i := 0;
      while i < |conns|
        invariant i <= |conns|
        invariant forall j :: 0 <= j < i ==> heap[conns[j]].fd != fd
      {
        if heap[conns[i]].fd == fd {
          return i;
        }
        i := i + 1;
      }
      index := -1;
    }

    /** The first half of close_connection. */
    method ForgetPending(fd: int)
      requires Referenced(heap, pending)
      modifies this`pending
      ensures pending == DropFd(heap, old(pending), fd)
    {
      var i := 0;
      while i < |pending|
        invariant i <= |pending| && pending == old(pending)
        invariant forall j :: 0 <= j < i ==> heap[pending[j]].fd != fd
      {
        if heap[pending[i]].fd == fd {
          pending := Without(pending, i);
          return;
        }
        i := i + 1;
      }
    }

    /** close_connection */
    method CloseConnection(fd: int) returns (ok: bool)
      requires Referenced(heap, conns) && Referenced(heap, pending) && fd >= 0
      modifies this`heap, this`conns, this`pending
      ensures pending == DropFd(old(heap), old(pending), fd)
      ensures var i := FindFd(old(heap), old(conns), fd);
        && ok == (i < |old(conns)|)
        && conns == (if ok then Without(old(conns), i) else old(conns))
        && heap == (if ok then CloseEntry(old(heap), old(conns)[i]) else old(heap))
    {
      ForgetPending(fd);
      var index := IndexOfConBySockDesc(fd);
      if index == -1 {
        return false;
      }
      var con := conns[index];
      heap := CloseEntry(heap, con);
      conns := Without(conns, index);
      ok := true;
    }

    /** check_for_connections_to_close: backwards with an unsigned index that ends the loop by
        wrapping, erasing from the table it walks. */
    method CheckForConnectionsToClose() returns (ghost visited: seq<Ptr>)
      requires Valid() && forall i :: 0 <= i < |conns| ==> heap[conns[i]].fd >= 0
      modifies this`heap, this`conns, this`pending
      ensures Valid() && visited == Backwards(old(conns))
      ensures var gone := Picked(old(conns), Marked(old(heap)));
        && conns == Sift(old(conns), gone)
        && pending == Sift(old(pending), gone)
        && Cleared(old(heap), gone, heap)
    {
      ghost var h, cs, ps := heap, conns, pending;
      ghost var doomed := Marked(h);
      SweepStarts(h, cs, ps, doomed);
      var sz := |conns|;
      var i := Pred(sz);
      ghost var k, gone := sz, {};
      visited := [];
      assert ClosesUpTo(h, cs, ps, k, gone, visited, heap, conns, pending);
      while i < sz
        invariant 0 <= k <= sz == |cs| && i == Pred(k)
        invariant ClosesUpTo(h, cs, ps, k, gone, visited, heap, conns, pending)
        decreases k
      {
        hide *;
        k := k - 1;
        CloseBegins(h, cs, ps, k, gone, visited, heap, conns, pending);
        var con := conns[i];
        if heap[con].disconnect {
          CloseEnds(h, cs, ps, k, gone, visited, heap, conns, pending);
          var closed := CloseConnection(heap[con].fd);
          gone := gone + {con};
        } else {
          CloseSkips(h, cs, ps, k, gone, visited, heap, conns, pending);
        }
        visited := visited + [con];
        i := Pred(i);
      }
      SweepEnds(h, cs, ps, gone, heap, conns, pending);
    }

    /** try_send_data: -1 for a connection that cannot send or just failed, else what send took. */
    method TrySendData(p: Ptr, answer: SendResult) returns (n: int)
      requires Referenced(heap, conns) && Referenced(heap, pending) && p in heap && heap[p].fd >= 0
      requires answer.Accepted? ==> answer.n <= |heap[p].outQ.items|
      modifies this`heap, this`conns, this`pending
      ensures var h, cs, c := old(heap), old(conns), old(heap)[p];
        if c.master != me || FindId(h, cs, c.id) == |cs| || c.state != Established then
          n == -1 && heap == h && conns == cs && pending == old(pending)
        else if answer.Accepted? then
          n == answer.n && heap == h[p := Sent(c, n)] && conns == cs && pending == old(pending)
        else
          var i := FindFd(h, cs, c.fd);
          && n == -1 && pending == DropFd(h, old(pending), c.fd)
          && conns == (if i < |cs| then Without(cs, i) else cs)
          && heap == (if i < |cs| then CloseEntry(h, cs[i]) else h)
    {
      var index := IndexOfCon(p);
      if index == -1 {
        return -1;
      }
      match heap[p].state
      case Idle => n := -1;
      case Failed => n := -1;
      case InProgress => n := -1;
      case Established =>
        match answer
        case Broken =>
          var closed := CloseConnection(heap[p].fd);
          n := -1;
        case Accepted(k) =>
          heap := heap[p := Sent(heap[p], k)];
          n := k;
    }

    /** One turn of the send sweep: peek the window, send, and pop what was taken. */
    method TakeTurn(p: Ptr, answer: SendResult)
      requires Referenced(heap, conns) && Referenced(heap, pending) && p in heap && heap[p].fd >= 0
      requires p in conns && Plausible(heap[p], answer)
      modifies this`heap, this`conns, this`pending
      ensures Turned(me, p, answer, old(heap), old(conns), old(pending), heap, conns, pending)
    {
      ghost var at :| 0 <= at < |conns| && conns[at] == p;
      OwnIdFound(heap, conns, at);
      if heap[p].outQ.Window() != 0 {
        var n := TrySendData(p, answer);
        if n >= 0 {
          heap := heap[p := heap[p].(outQ := heap[p].outQ.Dequeue(n))];
        }
      }
    }

    /** send_unsent_data: every entry gets one turn, last to first. Those whose send fails leave the
        tables in the middle of the sweep; the others keep their order, and nobody but themselves
        has touched them. */
    method SendUnsentData(answers: map<Ptr, SendResult>) returns (ghost visited: seq<Ptr>)
      requires Valid() && (forall i :: 0 <= i < |conns| ==> heap[conns[i]].fd >= 0) && Answered(heap, conns, answers)
      modifies this`heap, this`conns, this`pending
      ensures Valid() && visited == Backwards(old(conns))
      ensures var gone := Picked(old(conns), Failing(old(heap), me, answers));
        && conns == Sift(old(conns), gone)
        && pending == Sift(old(pending), gone)
        && Cleared(Serving(old(heap), old(conns), me, answers), gone, heap)
    {
      ghost var h, cs, ps := heap, conns, pending;
      ghost var doomed := Failing(h, me, answers);
      SweepStarts(h, cs, ps, doomed);
      ServingStarts(h, cs, me, answers);
      var sz := |conns|;
      var i := Pred(sz);
      ghost var k, gone := sz, {};
      visited := [];
      assert Sweeping(h, cs, ps, k, me, answers, gone, visited, heap, conns, pending);
      while i < sz
        invariant 0 <= k <= sz == |cs| && i == Pred(k)
        invariant Sweeping(h, cs, ps, k, me, answers, gone, visited, heap, conns, pending)
        decreases k
      {
        hide *;
        k := k - 1;
        TurnBegins(h, cs, ps, k, me, answers, gone, visited, heap, conns, pending);
        var con := conns[i];
        assert con in conns;
        ghost var heap0, conns0, pending0 := heap, conns, pending;
        TakeTurn(con, answers[con]);
        TurnEnds(h, cs, ps, k, me, answers, gone, visited, heap0, conns0, pending0, heap, conns, pending);
        visited := visited + [con];
        if doomed(con) { gone := gone + {con}; }
        i := Pred(i);
      }
      SweepEnds(Serving(h, cs[0..], me, answers), cs, ps, gone, heap, conns, pending);
    }

    /** The first part of update_state: every entry that waits gets its attempt, in order; each failed
        one costs a reference, the others become entries of m_connections. */
    method AdoptNewConnections(rs: seq<Attempt>)
      requires |rs| == |pending| && |conns| + |pending| < LIMIT - 1
      requires Covered(heap, multiset(conns) + multiset(pending))
      modifies this`heap, this`conns, this`pending
      ensures pending == [] && conns == old(conns) + Adoptees(old(pending), rs)
      ensures Covered(old(heap), multiset(old(pending))) && TriedAll(old(heap), old(pending), rs, heap)
      ensures Covered(heap, multiset(conns))
      ensures FdsApart(old(heap)) && FreshSockets(old(heap), rs) ==> FdsApart(heap)
      ensures Distinct(old(conns + pending)) ==> Distinct(conns)
    {
      ghost var h, cs, ps := heap, conns, pending;
      hide *;
      CoveredLess(h, multiset(cs) + multiset(ps), multiset(ps));
      AdoptStarts(h, cs, ps, rs);
      var sz := |pending|;
      for i := 0 to sz
        invariant pending == ps && AdoptsUpTo(h, cs, ps, rs, i, heap, conns)
      {
        AdoptRound(h, cs, ps, rs, i, heap, conns);
        AdoptOne(pending[i], rs[i]);
      }
      AdoptEnds(h, cs, ps, rs, heap, conns);
      AdoptedCovered(h, cs, ps, rs, heap);
      if Distinct(cs + ps) { AdopteesDistinct(cs, ps, rs); }
      if FdsApart(h) && FreshSockets(h, rs) { TriedFds(h, ps, rs, heap); }
      pending := [];
    }

    /** One round of that loop. */
    method AdoptOne(con: Ptr, attempt: Attempt)
      requires con in heap && heap[con].refs > 0
      modifies this`heap, this`conns
      ensures heap == Attempted(old(heap), con, attempt)
      ensures conns == old(conns) + (if Fails(attempt) then [] else [con])
    {
      TryConnectFails(heap[con], attempt);
      heap := heap[con := TryConnect(heap[con], attempt)];
      if heap[con].state == Failed {
        heap := Release(heap, con);
      } else {
        conns := conns + [con];
      }
    }

    /** The shutdown loop over one table: backwards, one reference for each entry. */
    method ReleaseAll(ps: seq<Ptr>)
      requires Covered(heap, multiset(ps)) && |ps| < LIMIT - 1
      modifies this`heap
      ensures LetGo(old(heap), multiset(ps), heap)
    {
      var sz := |ps|;
      var i := Pred(sz);
      ghost var k := sz;
      while i < sz
        invariant 0 <= k <= sz && i == Pred(k) && LetGo(old(heap), multiset(ps[k..]), heap)
        decreases k
      {
        k := k - 1;
        LetGoTail(old(heap), ps, k, heap);
        heap := Release(heap, ps[i]);
        i := Pred(i);
      }
      assert ps[0..] == ps;
    }

    /** The end of the service's thread_loop: both tables give their references back. */
    method Shutdown()
      requires Covered(heap, multiset(conns) + multiset(pending)) && |conns| < LIMIT - 1 && |pending| < LIMIT - 1
      modifies this`heap
      ensures LetGo(old(heap), multiset(conns) + multiset(pending), heap)
    {
      assert multiset(pending) + multiset(conns) == multiset(conns) + multiset(pending);
      CoveredLess(heap, multiset(conns) + multiset(pending), multiset(pending));
      ReleaseAll(pending);
      LetGoBoth(old(heap), multiset(pending), multiset(conns), heap);
      ReleaseAll(conns);
    }

    /** accept on the server: the connection that waited longest, or none. */
    method Accept() returns (none: bool, con: Ptr)
      requires Valid()
      modifies this`pending
      ensures none == (old(pending) == [])
      ensures if none then pending == [] else old(pending) == [con] + pending && con in heap
    {
      if |pending| == 0 {
        return true, 0;
      }
      con := pending[0];
      pending := Without(pending, 0);
      none := false;
    }
  }
}
