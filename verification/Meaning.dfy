/** What every step does to every connection, said in terms of queues as sequences, of what the kernel
    answered, and of the tables: a second account of the steps of EventLoop.dfy, which the code is
    proved to follow. */
module Meaning {
  import opened Bytes
  import opened Connections
  import opened EventLoop
  import opened Ownership
  import opened ConductSteps
  import opened ConductLoop

  // ---------------------------------------------------------------- who a step is about

  /** q waits for an attempt, and this step makes it. */
  predicate Tries(s: State, a: Step, q: Ptr)
    requires Enabled(s, a)
  {
    a.AdoptOne? && s.pending[s.pc.next] == q
  }

  /** q's entry is the one that carries the descriptor. */
  predicate Carries(s: State, fd: int, q: Ptr)
    requires AllIn(s.heap, s.conns)
  {
    var i := FindFd(s.heap, s.conns, fd);
    i < |s.conns| && s.conns[i] == q
  }

  /** It is q's turn in the send sweep, and the code gets as far as send: the out-queue holds something
      and q is this loop's and Established. */
  predicate Offered(s: State, a: Step, q: Ptr)
    requires Enabled(s, a) && Safe(s, a)
  {
    a.SendOne? && s.conns[s.pc.left - 1] == q
    && s.heap[q].outQ.items != [] && s.heap[q].master == s.me && s.heap[q].state == Established
  }

  // ---------------------------------------------------------------- what a step adds and takes

  function Least(n: nat, m: nat): nat { if n <= m then n else m }

  /** What an application adds to the out-queue of q. */
  function WroteBy(a: Step, q: Ptr): seq<byte> { if a.Write? && a.p == q then a.bytes else [] }

  function WrittenIn(steps: seq<Step>, q: Ptr): seq<byte> {
    if steps == [] then [] else WroteBy(steps[0], q) + WrittenIn(steps[1..], q)
  }

  /** What the kernel takes of q's out-queue, at q's own turn. */
  function TookBy(s: State, a: Step, q: Ptr): seq<byte>
    requires Enabled(s, a) && Safe(s, a) && Kernel(s, a)
  {
    if Offered(s, a, q) && a.result.Accepted? then s.heap[q].outQ.items[..a.result.n] else []
  }

  /** What q's application is handed: as many bytes as it asked for, or as there are. */
  function ReadOut(s: State, a: Step, q: Ptr): seq<byte>
    requires Enabled(s, a) && Safe(s, a)
  {
    if a.Read? && a.p == q then s.heap[q].inQ.items[..Least(a.n, |s.heap[q].inQ.items|)] else []
  }

  /** The states a connection attempt publishes, by what the kernel said. */
  function Told(r: Attempt): (told: seq<ConState>)
    ensures told != []
  {
    match r
    case NoSocket => [InProgress, Failed]
    case NotNonBlocking(_) => [InProgress, Failed]
    case Refused(_) => [InProgress, Failed]
    case UnderWay(_, registered) => if registered then [InProgress] else [InProgress, Failed]
    case Connected(_, registered) =>
      if registered then [InProgress, Established] else [InProgress, Established, Failed]
  }

  /** The states a step publishes for q. */
  function Said(s: State, a: Step, q: Ptr): seq<ConState>
    requires Enabled(s, a) && Safe(s, a)
  {
    if a == ConnectBegin(q) then [InProgress]
    else if Tries(s, a, q) then Told(a.attempt)
    else if a.Writable? && a.ok && Carries(s, a.fd, q) then [Established]
    else if a.Retire? && Carries(s, s.pc.fd, q) then [Failed]
    else []
  }

  /** The step gives up a reference to q: a handle, or a table entry whose attempt failed, that was
      closed, or that the shutdown released. */
  predicate Drops(s: State, a: Step, q: Ptr)
    requires Enabled(s, a) && Safe(s, a)
  {
    || a == DestroyRelease(q)
    || (Tries(s, a, q) && Fails(a.attempt))
    || (a.Retire? && Carries(s, s.pc.fd, q))
    || (a.ShutPendingOne? && s.pending[s.pc.left - 1] == q)
    || (a.ShutConnsOne? && s.conns[s.pc.left - 1] == q)
  }

  /** The step marks q for closing. */
  predicate Marks(s: State, a: Step, q: Ptr)
    requires Enabled(s, a) && Safe(s, a)
  {
    a == DestroyMark(q) || Drops(s, a, q)
  }

  // ---------------------------------------------------------------- what becomes of a connection

  ghost predicate Records(s: State, a: Step, q: Ptr, c: Con, d: Con)
    requires Can(s, a)
  {
    && d.id == c.id && d.log.connects == c.log.connects + (if a == ConnectBegin(q) then 1 else 0)
    && d.log.written == c.log.written + WroteBy(a, q)
    && d.log.sent == c.log.sent + TookBy(s, a, q)
    && d.log.delivered == c.log.delivered + ReadOut(s, a, q)
  }

  ghost predicate Speaks(s: State, a: Step, q: Ptr, c: Con, d: Con)
    requires Can(s, a)
  {
    var said := Said(s, a, q);
    && d.log.published == c.log.published + said
    && d.state == (if said == [] then c.state else said[|said| - 1])
    && d.fd == (if Tries(s, a, q) then if Fails(a.attempt) then -1 else a.attempt.fd else c.fd)
    && (d.disconnect <==> c.disconnect || Marks(s, a, q))
  }

  ghost predicate Queues(s: State, a: Step, q: Ptr, c: Con, d: Con)
    requires Can(s, a)
  {
    && d.inQ.items == (
         if a.Read? && a.p == q then c.inQ.items[Least(a.n, |c.inQ.items|)..]
         else if a.Store? && Carries(s, s.pc.fd, q) then c.inQ.items + s.pc.chunk
         else c.inQ.items)
    && d.outQ.items == (
         if a.Write? && a.p == q then c.outQ.items + a.bytes
         else if a.Pop? && s.pc.con == q && s.pc.count <= |c.outQ.items| then c.outQ.items[s.pc.count..]
         else c.outQ.items)
  }

  /** A connection that just came to be: by its application, or by a peer. */
  ghost predicate Fresh(s: State, a: Step, q: Ptr, d: Con) {
    && (a.Create? || a.Arrive?) && a.p == q && d.fd == a.fd && d.refs == 1 && !d.disconnect
    && d.state == (if a.Create? then Idle else Established) && d.log.published == [d.state]
    && d.log.connects == (if a.Create? then 0 else 1)
    && d.log.written == d.log.sent == d.log.delivered == d.inQ.items == d.outQ.items == []
  }

  ghost predicate Alters(s: State, a: Step, t: State, q: Ptr)
    requires Can(s, a)
  {
    if q in s.heap then
      && (q in t.heap <==> !(Drops(s, a, q) && s.heap[q].refs == 1))
      && (q in t.heap ==>
            && Records(s, a, q, s.heap[q], t.heap[q]) && Speaks(s, a, q, s.heap[q], t.heap[q])
            && Queues(s, a, q, s.heap[q], t.heap[q]))
    else if q in t.heap then Fresh(s, a, q, t.heap[q])
    else !(a.Create? && a.p == q) && !(a.Arrive? && a.p == q)
  }

  // ---------------------------------------------------------------- step by step

  /** A step that leaves all connections as they are. */
  predicate Spares(a: Step) { OnlyMoves(a) || a.Unlink? || a.ConnectPush? || a.Accept? }

  lemma SparesHeap(s: State, a: Step)
    requires Can(s, a) && Spares(a)
    ensures Apply(s, a).heap == s.heap
  {
    hide Can, Apply;
    if a.Unlink? { UnlinkFacts(s); }
    else if a.Incoming? { IncomingLeaves(s, a.fd, a.chunk); }
    else if OnlyMoves(a) { MovesLeave(s, a); }
    else { TablesSpare(s, a); }
  }

  lemma TablesSpare(s: State, a: Step)
    requires Can(s, a) && (a.ConnectPush? || a.Accept?)
    ensures Apply(s, a).heap == s.heap
  {
  }

  /** The step is not about q. */
  ghost predicate Passes(s: State, a: Step, q: Ptr)
    requires Can(s, a)
  {
    && WroteBy(a, q) == TookBy(s, a, q) == ReadOut(s, a, q) == [] && Said(s, a, q) == []
    && !Drops(s, a, q) && !Tries(s, a, q) && a != ConnectBegin(q) && a != DestroyMark(q)
    && !((a.Read? || a.Write? || a.Create? || a.Arrive?) && a.p == q)
    && !(a.Store? && Carries(s, s.pc.fd, q)) && !(a.Pop? && s.pc.con == q)
  }

  /** Then q is as it was. */
  lemma PassesBy(s: State, a: Step, t: State, q: Ptr)
    requires Can(s, a) && Passes(s, a, q)
    requires (q in t.heap <==> q in s.heap) && (q in s.heap ==> t.heap[q] == s.heap[q])
    ensures Alters(s, a, t, q)
  {
    hide Can, Said, Drops, TookBy, WroteBy, ReadOut, Carries, Tries;
    assert q in s.heap ==> var l := s.heap[q].log;
      l.written + [] == l.written && l.sent + [] == l.sent && l.delivered + [] == l.delivered
      && l.published + [] == l.published;
  }

  lemma SparesAll(s: State, a: Step, q: Ptr)
    requires Can(s, a) && Spares(a)
    ensures Passes(s, a, q)
  {
    hide Can, FindFd, Carries;
  }

  lemma HandlePasses(s: State, a: Step, q: Ptr)
    requires Can(s, a) && (a.Write? || a.Read? || a.DestroyMark?) && a.p != q
    ensures Passes(s, a, q)
    ensures var t := Apply(s, a); (q in t.heap <==> q in s.heap) && (q in s.heap ==> t.heap[q] == s.heap[q])
  {
    hide FindFd, Carries;
  }

  lemma HandleAlters(s: State, a: Step, q: Ptr)
    requires Can(s, a) && (a.Write? || a.Read? || a.DestroyMark?) && a.p == q
    ensures Alters(s, a, Apply(s, a), q)
  {
    hide FindFd, Carries;
  }

  lemma DestroyAlters(s: State, p: Ptr, q: Ptr)
    requires Can(s, DestroyRelease(p))
    ensures Alters(s, DestroyRelease(p), Apply(s, DestroyRelease(p)), q)
  {
    hide FindFd;
  }

  lemma ConnectAlters(s: State, a: Step, q: Ptr)
    requires Can(s, a) && (a.ConnectBegin? || a.Create?)
    ensures Alters(s, a, Apply(s, a), q)
  {
    hide FindFd;
  }

  lemma TryConnectTells(c: Con, r: Attempt)
    ensures var d := TryConnect(c, r);
      && d.log.published == c.log.published + Told(r) && d.state == Told(r)[|Told(r)| - 1]
      && d.fd == (if Fails(r) then -1 else r.fd)
      && d == c.(state := d.state, fd := d.fd, log := c.log.(published := d.log.published))
  {
  }

  /** What the attempt of p leaves: p after it, or p gone; the others as they were. */
  ghost predicate Attempted(s: State, t: State, p: Ptr, r: Attempt) {
    && p in s.heap && s.heap[p].refs > 0
    && (forall q :: q != p ==> (q in t.heap <==> q in s.heap) && (q in s.heap ==> t.heap[q] == s.heap[q]))
    && var d := TryConnect(s.heap[p], r);
       if !Fails(r) then p in t.heap && t.heap[p] == d
       else if s.heap[p].refs == 1 then p !in t.heap
       else p in t.heap && t.heap[p] == d.(disconnect := true, refs := d.refs - 1)
  }

  lemma AdoptAttempts(s: State, r: Attempt) returns (p: Ptr)
    requires Can(s, AdoptOne(r))
    ensures s.pc.Adopting? && s.pc.next < |s.pending| && p == s.pending[s.pc.next]
    ensures Attempted(s, Apply(s, AdoptOne(r)), p, r) && (r.NoSocket? || r.fd >= 0)
  {
    p := s.pending[s.pc.next];
    TryConnectFails(s.heap[p], r);
    hide TryConnect;
  }

  lemma AdoptAlters(s: State, r: Attempt, q: Ptr)
    requires Can(s, AdoptOne(r))
    ensures Alters(s, AdoptOne(r), Apply(s, AdoptOne(r)), q)
  {
    hide Can, Apply, TryConnect, Told, FindFd, Fails, Carries;
    var p := AdoptAttempts(s, r);
    TryConnectTells(s.heap[p], r);
    TryConnectFails(s.heap[p], r);
    if q != p {
      assert Passes(s, AdoptOne(r), q);
      PassesBy(s, AdoptOne(r), Apply(s, AdoptOne(r)), q);
    }
  }

  /** A turn of the send sweep: an entry that is not offered is passed over; of one that is, the kernel
      takes a part, which is still to be popped; and a failed send leads to closing its descriptor. */
  ghost predicate SentTurn(s: State, t: State, r: SendResult, k: nat) {
    && s.pc.Sending? && s.pc.left == k + 1 && k < |s.conns| && s.conns[k] in s.heap
    && var c, back := s.heap[s.conns[k]], Sending(k, s.pc.orig);
       if c.outQ.items == [] || c.master != s.me || c.state != Established then t == s.(pc := back)
       else if r.Broken? then t == s.(pc := Unlinking(c.fd, back))
       else SentSome(s, t, k, s.conns[k], r.n)
  }

  lemma SendTurns(s: State, r: SendResult)
    requires Can(s, SendOne(r))
    ensures SentTurn(s, Apply(s, SendOne(r)), r, s.pc.left - 1)
  {
    var k := s.pc.left - 1;
    var i := FindId(s.heap, s.conns, s.heap[s.conns[k]].id);
    assert i <= k;
    hide FindId;
  }

  lemma SendPasses(s: State, r: SendResult, q: Ptr)
    requires Can(s, SendOne(r)) && (!Offered(s, SendOne(r), q) || r.Broken?)
    ensures Passes(s, SendOne(r), q)
  {
    hide Can, FindFd, Carries;
  }

  lemma SendAlters(s: State, r: SendResult, q: Ptr)
    requires Can(s, SendOne(r))
    ensures Alters(s, SendOne(r), Apply(s, SendOne(r)), q)
  {
    SendTurns(s, r);
    hide Can, Apply, FindFd, Carries;
    var t := Apply(s, SendOne(r));
    if !Offered(s, SendOne(r), q) || r.Broken? {
      SendPasses(s, r, q);
      hide Passes;
      PassesBy(s, SendOne(r), t, q);
    }
  }

  lemma PopAlters(s: State, q: Ptr)
    requires Can(s, Pop)
    ensures Alters(s, Pop, Apply(s, Pop), q)
  {
    hide FindFd, Carries;
  }

  lemma StoreAlters(s: State, q: Ptr)
    requires Can(s, Store)
    ensures Alters(s, Store, Apply(s, Store), q)
  {
    hide FindFd;
  }

  /** A descriptor that became writable: its entry is Established; or the connect was refused, and its
      descriptor is closed. A descriptor that no entry carries changes nothing. */
  lemma WritableAlters(s: State, fd: int, ok: bool, q: Ptr)
    requires Can(s, Writable(fd, ok))
    ensures Alters(s, Writable(fd, ok), Apply(s, Writable(fd, ok)), q)
    ensures Apply(s, Writable(fd, ok)).pc ==
      if !ok && exists i :: 0 <= i < |s.conns| && s.heap[s.conns[i]].fd == fd then Unlinking(fd, Events) else Events
  {
    hide FindFd;
  }

  lemma RetireAlters(s: State, q: Ptr)
    requires Can(s, Retire)
    ensures Alters(s, Retire, Apply(s, Retire), q)
  {
    hide FindFd;
  }

  lemma ArriveAlters(s: State, a: Step, q: Ptr)
    requires Can(s, a) && (a.Arrive? || a.Publish?)
    ensures Alters(s, a, Apply(s, a), q)
  {
    hide FindFd;
  }

  lemma ShutAlters(s: State, a: Step, q: Ptr)
    requires Can(s, a) && (a.ShutPendingOne? || a.ShutConnsOne?)
    ensures Alters(s, a, Apply(s, a), q)
  {
    hide FindFd;
  }

  /** What any step does to any connection. */
  lemma StepAlters(s: State, a: Step, q: Ptr)
    requires Can(s, a)
    ensures Alters(s, a, Apply(s, a), q)
  {
    hide Can, Apply, Alters, Passes;
    if Spares(a) { SparesHeap(s, a); SparesAll(s, a, q); PassesBy(s, a, Apply(s, a), q); }
    else if a.Write? || a.Read? || a.DestroyMark? {
      if a.p == q { HandleAlters(s, a, q); } else { HandlePasses(s, a, q); PassesBy(s, a, Apply(s, a), q); }
    }
    else if a.DestroyRelease? { DestroyAlters(s, a.p, q); }
    else if OfApplication(a) { ConnectAlters(s, a, q); }
    else if a.AdoptOne? { AdoptAlters(s, a.attempt, q); }
    else if a.SendOne? { SendAlters(s, a.result, q); }
    else if a.Pop? { PopAlters(s, q); }
    else if a.Store? { StoreAlters(s, q); }
    else if a.Writable? { WritableAlters(s, a.fd, a.ok, q); }
    else if a.Retire? { RetireAlters(s, q); }
    else if a.Arrive? || a.Publish? { ArriveAlters(s, a, q); }
    else { ShutAlters(s, a, q); }
  }

  /** A read hands out the first bytes of the in-queue, as many as were asked for or as there are, keeps
      the rest, and changes nothing else. */
  lemma ReadYields(s: State, p: Ptr, n: nat) returns (d: Con)
    requires Can(s, Read(p, n))
    ensures p in s.heap
    ensures var c, m := s.heap[p], Least(n, |s.heap[p].inQ.items|);
      && Apply(s, Read(p, n)) == s.(heap := s.heap[p := d])
      && d == c.(inQ := d.inQ, log := c.log.(delivered := d.log.delivered))
      && d.log.delivered == c.log.delivered + c.inQ.items[..m] && d.inQ.items == c.inQ.items[m..]
  {
    d := Apply(s, Read(p, n)).heap[p];
  }

  /** What begins a close: a hang-up or a failed read, of its own descriptor; a marked entry in the close
      sweep, of its entry's. */
  lemma CloseStarts(s: State, a: Step)
    requires Can(s, a)
    ensures a.Hangup? ==> Apply(s, a).pc == Unlinking(a.fd, Events)
    ensures a.CloseOne? ==>
      var c, back := s.heap[s.conns[s.pc.left - 1]], Closing(s.pc.left - 1, s.pc.orig);
      Apply(s, a).pc == if c.disconnect then Unlinking(c.fd, back) else back
  {
    if !a.Hangup? && !a.CloseOne? { hide Can, Apply; }
  }
}
