/** What the run so far tells of a connection: why it is Established, why it is marked for closing, and
    what its application was handed. */
module History {
  import opened Bytes
  import opened Connections
  import opened EventLoop
  import opened Ownership
  import opened Conduct
  import opened LoopProgress
  import opened Meaning
  import opened Runs
  import opened Sweeps

  /** p is live all along. */
  ghost predicate StaysLive(s: State, steps: seq<Step>, t: State, p: Ptr)
    requires Leads(s, steps, t)
    decreases |steps|
  {
    p in s.heap && (steps != [] ==> StaysLive(Apply(s, steps[0]), steps[1..], t, p))
  }

  // ---------------------------------------------------------------- what was read

  /** Everything p's application was handed along a run, in order. */
  ghost function HandedIn(s: State, steps: seq<Step>, t: State, p: Ptr): seq<byte>
    requires Leads(s, steps, t)
    decreases |steps|
  {
    if steps == [] then [] else ReadOut(s, steps[0], p) + HandedIn(Apply(s, steps[0]), steps[1..], t, p)
  }

  lemma AlteredRecords(s: State, a: Step, t: State, p: Ptr)
    requires Can(s, a) && Alters(s, a, t, p) && p in s.heap && p in t.heap
    ensures t.heap[p].log.delivered == s.heap[p].log.delivered + ReadOut(s, a, p)
    ensures t.heap[p].log.written == s.heap[p].log.written + WroteBy(a, p)
  {
    hide Can, ReadOut, WroteBy, TookBy, Said, Queues, Marks, Carries;
  }

  /** Over any run a live connection's application was handed exactly what its reads took from the front
      of the in-queue, and wrote exactly what its writes say. */
  lemma {:induction false} RunRecords(s: State, steps: seq<Step>, t: State, p: Ptr)
    requires Leads(s, steps, t) && StaysLive(s, steps, t, p)
    ensures p in t.heap && p in s.heap
    ensures t.heap[p].log.delivered == s.heap[p].log.delivered + HandedIn(s, steps, t, p)
    ensures t.heap[p].log.written == s.heap[p].log.written + WrittenIn(steps, p)
    decreases |steps|
  {
    hide Can, Apply, Alters, ReadOut, WroteBy;
    if steps != [] {
      StepAlters(s, steps[0], p);
      RunRecords(Apply(s, steps[0]), steps[1..], t, p);
      AlteredRecords(s, steps[0], Apply(s, steps[0]), p);
    }
  }

  // ---------------------------------------------------------------- causes

  datatype Cause =
    | Opening     // the connection became Established
    | Marking     // it was marked for closing, for whatever reason
    | Destroying  // its application destroyed it

  ghost predicate Causes(k: Cause, s: State, a: Step, p: Ptr)
    requires Can(s, a)
  {
    match k
    case Opening =>
      || (Tries(s, a, p) && a.attempt.Connected? && a.attempt.registered)
      || (a.Writable? && a.ok && Carries(s, a.fd, p))
      || (a.Arrive? && a.p == p)
    case Marking => Marks(s, a, p)
    case Destroying => a == DestroyMark(p) || a == DestroyRelease(p)
  }

  /** The cause occurred along the run, and p has been live ever since. */
  ghost predicate Since(k: Cause, s: State, steps: seq<Step>, t: State, p: Ptr)
    requires Leads(s, steps, t)
    decreases |steps|
  {
    steps != [] && (
      || (Causes(k, s, steps[0], p) && StaysLive(Apply(s, steps[0]), steps[1..], t, p))
      || Since(k, Apply(s, steps[0]), steps[1..], t, p))
  }

  /** What the cause explains. Destroying explains the marks of connections that have not failed, until
      the shutdown. */
  ghost predicate Shows(k: Cause, s: State, p: Ptr) {
    p in s.heap &&
    match k
    case Opening => s.heap[p].state == Established
    case Marking => s.heap[p].disconnect
    case Destroying => s.heap[p].disconnect && Failed !in s.heap[p].log.published && !Shutting(s.pc)
  }

  lemma AlteredShows(k: Cause, s: State, a: Step, t: State, p: Ptr)
    requires Can(s, a) && Alters(s, a, t, p) && Shows(k, t, p) && (Shutting(s.pc) ==> Shutting(t.pc))
    requires a.ShutPendingOne? || a.ShutConnsOne? ==> Shutting(t.pc)
    ensures Shows(k, s, p) || Causes(k, s, a, p)
  {
    hide Can, Carries, Records, Queues;
    if p in s.heap && k.Destroying? { FailedPublished(s, a, t, p); }
  }

  lemma FailedPublished(s: State, a: Step, t: State, p: Ptr)
    requires Can(s, a) && Alters(s, a, t, p) && p in s.heap && p in t.heap && Failed !in t.heap[p].log.published
    ensures Failed !in s.heap[p].log.published && !(Tries(s, a, p) && Fails(a.attempt))
    ensures !(a.Retire? && Carries(s, s.pc.fd, p))
  {
    var b, said, b' := s.heap[p].log.published, Said(s, a, p), t.heap[p].log.published;
    hide Can, Carries, Records, Queues, Marks;
    assert b' == b + said;
    if said != [] { assert b'[|b'| - 1] == said[|said| - 1]; }
  }

  lemma {:induction false} RunShows(k: Cause, s: State, steps: seq<Step>, t: State, p: Ptr)
    requires Inv(s) && Leads(s, steps, t) && Shows(k, t, p)
    ensures (Shows(k, s, p) && StaysLive(s, steps, t, p)) || Since(k, s, steps, t, p)
    decreases |steps|
  {
    hide Inv, Can, Apply, Alters, Causes, Shutting;
    if steps != [] {
      var a, u := steps[0], Apply(s, steps[0]);
      StepKeeps(s, a);
      RunShows(k, u, steps[1..], t, p);
      if Shows(k, u, p) {
        ShutStays(s, a);
        StepAlters(s, a, p);
        AlteredShows(k, s, a, u, p);
      }
    }
  }

  lemma FromTheStart(k: Cause, role: Role, me: int, steps: seq<Step>, s: State, p: Ptr)
    requires Leads(Initial(role, me), steps, s) && Shows(k, s, p)
    ensures Since(k, Initial(role, me), steps, s, p)
  {
    InitialHolds(role, me);
    hide Inv, Leads, Since, StaysLive;
    RunShows(k, Initial(role, me), steps, s, p);
  }

  /** A live connection that is Established had, since it came to be, an attempt that connected it at
      once, or its descriptor became writable without an error, or it arrived as a peer's connection. */
  lemma EstablishedWasOpened(role: Role, me: int, steps: seq<Step>, s: State, p: Ptr)
    requires Leads(Initial(role, me), steps, s) && p in s.heap && s.heap[p].state == Established
    ensures Since(Opening, Initial(role, me), steps, s, p)
  {
    hide Leads, Since, Initial;
    FromTheStart(Opening, role, me, steps, s, p);
  }

  lemma AlteredMarks(s: State, a: Step, t: State, p: Ptr)
    requires Can(s, a) && Alters(s, a, t, p) && p in t.heap
    requires if p in s.heap then s.heap[p].disconnect || Marks(s, a, p) else Marks(s, a, p)
    ensures t.heap[p].disconnect
  {
    hide Can, Carries, Records, Queues, Said;
  }

  lemma {:induction false} MarkStays(s: State, steps: seq<Step>, t: State, p: Ptr)
    requires Leads(s, steps, t) && StaysLive(s, steps, t, p) && s.heap[p].disconnect
    ensures p in t.heap && t.heap[p].disconnect
    decreases |steps|
  {
    hide Can, Apply, Alters;
    if steps != [] {
      StepAlters(s, steps[0], p);
      AlteredMarks(s, steps[0], Apply(s, steps[0]), p);
      MarkStays(Apply(s, steps[0]), steps[1..], t, p);
    }
  }

  lemma LiveNow(s: State, steps: seq<Step>, t: State, p: Ptr)
    requires Leads(s, steps, t) && StaysLive(s, steps, t, p)
    ensures p in s.heap
  {
  }

  lemma {:induction false} SinceMarked(k: Cause, s: State, steps: seq<Step>, t: State, p: Ptr)
    requires Leads(s, steps, t) && Since(k, s, steps, t, p) && !k.Opening?
    ensures p in t.heap && t.heap[p].disconnect
    decreases |steps|
  {
    hide Can, Apply, Alters, Marks, StaysLive;
    var a, u := steps[0], Apply(s, steps[0]);
    if Causes(k, s, a, p) && StaysLive(u, steps[1..], t, p) {
      LiveNow(u, steps[1..], t, p);
      StepAlters(s, a, p);
      DestroyingMarks(k, s, a, p);
      AlteredMarks(s, a, u, p);
      MarkStays(u, steps[1..], t, p);
    } else {
      SinceMarked(k, u, steps[1..], t, p);
    }
  }

  lemma DestroyingMarks(k: Cause, s: State, a: Step, p: Ptr)
    requires Can(s, a) && Causes(k, s, a, p) && !k.Opening?
    ensures Marks(s, a, p)
  {
    hide Can, Carries;
  }

  /** Over any run, a live connection is marked for closing if and only if, since it came to be, its
      application destroyed it, an attempt for it failed, or a close or the shutdown let go of an entry
      of it. */
  lemma MarkedIff(role: Role, me: int, steps: seq<Step>, s: State, p: Ptr)
    requires Leads(Initial(role, me), steps, s)
    ensures (p in s.heap && s.heap[p].disconnect) <==> Since(Marking, Initial(role, me), steps, s, p)
  {
    hide Leads, Since, Initial;
    if p in s.heap && s.heap[p].disconnect { FromTheStart(Marking, role, me, steps, s, p); }
    if Since(Marking, Initial(role, me), steps, s, p) { SinceMarked(Marking, Initial(role, me), steps, s, p); }
  }

  /** A polite run is a run: the next lemma names it both ways. */
  lemma {:induction false} PolitelyIsLeads(s: State, steps: seq<Step>, t: State)
    requires LeadsPolitely(s, steps, t)
    ensures Leads(s, steps, t)
    decreases |steps|
  {
    hide Can, Apply, ConnectsOnce;
    if steps != [] { PolitelyIsLeads(Apply(s, steps[0]), steps[1..], t); }
  }

  /** In polite runs, from the start: a close sweep closes every entry that its application destroyed
      before the sweep began, and none that its application has not destroyed by the sweep's end. */
  lemma SweepClosesDestroyed(role: Role, me: int, before: seq<Step>, s: State, steps: seq<Step>, t: State, p: Ptr)
    requires LeadsPolitely(Initial(role, me), before, s) && Leads(Initial(role, me), before, s)
    requires LeadsPolitely(s, steps, t) && SweepStarts(s) && SweepDone(t) && s.pc.Closing? && p in s.conns
    requires forall a :: a in steps ==> !a.SendEnd? && !a.CloseEnd?
    ensures Since(Destroying, Initial(role, me), before, s, p) ==> p in Doomed(s, steps, t)
    ensures p in Doomed(s, steps, t) ==>
      Since(Destroying, Initial(role, me), before, s, p) || DestroyMark(p) in steps || DestroyRelease(p) in steps
  {
    var i :| 0 <= i < |s.conns| && s.conns[i] == p;
    assert PolitelyReachable(s) && !Shutting(s.pc);
    hide PolitelyReachable, Leads, LeadsPolitely, Since, Initial, SweepStarts, SweepDone, Doomed;
    CloseSweepCondemns(s, steps, t, p);
    EntriesAreUsable(s, i);
    StatesFollowDiagram(s, p);
    if s.heap[p].disconnect { FromTheStart(Destroying, role, me, before, s, p); }
    if Since(Destroying, Initial(role, me), before, s, p) { SinceMarked(Destroying, Initial(role, me), before, s, p); }
  }
}
