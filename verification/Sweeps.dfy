/** What a whole sweep leaves, however the applications interleave with it: which entries are gone, and
    what happened to the others. */
module Sweeps {
  import opened Bytes
  import opened Vectors
  import opened Connections
  import opened EventLoop
  import opened Ownership
  import opened Conduct
  import opened ConductSteps
  import opened ConductLoop
  import opened Meaning
  import opened Runs

  /** A step inside a sweep. */
  ghost predicate WithinSweep(s: State, a: Step) { Can(s, a) && InSweep(s.pc) && !a.SendEnd? && !a.CloseEnd? }

  /** The entry whose turn the step is, if the turn ends in a close: it finds the entry marked, or its
      send fails. */
  ghost function Condemned(s: State, a: Step): set<Ptr>
    requires Can(s, a)
  {
    if a.CloseOne? && s.heap[s.conns[s.pc.left - 1]].disconnect then {s.conns[s.pc.left - 1]}
    else if a.SendOne? && a.result.Broken? && Offered(s, a, s.conns[s.pc.left - 1]) then {s.conns[s.pc.left - 1]}
    else {}
  }

  /** Everybody condemned along a run. */
  ghost function Doomed(s: State, steps: seq<Step>, t: State): set<Ptr>
    requires LeadsPolitely(s, steps, t)
    decreases |steps|
  {
    if steps == [] then {} else Condemned(s, steps[0]) + Doomed(Apply(s, steps[0]), steps[1..], t)
  }

  ghost function TakenIn(s: State, steps: seq<Step>, t: State, p: Ptr): seq<byte>
    requires LeadsPolitely(s, steps, t)
    decreases |steps|
  {
    if steps == [] then [] else TookBy(s, steps[0], p) + TakenIn(Apply(s, steps[0]), steps[1..], t, p)
  }

  // ---------------------------------------------------------------- who is being closed

  predicate Unseating(pc: Pc) { pc.Unlinking? || pc.Retiring? }

  /** The entry that is being closed. */
  function Leaving(s: State): set<Ptr> {
    if Unseating(s.pc) && Left(s.pc) < |s.conns| then {s.conns[Left(s.pc)]} else {}
  }

  /** close_connection was called for the entry under the sweep index. */
  ghost predicate Aimed(s: State) {
    Unseating(s.pc) ==>
      && Left(s.pc) < |s.conns| && s.conns[Left(s.pc)] in s.heap
      && s.heap[s.conns[Left(s.pc)]].fd == s.pc.fd
  }

  ghost predicate Steady(s: State) { Inv(s) && Conducts(s) && InSweep(s.pc) && Aimed(s) }

  /** The step takes out of the table nobody but who was being closed, and begins to close nobody but
      who it condemns. */
  ghost predicate Sifts(s: State, t: State, condemned: set<Ptr>, retires: bool) {
    if retires then condemned == {} && Leaving(t) == {} && t.conns == Sift(s.conns, Leaving(s))
    else t.conns == s.conns && Leaving(t) == Leaving(s) + condemned
  }

  lemma AppSifts(s: State, a: Step)
    requires Steady(s) && WithinSweep(s, a) && OfApplication(a) && Inv(Apply(s, a))
    ensures Aimed(Apply(s, a)) && Sifts(s, Apply(s, a), {}, false)
  {
    hide Inv, Conducts, Can, Apply, Sift;
    AppLeavesLoop(s, a);
    ConnsPresent(Apply(s, a));
  }

  lemma SendSifts(s: State, r: SendResult)
    requires InSweep(s.pc) && Can(s, SendOne(r))
    ensures Aimed(Apply(s, SendOne(r))) && Sifts(s, Apply(s, SendOne(r)), Condemned(s, SendOne(r)), false)
  {
    SendTurns(s, r);
    var k := s.pc.left - 1;
    hide Can, Apply, Sift;
    assert Left(Sending(k, s.pc.orig)) == k;
  }

  lemma CloseSifts(s: State)
    requires Can(s, CloseOne)
    ensures Aimed(Apply(s, CloseOne)) && Sifts(s, Apply(s, CloseOne), Condemned(s, CloseOne), false)
  {
    hide Sift;
    assert Left(Closing(s.pc.left - 1, s.pc.orig)) == s.pc.left - 1;
  }

  lemma PopSifts(s: State)
    requires Can(s, Pop)
    ensures Aimed(Apply(s, Pop)) && Sifts(s, Apply(s, Pop), {}, false)
  {
    hide Sift;
  }

  lemma UnlinkSifts(s: State)
    requires Aimed(s) && Can(s, Unlink)
    ensures Aimed(Apply(s, Unlink)) && Sifts(s, Apply(s, Unlink), {}, false)
  {
    hide Sift, DropFd, FindFd;
  }

  lemma FindsLeaving(s: State)
    requires Steady(s) && Unseating(s.pc) && AllIn(s.heap, s.conns)
    ensures Left(s.pc) < |s.conns| && FindFd(s.heap, s.conns, s.pc.fd) == Left(s.pc)
    ensures Distinct(s.conns)
  {
    hide Inv, Conducted, Wired, Watched, Ordered, Single;
    SeatsDistinct(s);
    assert LiveConns(s) == s.conns;
  }

  lemma RetireFinds(s: State)
    requires Steady(s) && Can(s, Retire)
    ensures s.pc.Retiring? && Unseating(s.pc) && AllIn(s.heap, s.conns) && Distinct(s.conns)
    ensures Left(s.pc) < |s.conns| && FindFd(s.heap, s.conns, s.pc.fd) == Left(s.pc)
  {
    hide Steady, FindFd, Distinct, Kernel;
    FindsLeaving(s);
  }

  lemma RetireTakes(s: State, i: nat)
    requires Can(s, Retire) && i < |s.conns| && AllIn(s.heap, s.conns) && FindFd(s.heap, s.conns, s.pc.fd) == i
    ensures Apply(s, Retire).conns == Without(s.conns, i) && Apply(s, Retire).pc == s.pc.back
  {
    hide FindFd, Without, CloseEntry;
  }

  lemma TakenOut(s: State, t: State)
    requires s.pc.Retiring? && Left(s.pc) < |s.conns| && t.conns == Sift(s.conns, {s.conns[Left(s.pc)]})
    requires t.pc == s.pc.back && (t.pc.Sending? || t.pc.Closing?)
    ensures Aimed(t) && Sifts(s, t, {}, true)
  {
    hide Sift;
  }

  lemma RetireSifts(s: State)
    requires Can(s, Retire) && (s.pc.back.Sending? || s.pc.back.Closing?) && AllIn(s.heap, s.conns)
    requires Left(s.pc) < |s.conns| && FindFd(s.heap, s.conns, s.pc.fd) == Left(s.pc) && Distinct(s.conns)
    ensures Aimed(Apply(s, Retire)) && Sifts(s, Apply(s, Retire), {}, true)
  {
    hide Safe, Kernel, Apply, Sift, Distinct, Without, FindFd;
    RetireTakes(s, Left(s.pc));
    SiftOne(s.conns, Left(s.pc));
    TakenOut(s, Apply(s, Retire));
  }

  /** Every step of a sweep. */
  lemma StepSifts(s: State, a: Step)
    requires Steady(s) && WithinSweep(s, a) && ConnectsOnce(s, a)
    ensures Steady(Apply(s, a)) && Sifts(s, Apply(s, a), Condemned(s, a), a.Retire?)
  {
    hide Inv, Conducts, Can, Apply, ConnectsOnce, Aimed, Sifts, InSweep;
    StepConducts(s, a);
    SweepEnables(s, a);
    StaysInSweep(s, a);
    if OfApplication(a) { AppSifts(s, a); }
    else if a.SendOne? { SendSifts(s, a.result); }
    else if a.CloseOne? { CloseSifts(s); }
    else if a.Pop? { PopSifts(s); }
    else if a.Unlink? { UnlinkSifts(s); }
    else { ReturnsToSweep(s); RetireFinds(s); RetireSifts(s); }
  }

  lemma ReturnsToSweep(s: State)
    requires InSweep(s.pc) && Can(s, Retire)
    ensures s.pc.back.Sending? || s.pc.back.Closing?
  {
  }

  lemma StaysInSweep(s: State, a: Step)
    requires WithinSweep(s, a)
    ensures InSweep(Apply(s, a).pc)
  {
    SweepStep(s, a);
  }

  lemma SiftsOn(s: State, t: State, condemned: set<Ptr>, retires: bool, later: set<Ptr>)
    requires Sifts(s, t, condemned, retires)
    ensures Sift(t.conns, Leaving(t) + later) == Sift(s.conns, Leaving(s) + (condemned + later))
  {
    if !retires {
      assert Leaving(t) + later == Leaving(s) + (condemned + later);
    } else {
      SiftMore(s.conns, Leaving(s), later);
      assert Leaving(t) + later == later && condemned + later == later;
    }
  }

  lemma {:induction false} RunSifts(s: State, steps: seq<Step>, t: State)
    requires Steady(s) && LeadsPolitely(s, steps, t)
    requires forall a :: a in steps ==> !a.SendEnd? && !a.CloseEnd?
    ensures Steady(t)
    ensures Sift(t.conns, Leaving(t)) == Sift(s.conns, Leaving(s) + Doomed(s, steps, t))
    decreases |steps|
  {
    hide Steady, Can, Apply, ConnectsOnce, Condemned, Sifts, Leaving, Sift;
    if steps == [] {
      assert Leaving(s) + Doomed(s, steps, t) == Leaving(s);
    } else {
      var a, s' := steps[0], Apply(s, steps[0]);
      assert WithinSweep(s, a) by { SteadySweeps(s); }
      StepSifts(s, a);
      RunSifts(s', steps[1..], t);
      SiftsOn(s, s', Condemned(s, a), a.Retire?, Doomed(s', steps[1..], t));
    }
  }

  lemma SteadySweeps(s: State)
    requires Steady(s)
    ensures InSweep(s.pc)
  {
  }

  // ---------------------------------------------------------------- an entry that stays

  /** From c to d the connection p had at most its own application and its own turn act on it. */
  ghost predicate Kept(c: Con, d: Con, a: Step, p: Ptr, took: seq<byte>) {
    && d.state == c.state && d.log.published == c.log.published
    && d.log.written == c.log.written + WroteBy(a, p) && d.log.sent == c.log.sent + took
    && (c.disconnect ==> d.disconnect)
    && (d.disconnect && !c.disconnect ==> a == DestroyMark(p) || a == DestroyRelease(p))
  }

  ghost predicate KeptBy(s: State, a: Step, t: State, p: Ptr)
    requires Can(s, a)
  {
    p in s.heap && p in t.heap && Kept(s.heap[p], t.heap[p], a, p, TookBy(s, a, p))
  }

  /** A step of a sweep, or of an application, that does not close p. */
  lemma QuietKeeps(s: State, a: Step, t: State, p: Ptr)
    requires Can(s, a) && (OfSweep(a) || OfApplication(a)) && a != ConnectBegin(p) && p in s.heap && p in t.heap
    requires Alters(s, a, t, p) && !(a.Retire? && Carries(s, s.pc.fd, p))
    ensures KeptBy(s, a, t, p)
  {
    hide Can, Carries, WroteBy, TookBy, ReadOut, Queues;
  }

  lemma SiftsStay(s: State, t: State, condemned: set<Ptr>, retires: bool, p: Ptr)
    requires Sifts(s, t, condemned, retires) && p in s.conns && p !in Leaving(s)
    ensures p in t.conns && (p in Leaving(t) ==> p in condemned)
  {
    SiftMembers(s.conns, Leaving(s), p);
  }

  lemma SeatedLive(s: State, p: Ptr)
    requires Steady(s) && p in s.conns
    ensures p in s.heap && s.heap[p].log.connects == 1
  {
    ConnsPresent(s);
    assert LiveConns(s) == s.conns;
    SeatedBehaves(s, p);
  }

  /** Every entry that is not being closed itself. */
  lemma StepKeepsEntry(s: State, a: Step, p: Ptr)
    requires Steady(s) && WithinSweep(s, a) && ConnectsOnce(s, a) && p in s.conns && p !in Leaving(s)
    ensures var t := Apply(s, a);
      && Steady(t) && p in t.conns && (p in Leaving(t) ==> p in Condemned(s, a)) && KeptBy(s, a, t, p)
  {
    hide Steady, Can, Apply, Condemned, Sifts, KeptBy;
    StepSifts(s, a);
    SiftsStay(s, Apply(s, a), Condemned(s, a), a.Retire?, p);
    SeatedLive(s, p);
    SeatedLive(Apply(s, a), p);
    SweepEnables(s, a);
    StepAlters(s, a, p);
    if a.Retire? { RetireFinds(s); }
    QuietKeeps(s, a, Apply(s, a), p);
  }

  /** What a stretch of a sweep does to an entry that nobody condemned. */
  lemma {:induction false} RunKeepsEntry(s: State, steps: seq<Step>, t: State, p: Ptr)
    requires Steady(s) && LeadsPolitely(s, steps, t) && p in s.conns && p !in Leaving(s)
    requires (forall a :: a in steps ==> !a.SendEnd? && !a.CloseEnd?) && p !in Doomed(s, steps, t)
    ensures p in s.heap && p in t.conns && p in t.heap
    ensures var c, d := s.heap[p], t.heap[p];
      && d.state == c.state && d.log.published == c.log.published
      && d.log.written == c.log.written + WrittenIn(steps, p) && d.log.sent == c.log.sent + TakenIn(s, steps, t, p)
    decreases |steps|
  {
    hide Steady, Can, Apply, ConnectsOnce, Condemned, Leaving, WroteBy, TookBy;
    SeatedLive(s, p);
    if steps != [] {
      assert WithinSweep(s, steps[0]) by { SteadySweeps(s); }
      StepKeepsEntry(s, steps[0], p);
      RunKeepsEntry(Apply(s, steps[0]), steps[1..], t, p);
    }
  }

  // ---------------------------------------------------------------- who is condemned

  /** The sweep that closes marked entries. */
  predicate CloseSweep(pc: Pc) { pc.Closing? || (Unseating(pc) && pc.back.Closing?) }

  lemma StaysCloseSweep(s: State, a: Step)
    requires WithinSweep(s, a) && CloseSweep(s.pc)
    ensures CloseSweep(Apply(s, a).pc) && !a.SendOne?
  {
    SweepEnables(s, a);
    if OfApplication(a) { AppLeavesLoop(s, a); hide Can, Apply; }
  }

  lemma StaysSendSweep(s: State, a: Step)
    requires WithinSweep(s, a) && !CloseSweep(s.pc)
    ensures !CloseSweep(Apply(s, a).pc) && !a.CloseOne?
  {
    SweepEnables(s, a);
    hide Can, Apply;
    if OfApplication(a) { AppLeavesLoop(s, a); }
    else if a.SendOne? { SendTurns(s, a.result); }
    else { SendSweepGoesOn(s, a); }
  }

  lemma SendSweepGoesOn(s: State, a: Step)
    requires Can(s, a) && InSweep(s.pc) && !CloseSweep(s.pc) && OfSweep(a) && !a.SendOne?
    ensures !CloseSweep(Apply(s, a).pc) && !a.CloseOne?
  {
  }

  /** It is p's turn, and its send fails. */
  ghost predicate OwnSendFails(s: State, a: Step, p: Ptr)
    requires Can(s, a)
  {
    a == SendOne(Broken) && s.conns[s.pc.left - 1] == p
  }

  ghost predicate FailsAtTurn(s: State, steps: seq<Step>, t: State, p: Ptr)
    requires LeadsPolitely(s, steps, t)
    decreases |steps|
  {
    steps != [] && (OwnSendFails(s, steps[0], p) || FailsAtTurn(Apply(s, steps[0]), steps[1..], t, p))
  }

  /** A send sweep condemns only Established entries, at their own turn, by a send that fails. */
  lemma {:induction false} BrokenDoomed(s: State, steps: seq<Step>, t: State, p: Ptr)
    requires Steady(s) && !CloseSweep(s.pc) && LeadsPolitely(s, steps, t) && p in s.conns && p !in Leaving(s)
    requires (forall a :: a in steps ==> !a.SendEnd? && !a.CloseEnd?) && p in Doomed(s, steps, t)
    ensures p in s.heap && s.heap[p].state == Established && FailsAtTurn(s, steps, t, p)
    decreases |steps|
  {
    hide Steady, Can, Apply, ConnectsOnce, Leaving, WroteBy, TookBy, CloseSweep;
    var a := steps[0];
    assert WithinSweep(s, a) by { SteadySweeps(s); }
    StepKeepsEntry(s, a, p);
    StaysSendSweep(s, a);
    if p !in Condemned(s, a) { BrokenDoomed(Apply(s, a), steps[1..], t, p); }
  }

  /** Nobody destroys p. */
  predicate Undestroyed(steps: seq<Step>, p: Ptr) { DestroyMark(p) !in steps && DestroyRelease(p) !in steps }

  /** An entry nobody has marked and nobody marks stays out of it. */
  lemma {:induction false} UnmarkedSpared(s: State, steps: seq<Step>, t: State, p: Ptr)
    requires Steady(s) && CloseSweep(s.pc) && LeadsPolitely(s, steps, t) && p in s.conns && p !in Leaving(s)
    requires (forall a :: a in steps ==> !a.SendEnd? && !a.CloseEnd?) && Undestroyed(steps, p)
    requires p in s.heap && !s.heap[p].disconnect
    ensures p !in Doomed(s, steps, t)
    decreases |steps|
  {
    hide Steady, Can, Apply, ConnectsOnce, Leaving, WroteBy, TookBy, CloseSweep;
    if steps != [] {
      var a := steps[0];
      assert a in steps;
      assert WithinSweep(s, a) by { SteadySweeps(s); }
      StepKeepsEntry(s, a, p);
      StaysCloseSweep(s, a);
      UnmarkedSpared(Apply(s, a), steps[1..], t, p);
    }
  }

  lemma NotYetVisited(s: State, i: nat)
    requires Steady(s) && i < Left(s.pc)
    ensures i < |s.conns| && s.conns[i] in s.heap && s.conns[i] !in Leaving(s)
    ensures i < |Orig(s.pc)| && s.conns[i] == Orig(s.pc)[i]
  {
    hide Inv, Conducted, Single, Wired, Watched, Ordered, Spared;
    ConnsPresent(s);
    assert LiveConns(s) == s.conns;
    SeatsDistinct(s);
  }

  lemma VisitsLast(s: State, a: Step, i: nat)
    requires WithinSweep(s, a) && i < Left(s.pc)
    ensures Orig(Apply(s, a).pc) == Orig(s.pc)
    ensures i < Left(Apply(s, a).pc) || ((a.SendOne? || a.CloseOne?) && s.pc.left - 1 == i)
  {
    SweepStep(s, a);
  }

  /** An entry that is marked before its turn is closed. */
  lemma {:induction false} MarkedDoomed(s: State, steps: seq<Step>, t: State, i: nat)
    requires Steady(s) && CloseSweep(s.pc) && LeadsPolitely(s, steps, t) && Left(t.pc) == 0
    requires forall a :: a in steps ==> !a.SendEnd? && !a.CloseEnd?
    requires i < Left(s.pc) && i < |s.conns| && s.conns[i] in s.heap && s.heap[s.conns[i]].disconnect
    ensures s.conns[i] in Doomed(s, steps, t)
    decreases |steps|
  {
    hide Steady, Can, Apply, ConnectsOnce, Leaving, WroteBy, TookBy, CloseSweep, Left, Orig;
    var p := s.conns[i];
    var a, s' := steps[0], Apply(s, steps[0]);
    assert WithinSweep(s, a) by { SteadySweeps(s); }
    NotYetVisited(s, i);
    StaysCloseSweep(s, a);
    VisitsLast(s, a, i);
    if i < Left(s'.pc) {
      StepKeepsEntry(s, a, p);
      NotYetVisited(s', i);
      MarkedDoomed(s', steps[1..], t, i);
    }
  }

  // ---------------------------------------------------------------- what becomes of the closed

  /** p is gone, or a failed connection. */
  ghost predicate Fallen(s: State, p: Ptr) { p in s.heap ==> s.heap[p].state == Failed }

  lemma IdleIfUnconnected(s: State, p: Ptr)
    requires Steady(s) && p in s.heap && s.heap[p].log.connects == 0
    ensures s.heap[p].state == Idle
  {
    hide Inv, Single, Wired, Watched, Swept, Ordered, Queued, Seated, Aimed;
    assert Behaves(s.role, s.heap[p], Queued(s, p), Seated(s, p));
  }

  lemma FallenAltered(s: State, a: Step, t: State, p: Ptr)
    requires Can(s, a) && (OfSweep(a) || OfApplication(a)) && !a.Create? && Alters(s, a, t, p) && Fallen(s, p)
    requires p in s.heap && a == ConnectBegin(p) ==> s.heap[p].state == Idle
    ensures Fallen(t, p)
  {
    hide Can, Carries, Records, Queues;
  }

  lemma StepFallen(s: State, a: Step, p: Ptr)
    requires Steady(s) && WithinSweep(s, a) && ConnectsOnce(s, a) && Fallen(s, p)
    ensures Fallen(Apply(s, a), p)
  {
    hide Steady, Can, Apply, Alters;
    SweepEnables(s, a);
    StepAlters(s, a, p);
    if p in s.heap && a == ConnectBegin(p) { IdleIfUnconnected(s, p); }
    FallenAltered(s, a, Apply(s, a), p);
  }

  lemma RetireFells(s: State, t: State, p: Ptr)
    requires Can(s, Retire) && Alters(s, Retire, t, p) && p in s.heap && Carries(s, s.pc.fd, p)
    ensures Fallen(t, p)
  {
    hide Can, Carries, Records, Queues;
  }

  lemma {:induction false} StaysFallen(s: State, steps: seq<Step>, t: State, p: Ptr)
    requires Steady(s) && LeadsPolitely(s, steps, t) && forall a :: a in steps ==> !a.SendEnd? && !a.CloseEnd?
    requires Fallen(s, p)
    ensures Fallen(t, p)
    decreases |steps|
  {
    hide Steady, Can, Apply, ConnectsOnce, Fallen;
    if steps != [] {
      assert WithinSweep(s, steps[0]) by { SteadySweeps(s); }
      StepSifts(s, steps[0]);
      StepFallen(s, steps[0], p);
      StaysFallen(Apply(s, steps[0]), steps[1..], t, p);
    }
  }

  /** Whoever was being closed, or is condemned on the way, has failed when the sweep is through. */
  lemma {:induction false} DoomedFall(s: State, steps: seq<Step>, t: State, p: Ptr)
    requires Steady(s) && LeadsPolitely(s, steps, t) && forall a :: a in steps ==> !a.SendEnd? && !a.CloseEnd?
    requires (p in Leaving(s) || p in Doomed(s, steps, t)) && Leaving(t) == {}
    ensures Fallen(t, p)
    decreases |steps|
  {
    hide Steady, Can, Apply, ConnectsOnce, Fallen, Leaving, Condemned;
    if steps != [] {
      var a, s' := steps[0], Apply(s, steps[0]);
      assert WithinSweep(s, a) by { SteadySweeps(s); }
      StepSifts(s, a);
      if p in Leaving(s) || p in Condemned(s, a) { FallsOn(s, a, p); }
      if Fallen(s', p) { StaysFallen(s', steps[1..], t, p); } else { DoomedFall(s', steps[1..], t, p); }
    }
  }

  lemma FallsOn(s: State, a: Step, p: Ptr)
    requires Steady(s) && WithinSweep(s, a) && ConnectsOnce(s, a) && (p in Leaving(s) || p in Condemned(s, a))
    ensures p in Leaving(Apply(s, a)) || Fallen(Apply(s, a), p)
  {
    hide Steady, Can, Apply, Condemned, Fallen, Sift, Alters;
    StepSifts(s, a);
    if a.Retire? {
      RetireFinds(s);
      StepAlters(s, a, p);
      RetireFells(s, Apply(s, a), p);
    }
  }

  // ---------------------------------------------------------------- the outcome

  lemma SweepBegins(s: State)
    requires PolitelyReachable(s) && SweepStarts(s)
    ensures Steady(s) && Leaving(s) == {} && Left(s.pc) == |s.conns|
    ensures s.pc.Closing? <==> CloseSweep(s.pc)
  {
    hide PolitelyReachable, Inv, Conducts;
    PoliteInv(s);
  }

  lemma SweepOver(t: State)
    requires Steady(t) && SweepDone(t)
    ensures Leaving(t) == {} && Left(t.pc) == 0
  {
    hide Inv, Conducts, Aimed;
  }

  /** Between two turns what was written and not sent is what the out-queue holds. */
  lemma OwedBetween(s: State, p: Ptr)
    requires Steady(s) && (SweepStarts(s) || SweepDone(s)) && p in s.heap
    ensures s.heap[p].log.written == s.heap[p].log.sent + s.heap[p].outQ.items
  {
    hide Conducts, Aimed;
    Owed(s, p);
  }

  lemma SiftEmpty(ps: seq<Ptr>, gone: set<Ptr>)
    ensures Sift(ps, {}) == ps && {} + gone == gone
  {
    SiftNone(ps, {});
  }

  /** Under any interleaving a sweep leaves the table it began with less the condemned entries, in
      order; who left has failed, or is gone altogether. */
  lemma SweepOutcome(s: State, steps: seq<Step>, t: State)
    requires PolitelyReachable(s) && LeadsPolitely(s, steps, t) && SweepStarts(s) && SweepDone(t)
    requires forall a :: a in steps ==> !a.SendEnd? && !a.CloseEnd?
    ensures t.conns == Sift(s.conns, Doomed(s, steps, t))
    ensures forall p :: p in Doomed(s, steps, t) && p in t.heap ==> t.heap[p].state == Failed
  {
    hide PolitelyReachable, LeadsPolitely, Steady, SweepStarts, SweepDone, Doomed, Leaving, Sift;
    SweepBegins(s);
    RunSifts(s, steps, t);
    SweepOver(t);
    SiftEmpty(t.conns, Doomed(s, steps, t));
    SiftEmpty(s.conns, Doomed(s, steps, t));
    forall p | p in Doomed(s, steps, t) && p in t.heap ensures t.heap[p].state == Failed {
      DoomedFall(s, steps, t, p);
    }
  }

  /** A close sweep condemns every entry that is marked when it begins, and only entries that were
      marked then or that their application destroys meanwhile. */
  lemma CloseSweepCondemns(s: State, steps: seq<Step>, t: State, p: Ptr)
    requires PolitelyReachable(s) && LeadsPolitely(s, steps, t) && SweepStarts(s) && SweepDone(t)
    requires s.pc.Closing? && p in s.conns && forall a :: a in steps ==> !a.SendEnd? && !a.CloseEnd?
    ensures p in s.heap
    ensures s.heap[p].disconnect ==> p in Doomed(s, steps, t)
    ensures p in Doomed(s, steps, t) ==> s.heap[p].disconnect || DestroyMark(p) in steps || DestroyRelease(p) in steps
  {
    hide PolitelyReachable, LeadsPolitely, Steady, Doomed, Leaving, CloseSweep;
    SweepBegins(s);
    SeatedLive(s, p);
    if s.heap[p].disconnect {
      var i :| 0 <= i < |s.conns| && s.conns[i] == p;
      MarkedDoomed(s, steps, t, i);
    } else if Undestroyed(steps, p) {
      UnmarkedSpared(s, steps, t, p);
    }
  }

  /** A send sweep condemns an entry only if it is Established and the send at its own turn fails. */
  lemma SendSweepCondemns(s: State, steps: seq<Step>, t: State, p: Ptr)
    requires PolitelyReachable(s) && LeadsPolitely(s, steps, t) && SweepStarts(s) && SweepDone(t)
    requires s.pc.Sending? && p in s.conns && forall a :: a in steps ==> !a.SendEnd? && !a.CloseEnd?
    ensures p in Doomed(s, steps, t) ==>
      p in s.heap && s.heap[p].state == Established && FailsAtTurn(s, steps, t, p)
  {
    hide *;
    SweepBegins(s);
    if p in Doomed(s, steps, t) { BrokenDoomed(s, steps, t, p); }
  }

  /** Who stays keeps its state, and its out-queue changed only by what its application wrote and by
      what the kernel took at its own turn: no other entry's failed send and no close shows in it. */
  lemma SurvivorsKeep(s: State, steps: seq<Step>, t: State, p: Ptr)
    requires PolitelyReachable(s) && LeadsPolitely(s, steps, t) && SweepStarts(s) && SweepDone(t)
    requires forall a :: a in steps ==> !a.SendEnd? && !a.CloseEnd?
    requires p in s.conns && p !in Doomed(s, steps, t)
    ensures p in t.conns && p in s.heap && p in t.heap
    ensures t.heap[p].state == s.heap[p].state && t.heap[p].log.published == s.heap[p].log.published
    ensures s.heap[p].outQ.items + WrittenIn(steps, p) == TakenIn(s, steps, t, p) + t.heap[p].outQ.items
  {
    hide *;
    SweepBegins(s);
    RunSifts(s, steps, t);
    RunKeepsEntry(s, steps, t, p);
    OwedBetween(s, p);
    OwedBetween(t, p);
    QueuesAgree(s.heap[p], t.heap[p], WrittenIn(steps, p), TakenIn(s, steps, t, p));
  }

  lemma QueuesAgree(c: Con, d: Con, wrote: seq<byte>, took: seq<byte>)
    requires c.log.written == c.log.sent + c.outQ.items && d.log.written == d.log.sent + d.outQ.items
    requires d.log.written == c.log.written + wrote && d.log.sent == c.log.sent + took
    ensures c.outQ.items + wrote == took + d.outQ.items
  {
    var n := |c.log.sent|;
    assert d.log.written[n..] == c.outQ.items + wrote;
    assert d.log.written[n..] == took + d.outQ.items;
  }
}
