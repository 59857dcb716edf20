/** The loop thread neither gets stuck nor goes on for ever: from any position it can take a step, and
    under every interleaving and every answer of the kernel a bounded number of its steps ends the
    part of a pass, or the shutdown, that it is in. */
module LoopProgress {
  import opened Connections
  import opened EventLoop
  import opened Ownership

  /** The positions a pass or a shutdown ends in; from the event list the kernel decides what comes. */
  predicate AtRest(pc: Pc) { pc.Top? || pc.Events? || pc.Stopped? }

  /** The loop thread's steps at the other positions. */
  predicate OfPass(a: Step) {
    || a.AdoptOne? || a.AdoptEnd? || a.SendOne? || a.Pop? || a.SendEnd? || a.CloseOne? || a.CloseEnd?
    || a.Store? || a.Publish? || a.Unlink? || a.Retire?
    || a.ShutPendingOne? || a.ShutPendingEnd? || a.ShutConnsOne? || a.ShutConnsEnd?
  }

  /** The most steps the loop thread can take from a position, with n entries in m_connections and m
      in m_new_connections, before it is at rest: an adoption may add an entry, and an entry costs at
      most three steps in each sweep. */
  function Rest(pc: Pc, n: nat, m: nat): nat {
    match pc
    case Adopting(next) => 7 * (if next <= m then m - next else 0) + 6 * n + 3
    case Sending(left, _) => 3 * left + 3 * n + 2
    case Popping(_, _, left, _) => 3 * left + 3 * n + 3
    case Closing(left, _) => 3 * left + 1
    case Unlinking(_, back) => Rest(back, n, m) + 2
    case Retiring(_, back) => Rest(back, n, m) + 1
    case Storing(_, _) => 1
    case Publishing(_) => 1
    case ShutPending(left) => left + n + 2
    case ShutConns(left, _) => left + 1
    case _ => 0
  }

  function Budget(s: State): nat { Rest(s.pc, |s.conns|, |s.pending|) }

  lemma {:induction false} RestMonotone(pc: Pc, n: nat, m: nat, n': nat, m': nat)
    requires n' <= n && m' <= m
    ensures Rest(pc, n', m') <= Rest(pc, n, m)
  {
    if pc.Unlinking? || pc.Retiring? { RestMonotone(pc.back, n, m, n', m'); }
  }

  lemma BudgetAtRest(s: State)
    ensures Budget(s) == 0 <==> AtRest(s.pc)
  {
  }

  /** Anywhere else, only applications and the steps of the part the loop is in can go on. */
  lemma OnlyPassSteps(s: State, a: Step)
    requires Enabled(s, a) && !AtRest(s.pc)
    ensures OfApplication(a) || OfPass(a)
  {
  }

  // ---------------------------------------------------------------- every step of the loop counts down

  lemma AppKeepsBudget(s: State, a: Step)
    requires Inv(s) && Can(s, a) && OfApplication(a)
    ensures var t := Apply(s, a); t.pc == s.pc && t.conns == s.conns && Budget(t) == Budget(s)
  {
    hide Inv, Can, Apply;
    Position(s);
    AppLeavesLoop(s, a);
    if s.pc.Unlinking? || s.pc.Retiring? {
      BackIgnoresPending(s.pc.back, |s.conns|, |s.pending|, |Apply(s, a).pending|);
    }
  }

  lemma BackIgnoresPending(back: Pc, n: nat, m: nat, m': nat)
    requires BackOk(back, n)
    ensures Rest(back, n, m) == Rest(back, n, m')
  {
  }

  lemma AdoptCounts(s: State, r: Attempt)
    requires Can(s, AdoptOne(r))
    ensures Budget(Apply(s, AdoptOne(r))) < Budget(s)
  {
    hide TryConnect, Release;
    var t := Apply(s, AdoptOne(r));
    assert t.pc == Adopting(s.pc.next + 1) && t.pending == s.pending && |t.conns| <= |s.conns| + 1;
  }

  lemma SendCounts(s: State, r: SendResult)
    requires Can(s, SendOne(r))
    ensures Budget(Apply(s, SendOne(r))) < Budget(s)
  {
    hide Sendable;
    var t, back := Apply(s, SendOne(r)), Sending(s.pc.left - 1, s.pc.orig);
    assert t.conns == s.conns && t.pending == s.pending;
    assert t.pc == back || (t.pc.Unlinking? && t.pc.back == back) || (t.pc.Popping? && t.pc.left == back.left);
    assert Rest(back, |s.conns|, |s.pending|) == 3 * back.left + 3 * |s.conns| + 2;
  }

  lemma CloseCounts(s: State)
    requires Can(s, CloseOne)
    ensures Budget(Apply(s, CloseOne)) < Budget(s)
  {
    var t, back := Apply(s, CloseOne), Closing(s.pc.left - 1, s.pc.orig);
    assert t.pc == back || (t.pc.Unlinking? && t.pc.back == back);
    assert Rest(back, |s.conns|, |s.pending|) == 3 * back.left + 1;
  }

  lemma UnlinkCounts(s: State)
    requires Can(s, Unlink)
    ensures Budget(Apply(s, Unlink)) < Budget(s)
  {
    var t := Apply(s, Unlink);
    assert t.pc == Retiring(s.pc.fd, s.pc.back) && t.conns == s.conns && |t.pending| <= |s.pending|;
    RestMonotone(s.pc.back, |s.conns|, |s.pending|, |t.conns|, |t.pending|);
  }

  lemma RetireCounts(s: State)
    requires Can(s, Retire)
    ensures Budget(Apply(s, Retire)) < Budget(s)
  {
    var t := Apply(s, Retire);
    assert t.pc == s.pc.back && |t.conns| <= |s.conns| && t.pending == s.pending;
    RestMonotone(s.pc.back, |s.conns|, |s.pending|, |t.conns|, |t.pending|);
  }

  lemma OtherCounts(s: State, a: Step)
    requires Can(s, a) && OfPass(a)
    requires !a.AdoptOne? && !a.SendOne? && !a.CloseOne? && !a.Unlink? && !a.Retire?
    ensures Budget(Apply(s, a)) < Budget(s)
  {
    hide Can, Apply, Budget;
    if a.Store? { StoreCounts(s); }
    else if a.Publish? || a.Pop? { HeapCounts(s, a); }
    else { EdgeCounts(s, a); }
  }

  lemma StoreCounts(s: State)
    requires Can(s, Store)
    ensures Budget(Apply(s, Store)) < Budget(s)
  {
    hide FindFd;
  }

  lemma HeapCounts(s: State, a: Step)
    requires Can(s, a) && (a.Publish? || a.Pop?)
    ensures Budget(Apply(s, a)) < Budget(s)
  {
  }

  lemma EdgeCounts(s: State, a: Step)
    requires Can(s, a) && OfPass(a) && !a.Store? && !a.Publish? && !a.Pop?
    requires !a.AdoptOne? && !a.SendOne? && !a.CloseOne? && !a.Unlink? && !a.Retire?
    ensures Budget(Apply(s, a)) < Budget(s)
  {
  }

  lemma PassStepCounts(s: State, a: Step)
    requires Can(s, a) && OfPass(a)
    ensures Budget(Apply(s, a)) < Budget(s)
  {
    hide Can, Apply, Budget;
    if a.AdoptOne? { AdoptCounts(s, a.attempt); }
    else if a.SendOne? { SendCounts(s, a.result); }
    else if a.CloseOne? { CloseCounts(s); }
    else if a.Unlink? { UnlinkCounts(s); }
    else if a.Retire? { RetireCounts(s); }
    else { OtherCounts(s, a); }
  }

  /** Nothing but a stop leads into a shutdown, and nothing leads out of one. */
  lemma SideStays(s: State, a: Step)
    requires Inv(s) && Can(s, a) && !a.StopBegin?
    ensures Shutting(Apply(s, a).pc) <==> Shutting(s.pc)
  {
    Position(s);
    if OfApplication(a) { hide Inv, Can, Apply, Placed; AppLeavesLoop(s, a); } else { hide Inv; LoopSideStays(s, a); }
  }

  lemma ShutStays(s: State, a: Step)
    requires Inv(s) && Can(s, a)
    ensures Shutting(s.pc) ==> Shutting(Apply(s, a).pc)
    ensures a.ShutPendingOne? || a.ShutConnsOne? ==> Shutting(Apply(s, a).pc)
  {
    hide Inv, Apply, Safe, Kernel;
    if !a.StopBegin? { SideStays(s, a); }
  }

  lemma LoopSideStays(s: State, a: Step)
    requires Placed(s.role, s.pc, s.conns, s.pending) && Can(s, a) && !OfApplication(a) && !a.StopBegin?
    ensures Shutting(Apply(s, a).pc) <==> Shutting(s.pc)
  {
    if a.SendOne? || a.CloseOne? { SweepSideStays(s, a); }
    else if a.Retire? || a.Unlink? || a.Writable? { hide Placed; BackSideStays(s, a); }
    else { hide Placed; }
  }

  lemma SweepSideStays(s: State, a: Step)
    requires Can(s, a) && (a.SendOne? || a.CloseOne?)
    ensures !Shutting(Apply(s, a).pc) && !Shutting(s.pc)
  {
    hide Sendable;
  }

  lemma BackSideStays(s: State, a: Step)
    requires Can(s, a) && (a.Retire? || a.Unlink? || a.Writable?)
    requires a.Retire? ==> !Shutting(s.pc.back)
    ensures !Shutting(Apply(s, a).pc) && !Shutting(s.pc)
  {
  }

  // ---------------------------------------------------------------- every run, every interleaving

  function PassSteps(steps: seq<Step>): nat {
    if steps == [] then 0 else (if OfPass(steps[0]) then 1 else 0) + PassSteps(steps[1..])
  }

  predicate NoNewWork(steps: seq<Step>) { forall a :: a in steps ==> OfApplication(a) || OfPass(a) }

  lemma {:induction false} RunCountsDown(s: State, steps: seq<Step>, t: State)
    requires Inv(s) && Leads(s, steps, t) && NoNewWork(steps)
    ensures Inv(t) && PassSteps(steps) + Budget(t) <= Budget(s) && (Shutting(t.pc) <==> Shutting(s.pc))
    decreases |steps|
  {
    hide Inv, Can, Apply, Budget, Shutting;
    if steps != [] {
      var a, u := steps[0], Apply(s, steps[0]);
      assert a in steps;
      StepKeeps(s, a);
      SideStays(s, a);
      if OfPass(a) { PassStepCounts(s, a); } else { AppKeepsBudget(s, a); }
      RunCountsDown(u, steps[1..], t);
    }
  }

  /** Whatever the applications do and the kernel answers: as long as the loop thread has not come to
      rest, it has taken fewer than Budget(s) steps; after that many a pass is at its event list and
      a shutdown is over. */
  lemma PassEnds(s: State, steps: seq<Step>, t: State)
    requires Inv(s) && Leads(s, steps, t) && NoNewWork(steps) && !AtRest(s.pc)
    ensures PassSteps(steps) <= Budget(s) <= 7 * (|s.pending| + |s.conns|) + 5
    ensures PassSteps(steps) == Budget(s) ==> AtRest(t.pc) && (Shutting(s.pc) <==> t.pc.Stopped?)
  {
    Position(s);
    RunCountsDown(s, steps, t);
    BudgetAtRest(t);
    hide Inv, Leads;
    BudgetSmall(s);
  }

  lemma BudgetSmall(s: State)
    requires Placed(s.role, s.pc, s.conns, s.pending)
    requires s.pc.Unlinking? || s.pc.Retiring? ==> Left(s.pc.back) <= |s.conns|
    ensures Budget(s) <= 7 * (|s.pending| + |s.conns|) + 5
  {
    if s.pc.Unlinking? || s.pc.Retiring? {
      assert Rest(s.pc.back, |s.conns|, |s.pending|) <= 6 * |s.conns| + 2;
    }
  }

  // ---------------------------------------------------------------- it can always go on

  /** The step that the loop thread takes when the kernel has nothing to offer. */
  function Plain(s: State): Step {
    match s.pc
    case Adopting(next) => if next < |s.pending| then AdoptOne(NoSocket) else AdoptEnd
    case Sending(left, _) => if left > 0 then SendOne(Accepted(0)) else SendEnd
    case Popping(_, _, _, _) => Pop
    case Closing(left, _) => if left > 0 then CloseOne else CloseEnd
    case Storing(_, _) => Store
    case Publishing(_) => EventLoop.Publish
    case Unlinking(_, _) => Unlink
    case Retiring(_, _) => Retire
    case ShutPending(left) => if left > 0 then ShutPendingOne else ShutPendingEnd
    case ShutConns(left, _) => if left > 0 then ShutConnsOne else ShutConnsEnd
    case _ => EventsEnd
  }

  lemma PlainEnabled(s: State)
    requires Placed(s.role, s.pc, s.conns, s.pending) && !s.pc.Top? && !s.pc.Stopped?
    ensures Enabled(s, Plain(s)) && !OfApplication(Plain(s)) && !Plain(s).StopBegin?
  {
    if !s.pc.Adopting? { hide Placed; }
  }

  /** Between the beginning and the end of a pass or a shutdown the loop thread always has a step. */
  lemma PlainCan(s: State)
    requires Inv(s) && !s.pc.Top? && !s.pc.Stopped?
    ensures Can(s, Plain(s)) && !OfApplication(Plain(s)) && !Plain(s).StopBegin?
  {
    hide Inv, Enabled, Safe;
    Position(s);
    PlainEnabled(s);
    StepIsSafe(s, Plain(s));
  }

  // ---------------------------------------------------------------- from here to the next look at the directive

  /** Entries a shutdown that follows would have to release. */
  function Load(s: State): nat {
    match s.pc
    case Adopting(next) => |s.conns| + (if next <= |s.pending| then |s.pending| - next else 0)
    case Publishing(_) => |s.conns| + |s.pending| + 1
    case _ => |s.conns| + |s.pending|
  }

  /** Steps to the end of the pass, and the entries it hands on. */
  function Ahead(s: State): nat { Budget(s) + (if s.pc.Top? then 0 else 1) + Load(s) }

  /** Events come from the kernel, as many as it likes. */
  predicate OfKernel(a: Step) { a.Writable? || a.Hangup? || a.Incoming? || a.Arrive? }

  lemma LoadShrinks(s: State, a: Step)
    requires Can(s, a) && OfPass(a) && !Shutting(s.pc)
    requires s.pc.Unlinking? || s.pc.Retiring? ==> s.pc.back.Sending? || s.pc.back.Closing? || s.pc.back.Events?
    ensures Load(Apply(s, a)) <= Load(s) && !Apply(s, a).pc.Top?
  {
    hide Can, Apply, Load;
    if a.SendOne? { SendLoad(s, a.result); }
    else if a.AdoptOne? { AdoptLoad(s, a.attempt); }
    else if a.Retire? || a.Unlink? { ClosesAt(s, a); CloseLoad(s, a); }
    else { OtherLoad(s, a); }
  }

  lemma ClosesAt(s: State, a: Step)
    requires Can(s, a) && (a.Retire? || a.Unlink?)
    ensures s.pc.Unlinking? || s.pc.Retiring?
  {
  }

  lemma OtherLoad(s: State, a: Step)
    requires Can(s, a) && OfPass(a) && !Shutting(s.pc) && !a.SendOne? && !a.AdoptOne? && !a.Retire? && !a.Unlink?
    ensures Load(Apply(s, a)) <= Load(s) && !Apply(s, a).pc.Top?
  {
    hide Can, Apply, Load;
    if a.Store? { StoreLoad(s); } else if a.Publish? { PublishLoad(s); } else { EdgeLoad(s, a); }
  }

  lemma StoreLoad(s: State)
    requires Can(s, Store)
    ensures Load(Apply(s, Store)) <= Load(s) && !Apply(s, Store).pc.Top?
  {
    hide FindFd;
  }

  lemma PublishLoad(s: State)
    requires Can(s, Publish)
    ensures Load(Apply(s, Publish)) <= Load(s) && !Apply(s, Publish).pc.Top?
  {
  }

  lemma EdgeLoad(s: State, a: Step)
    requires Can(s, a) && OfPass(a) && !Shutting(s.pc) && !a.Store? && !a.Publish?
    requires !a.SendOne? && !a.AdoptOne? && !a.Retire? && !a.Unlink?
    ensures Load(Apply(s, a)) <= Load(s) && !Apply(s, a).pc.Top?
  {
  }

  lemma SendLoad(s: State, r: SendResult)
    requires Can(s, SendOne(r))
    ensures Load(Apply(s, SendOne(r))) == Load(s) && !Apply(s, SendOne(r)).pc.Top?
  {
    hide Sendable;
  }

  lemma AdoptLoad(s: State, r: Attempt)
    requires Can(s, AdoptOne(r))
    ensures Load(Apply(s, AdoptOne(r))) <= Load(s) && !Apply(s, AdoptOne(r)).pc.Top?
  {
    hide TryConnect, Release;
  }

  lemma CloseLoad(s: State, a: Step)
    requires Can(s, a) && (a.Retire? || a.Unlink?)
    requires s.pc.back.Sending? || s.pc.back.Closing? || s.pc.back.Events?
    ensures Load(Apply(s, a)) <= Load(s) && !Apply(s, a).pc.Top?
  {
    hide Release;
  }

  lemma KernelAhead(s: State, a: Step)
    requires Can(s, a) && OfKernel(a)
    ensures Ahead(Apply(s, a)) <= Ahead(s) + 3 && !Apply(s, a).pc.Top?
  {
    hide Can, Apply, Ahead;
    if a.Writable? { WritableAhead(s, a.fd, a.ok); } else { EventAhead(s, a); }
  }

  lemma EventAhead(s: State, a: Step)
    requires Can(s, a) && (a.Hangup? || a.Incoming? || a.Arrive?)
    ensures Ahead(Apply(s, a)) <= Ahead(s) + 3 && !Apply(s, a).pc.Top?
  {
  }

  lemma WritableAhead(s: State, fd: int, ok: bool)
    requires Can(s, Writable(fd, ok))
    ensures Ahead(Apply(s, Writable(fd, ok))) <= Ahead(s) + 3 && !Apply(s, Writable(fd, ok)).pc.Top?
  {
    hide FindFd;
  }

  lemma RestStepIs(s: State, a: Step)
    requires Enabled(s, a) && !OfApplication(a) && AtRest(s.pc) && !s.pc.Top? && !s.pc.Stopped?
    ensures OfKernel(a) || a.EventsEnd?
  {
  }

  /** One more step of a pass: one nearer to its end, unless the kernel reported an event. */
  lemma AheadShrinks(s: State, a: Step)
    requires Inv(s) && Can(s, a) && !OfApplication(a) && !Shutting(s.pc) && !s.pc.Top?
    ensures Ahead(Apply(s, a)) + 1 <= Ahead(s) + (if OfKernel(a) then 4 else 0)
  {
    Position(s);
    if AtRest(s.pc) {
      RestStepIs(s, a);
      hide Inv;
      if OfKernel(a) { hide Can, Apply, Ahead; KernelAhead(s, a); }
    } else {
      OnlyPassSteps(s, a);
      LoadShrinks(s, a);
      PassStepCounts(s, a);
      hide Inv, Can, Apply, Budget, Load;
    }
  }

  /** Before the pass begins: what it will take at most. */
  function PassCost(s: State): nat { 7 * |s.pending| + 6 * |s.conns| + 5 + Load(s) }

  function FirstOfPass(s: State): Step { if s.role.Client? then AdoptBegin else SendBegin }

  lemma PassBegins(s: State)
    requires s.pc.Top?
    ensures Can(s, FirstOfPass(s)) && !OfApplication(FirstOfPass(s)) && !FirstOfPass(s).StopBegin?
    ensures var t := Apply(s, FirstOfPass(s)); Ahead(t) + 1 <= PassCost(s) && !Shutting(t.pc)
  {
  }

  lemma ShutBegins(s: State)
    requires s.pc.Top?
    ensures Can(s, StopBegin)
    ensures var t := Apply(s, StopBegin); Budget(t) <= Load(s) + 2 && Shutting(t.pc)
  {
  }

  lemma ShutShrinks(s: State, a: Step)
    requires Can(s, a) && !OfApplication(a) && Shutting(s.pc)
    ensures Budget(Apply(s, a)) + 1 <= Budget(s)
  {
    assert OfPass(a) by { hide Safe, Kernel; }
    hide Can, Apply, Budget;
    PassStepCounts(s, a);
  }

  /** An application can make the loop's work longer only by pushing a connection. */
  lemma AppAdds(s: State, a: Step)
    requires Inv(s) && Can(s, a) && OfApplication(a)
    ensures var t, extra := Apply(s, a), if a.ConnectPush? then 1 else 0;
      && t.pc == s.pc && Budget(t) == Budget(s) && Load(t) <= Load(s) + extra
      && PassCost(t) <= PassCost(s) + 8 * extra && Ahead(t) <= Ahead(s) + extra
  {
    hide Inv, Can, Apply, Budget;
    AppKeepsBudget(s, a);
    AppPending(s, a);
  }

  lemma AppPending(s: State, a: Step)
    requires Can(s, a) && OfApplication(a)
    ensures var t, extra := Apply(s, a), if a.ConnectPush? then 1 else 0;
      |t.pending| <= |s.pending| + extra && (LockHeld(s.pc) ==> t.pending == s.pending)
  {
  }
}
