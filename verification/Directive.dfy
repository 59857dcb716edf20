/** The directive rendezvous of asock_directive.c: an application thread posts one directive at a
    time and blocks until the loop thread has answered it. One step is one section under the
    directive's mutex, so the steps of the two sides interleave freely; wake-ups may be spurious.
    The loop thread's side covers both thread loops, from configuration to the end. */
module Directives {
  import E = EventLoop
  import opened Ownership
  import LoopProgress
  import Outcomes = Runs

  datatype Kind = NoKind | Start | Stop | Bind | CreateAsock | SetNs

  const SUCCESS := 0
  const BADSTATE := 2
  const FAILURE := 666
  const UNDEFINED := 1666

  /** The shared fields. `caller` numbers the call of asock_send_directive whose stack the argument
      pointers lead to. */
  datatype Slot = Slot(kind: Kind, result: int, caller: nat)

  function Posted(kind: Kind, call: nat): Slot { Slot(kind, UNDEFINED, call) }

  function Answered(d: Slot, result: int): Slot { d.(result := result, kind := NoKind) }

  function Collected(d: Slot): Slot { d.(result := UNDEFINED, kind := NoKind) }

  /** asock_directive_t and its four critical sections, as the code has them. Each does to the shared
      fields what the step of the same moment does (Goes). */
  class Directive {
    var kind: Kind
    var result: int
    var caller: nat

    ghost function Value(): Slot
      reads this
    {
      Slot(kind, result, caller)
    }

    constructor ()
      ensures Value() == Slot(NoKind, SUCCESS, 0)
    {
      kind, result, caller := NoKind, SUCCESS, 0;
    }

    /** The beginning of asock_send_directive, up to the wait. */
    method Post(k: Kind, call: nat)
      modifies this
      ensures Value() == Posted(k, call)
      ensures forall s: State, t: State :: s.slot == old(Value()) && |s.calls| == call && Goes(s, Send(k), t) ==>
        t.slot == Value()
    {
      kind := k;
      caller := call;
      result := UNDEFINED;
    }

    /** The rest of it, after a wake-up: done unless the result is still missing. */
    method Recheck() returns (done: bool, code: int)
      modifies this
      ensures done <==> old(result) != UNDEFINED
      ensures code == old(result) && Value() == if done then Collected(old(Value())) else old(Value())
      ensures forall s: State, t: State :: s.slot == old(Value()) && Goes(s, Step.Recheck, t) ==>
        && t.slot == Value() && (done <==> t.sender.Idle?)
        && t.returned == s.returned + (if done then [code] else [])
    {
      code := result;
      done := result != UNDEFINED;
      if done {
        result := UNDEFINED;
        kind := NoKind;
      }
    }

    /** asock_get_directive_type */
    method Read() returns (k: Kind)
      ensures k == kind
      ensures forall s: State, t: State :: s.slot == Value() && Goes(s, Step.Read, t) ==>
        t.thread == if s.thread.RunRead? then RunAct(k) else ConfigAct(k)
    {
      k := kind;
    }

    /** asock_set_directive_result */
    method Answer(code: int)
      modifies this
      ensures Value() == Answered(old(Value()), code)
      ensures forall s: State, t: State ::
        s.slot == old(Value()) && Goes(s, SetResult, t) && s.thread.result == code ==> t.slot == Value()
    {
      result := code;
      kind := NoKind;
    }
  }

  /** The application thread: outside, or inside asock_send_directive. */
  datatype Sender =
    | Idle
    | Asleep(call: nat, kind: Kind)   // in pthread_cond_wait
    | Awake(call: nat, kind: Kind)    // woken, about to take the mutex and look at the result

  /** The loop thread. */
  datatype Thread =
    | ConfigTest                      // asock_wait_for_directive, about to look at the type
    | ConfigAsleep                    // asock_wait_for_directive, in pthread_cond_wait
    | ConfigRead
    | ConfigAct(kind: Kind)
    | RunRead
    | RunAct(kind: Kind)
    | RunPass(begun: bool)            // update_state
    | RunStop(begun: bool)            // closing the tables after a stop
    | Answering(result: int, next: Thread)
    | Dead
    | Crashed                         // assert(0)

  /** m_service_status or m_server_status, from the time the application has the object. */
  datatype Status = Configuration | Running | Aborted

  /** How it goes when the loop thread works on a directive. */
  datatype Outcome = Fine | NotFine | Made(p: Connections.Ptr, fd: int)

  /** A directive that was dealt with: in which stage, how the work went, and the result. */
  datatype Verdict = Verdict(kind: Kind, running: bool, how: Outcome, result: int)

  datatype State = State(
    role: E.Role, status: Status,
    slot: Slot, sender: Sender, thread: Thread,
    running: bool,                    // status Running was set once
    work: E.State,                    // the tables, and everything the loop does to them
    calls: seq<Kind>,                 // directives sent so far
    verdicts: seq<Verdict>,           // directives the loop thread dealt with, and its results
    answers: seq<int>,                // results set so far
    returned: seq<int>,               // results handed back to the application
    handled: seq<nat>)                // calls whose argument pointers the loop thread has followed

  function Initial(role: E.Role, me: int): State {
    State(role, Configuration, Slot(NoKind, SUCCESS, 0), Idle, ConfigTest, false, E.Initial(role, me),
          [], [], [], [], [])
  }

  datatype Step =
    | Send(kind: Kind)
    | SenderWakes                     // spuriously
    | Recheck
    | App(a: E.Step)                  // an application thread uses its connections
    | LoopWakes                       // spuriously
    | Test
    | Read
    | Act(how: Outcome)
    | Work(a: E.Step)                 // one step of update_state, or of closing the tables
    | WorkDone
    | SetResult

  /** Does the loop thread follow the argument pointers for this directive? */
  predicate Follows(role: E.Role, running: bool, kind: Kind) {
    (role.Client? && kind.CreateAsock?) || (role.Server? && !running && kind.Bind?)
  }

  /** Directives the thread loops have an answer to; the others end in assert(0), except that the
      service ignores SetNs while it is configured. */
  predicate Answerable(role: E.Role, running: bool, kind: Kind) {
    || kind.Start? || kind.Stop?
    || (role.Client? && kind.CreateAsock?)
    || (role.Server? && kind.Bind?)
    || (running && kind.SetNs?)
  }

  function WorkCode(how: Outcome): int { if how.NotFine? then FAILURE else SUCCESS }

  /** What follows when the loop thread acts on a directive of the given kind. */
  function Next(role: E.Role, running: bool, kind: Kind, how: Outcome): Thread {
    if kind.NoKind? then (if running then RunPass(false) else Crashed)
    else if !Answerable(role, running, kind) then
      (if role.Client? && kind.SetNs? then ConfigTest else Crashed)
    else if Follows(role, running, kind) then Answering(WorkCode(how), if running then RunPass(false) else ConfigTest)
    else if kind.Stop? then (if running then RunStop(false) else Answering(SUCCESS, Dead))
    else if running then Answering(BADSTATE, RunPass(false))
    else if role.Server? && how.NotFine? then Answering(FAILURE, Dead)
    else Answering(SUCCESS, RunRead)
  }

  /** The tests that the functions of the API make before they send: start and listen, stop, bind,
      create and setns. After a stop the status is Aborted. */
  predicate MaySend(role: E.Role, status: Status, kind: Kind) {
    match kind
    case NoKind => false
    case Start => status != Running
    case Stop => status == Running
    case Bind => role.Server? && status != Running
    case CreateAsock => role.Client? && status != Aborted
    case SetNs => role.Server? && status != Running
  }

  /** The thread's side of signalling m_direct_avail_condition. */
  function Signalled(t: Thread): Thread { if t.ConfigAsleep? then ConfigTest else t }

  function Woken(w: Sender): Sender { if w.Asleep? then Awake(w.call, w.kind) else w }

  function Acted(s: State, kind: Kind, how: Outcome): State {
    var t := Next(s.role, s.running, kind, how);
    s.(thread := t,
       running := s.running || t == Answering(SUCCESS, RunRead),
       status := if t == Answering(SUCCESS, RunRead) then Running
                 else if t.Answering? && t.next.Dead? then Aborted else s.status,
       verdicts := if t.Answering? then s.verdicts + [Verdict(kind, s.running, how, t.result)] else s.verdicts,
       handled := if Follows(s.role, s.running, kind) then s.handled + [s.slot.caller] else s.handled)
  }

  /** The loop thread is where it takes this step of its work. */
  predicate Works(s: State, a: E.Step) {
    || (s.thread == RunPass(false) && a == LoopProgress.FirstOfPass(s.work))
    || (s.thread == RunPass(true) && !s.work.pc.Top?)
    || (s.thread == RunStop(false) && a == E.StopBegin)
    || (s.thread == RunStop(true) && !s.work.pc.Stopped?)
  }

  /** The step a leads from s to t. */
  ghost predicate Goes(s: State, a: Step, t: State) {
    match a
    case Send(kind) =>
      && s.sender.Idle? && MaySend(s.role, s.status, kind)
      && t == s.(slot := Posted(kind, |s.calls|), sender := Asleep(|s.calls|, kind), calls := s.calls + [kind],
                 thread := Signalled(s.thread))
    case SenderWakes => s.sender.Asleep? && t == s.(sender := Woken(s.sender))
    case Recheck =>
      && s.sender.Awake?
      && t == (if s.slot.result == UNDEFINED then s.(sender := Asleep(s.sender.call, s.sender.kind))
               else s.(sender := Idle, returned := s.returned + [s.slot.result], slot := Collected(s.slot),
                       status := if s.sender.kind.Stop? then Aborted else s.status))
    case App(a) => OfApplication(a) && !a.Create? && E.Can(s.work, a) && t == s.(work := E.Apply(s.work, a))
    case LoopWakes => s.thread.ConfigAsleep? && t == s.(thread := ConfigTest)
    case Test => s.thread.ConfigTest? && t == s.(thread := if s.slot.kind == NoKind then ConfigAsleep else ConfigRead)
    case Read =>
      || (s.thread.ConfigRead? && t == s.(thread := ConfigAct(s.slot.kind)))
      || (s.thread.RunRead? && t == s.(thread := RunAct(s.slot.kind)))
    case Act(how) =>
      && (s.thread.ConfigAct? || s.thread.RunAct?)
      && (if how.Made? then
            && s.role.Client? && s.thread.kind.CreateAsock? && E.Can(s.work, E.Create(how.p, how.fd))
            && t == Acted(s, s.thread.kind, how).(work := E.Apply(s.work, E.Create(how.p, how.fd)))
          else (s.role.Client? && s.thread.kind.CreateAsock? ==> how.NotFine?) && t == Acted(s, s.thread.kind, how))
    case Work(a) =>
      && !OfApplication(a) && E.Can(s.work, a) && Works(s, a)
      && t == s.(work := E.Apply(s.work, a), thread := if s.thread.RunPass? then RunPass(true) else RunStop(true))
    case WorkDone =>
      || (s.thread == RunPass(true) && s.work.pc.Top? && t == s.(thread := RunRead))
      || (s.thread == RunStop(true) && s.work.pc.Stopped?
          && t == s.(thread := Answering(SUCCESS, Dead), verdicts := s.verdicts + [Verdict(Stop, true, Fine, SUCCESS)]))
    case SetResult =>
      && s.thread.Answering?
      && t == s.(slot := Answered(s.slot, s.thread.result), answers := s.answers + [s.thread.result],
                 sender := Woken(s.sender), thread := s.thread.next)
  }

  // ---------------------------------------------------------------- the invariant

  /** A directive was sent and has no answer yet. */
  predicate Outstanding(s: State) { !s.sender.Idle? && |s.answers| == s.sender.call }

  ghost predicate SenderOk(s: State) {
    && s.returned <= s.answers
    && (s.sender.Idle? ==> |s.calls| == |s.answers| == |s.returned| && s.slot.kind == NoKind)
    && (!s.sender.Idle? ==>
          && |s.calls| == s.sender.call + 1 && s.calls[s.sender.call] == s.sender.kind != NoKind
          && |s.returned| == s.sender.call)
    && (Outstanding(s) ==> s.slot == Posted(s.sender.kind, s.sender.call))
    && (!s.sender.Idle? && !Outstanding(s) ==>
          && s.sender.Awake? && |s.answers| == s.sender.call + 1
          && s.slot.kind == NoKind && s.slot.result == s.answers[s.sender.call] != UNDEFINED)
  }

  predicate Serving(t: Thread) { t.RunRead? || t.RunAct? || t.RunPass? || t.RunStop? }

  predicate Configuring(t: Thread) { t.ConfigTest? || t.ConfigAsleep? || t.ConfigRead? || t.ConfigAct? }

  /** The position of the loop thread fits the slot. */
  ghost predicate ThreadOk(s: State) {
    && (s.thread.ConfigAsleep? ==> s.slot.kind == NoKind)
    && (s.thread.ConfigRead? ==> Outstanding(s))
    && (s.thread.ConfigAct? ==> Outstanding(s) && s.thread.kind == s.slot.kind)
    && (s.thread.RunAct? && !s.thread.kind.NoKind? ==> Outstanding(s) && s.thread.kind == s.slot.kind)
    && (s.thread.RunStop? ==> Outstanding(s) && s.slot.kind == Stop)
    && (s.thread.Answering? ==>
          && Outstanding(s) && s.thread.result != UNDEFINED
          && (s.thread.next.Dead? || s.thread.next.ConfigTest? || s.thread.next.RunRead?
               || s.thread.next == RunPass(false)))
    && (s.status == Running ==> s.running)
    && (Configuring(s.thread) || (s.thread.Answering? && s.thread.next.ConfigTest?) ==> !s.running)
    && (Serving(s.thread) || (s.thread.Answering? && Serving(s.thread.next)) ==> s.running)
  }

  /** What was dealt with, answered and handed back, call by call. */
  ghost predicate RecordOk(s: State) {
    && |s.verdicts| == |s.answers| + (if s.thread.Answering? then 1 else 0) <= |s.calls|
    && (forall i :: 0 <= i < |s.answers| ==> s.verdicts[i].result == s.answers[i])
    && (forall i :: 0 <= i < |s.verdicts| ==> s.verdicts[i].kind == s.calls[i])
    && (s.thread.Answering? ==> s.verdicts[|s.answers|].result == s.thread.result)
    && (forall i, j :: 0 <= i < j < |s.handled| ==> s.handled[i] < s.handled[j])
    && (forall i :: 0 <= i < |s.handled| ==> s.handled[i] < |s.verdicts|)
    && (forall i :: 0 <= i < |s.verdicts| && s.verdicts[i].kind.Stop? ==>
          i == |s.verdicts| - 1 && (s.thread.Dead? || (s.thread.Answering? && s.thread.next.Dead?)))
    && (forall i :: 0 <= i < |s.calls| && s.calls[i].Stop? ==> s.running)
  }

  /** Where the tables stand: between passes, inside one, or closing; closed at the end if the loop
      ever ran. */
  ghost predicate WorkOk(s: State) {
    && Inv(s.work) && s.work.role == s.role && Outcomes.Offers(s.work)
    && (if s.thread == RunPass(true) then !E.Shutting(s.work.pc)
        else if s.thread == RunStop(true) then E.Shutting(s.work.pc)
        else if s.thread.Dead? || (s.thread.Answering? && s.thread.next.Dead?) then
          (if s.running then s.work.pc.Stopped? else s.work.pc.Top?)
        else s.work.pc.Top?)
  }

  /** The loop thread will not look for a directive again. */
  predicate Ended(t: Thread) { t.Dead? || (t.Answering? && t.next.Dead?) }

  /** What the status tells of the loop thread: Aborted says that it has ended, and if it has ended
      the status says so, unless a stop is still returning. */
  predicate StatusOk(s: State) {
    && (s.status == Aborted ==> Ended(s.thread))
    && (Ended(s.thread) ==> s.status == Aborted || (!s.sender.Idle? && s.sender.kind.Stop?))
    && (!s.sender.Idle? && s.sender.kind.Stop? && (s.thread.Answering? || !Outstanding(s)) ==> Ended(s.thread))
    && (s.thread.Crashed? ==> Outstanding(s))
    && (s.status == Aborted || (s.running <==> s.status == Running))
  }

  /** The result a directive should have, by kind, stage and how the work on it went: 0 for done, 666 for
      work that failed (bind, making a socket, starting to listen), 2 for a directive that comes too
      late. */
  predicate CodeFits(role: E.Role, v: Verdict) {
    match v.kind
    case NoKind => false
    case Stop => v.result == 0
    case Start => v.result == if v.running then 2 else if role.Server? && v.how.NotFine? then 666 else 0
    case Bind => role.Server? && v.result == if v.running then 2 else if v.how.NotFine? then 666 else 0
    case CreateAsock => role.Client? && (v.how.Made? || v.how.NotFine?) && v.result == if v.how.NotFine? then 666 else 0
    case SetNs => v.running && v.result == 2
  }

  predicate CodesOk(s: State) { forall i :: 0 <= i < |s.verdicts| ==> CodeFits(s.role, s.verdicts[i]) }

  ghost predicate DInv(s: State) {
    SenderOk(s) && ThreadOk(s) && StatusOk(s) && RecordOk(s) && CodesOk(s) && WorkOk(s)
  }

  lemma InitialOk(role: E.Role, me: int)
    ensures DInv(Initial(role, me))
  {
    InitialHolds(role, me);
    hide Inv;
  }

  lemma SenderKept(s: State, a: Step, t: State)
    requires SenderOk(s) && ThreadOk(s) && Goes(s, a, t)
    ensures SenderOk(t)
  {
    hide E.Can, E.Apply, E.Leads, Next;
  }

  lemma ThreadKept(s: State, a: Step, t: State)
    requires SenderOk(s) && ThreadOk(s) && Goes(s, a, t)
    ensures ThreadOk(t)
  {
    hide E.Can, E.Apply, E.Leads;
  }

  lemma StatusKept(s: State, a: Step, t: State)
    requires SenderOk(s) && ThreadOk(s) && StatusOk(s) && Goes(s, a, t)
    ensures StatusOk(t)
  {
    hide E.Can, E.Apply, E.Leads;
  }

  lemma RecordKept(s: State, a: Step, t: State)
    requires SenderOk(s) && ThreadOk(s) && RecordOk(s) && Goes(s, a, t)
    ensures RecordOk(t)
  {
    hide *;
    if a.Act? { ActRecorded(s, a, t); } else { OthersRecorded(s, a, t); }
  }

  /** What the record of an act depends on. */
  ghost predicate ActLeft(s: State, t: State) {
    && t.calls == s.calls && t.answers == s.answers && t.sender == s.sender && t.slot == s.slot
    && (s.running ==> t.running) && (s.thread.ConfigAct? || s.thread.RunAct?) && !t.thread.Dead?
    && (if t.thread.Answering? then
          && |t.verdicts| == |s.verdicts| + 1 && t.verdicts[..|s.verdicts|] == s.verdicts
          && t.verdicts[|s.verdicts|].kind == s.thread.kind != NoKind
          && t.verdicts[|s.verdicts|].result == t.thread.result
          && (s.thread.kind.Stop? ==> t.thread.next.Dead?)
        else t.verdicts == s.verdicts)
    && (t.handled == s.handled || (t.handled == s.handled + [s.slot.caller] && t.thread.Answering?))
  }

  lemma ActLeaves(s: State, how: Outcome, t: State)
    requires Goes(s, Act(how), t)
    ensures ActLeft(s, t)
  {
    hide E.Can, E.Apply, E.Leads;
  }

  /** The directive under work is the call that waits. */
  lemma ActCaller(s: State)
    requires SenderOk(s) && ThreadOk(s) && (s.thread.ConfigAct? || s.thread.RunAct?) && s.thread.kind != NoKind
    ensures |s.answers| < |s.calls| && s.calls[|s.answers|] == s.thread.kind && s.slot.caller == |s.answers|
  {
  }

  lemma ActRecorded(s: State, a: Step, t: State)
    requires SenderOk(s) && ThreadOk(s) && RecordOk(s) && Goes(s, a, t) && a.Act?
    ensures RecordOk(t)
  {
    hide Goes, SenderOk, ThreadOk, E.Can, E.Apply, E.Leads;
    ActLeaves(s, a.how, t);
    if t.thread.Answering? {
      ActCaller(s);
      assert t.verdicts == s.verdicts + [t.verdicts[|s.verdicts|]];
    }
  }

  /** Dealing with a directive. One that is followed or refused is answered in the same stage; a start
      that works leads to the running stage, one that fails, and a stop before it, to the end; a stop of a
      running loop leads to closing the tables. */
  lemma ActYields(s: State, how: Outcome, t: State)
    requires Goes(s, Act(how), t) && s.thread.kind != NoKind && Answerable(s.role, s.running, s.thread.kind)
    ensures var kind := s.thread.kind;
      if kind.Stop? && s.running then t.thread == RunStop(false) && t.verdicts == s.verdicts
      else
        && t.thread.Answering? && CodeFits(s.role, Verdict(kind, s.running, how, t.thread.result))
        && t.verdicts == s.verdicts + [Verdict(kind, s.running, how, t.thread.result)]
        && t.thread.next == (
             if s.running then RunPass(false)
             else if kind.Stop? || (kind.Start? && t.thread.result == 666) then Dead
             else if kind.Start? then RunRead else ConfigTest)
        && (t.running <==> s.running || (kind.Start? && t.thread.result == 0))
    ensures t.handled == (
      if (s.role.Client? && s.thread.kind.CreateAsock?) || (s.role.Server? && !s.running && s.thread.kind.Bind?)
      then s.handled + [s.slot.caller] else s.handled)
  {
    hide E.Can, E.Apply, E.Leads;
  }

  lemma CodesKept(s: State, a: Step, t: State)
    requires CodesOk(s) && Goes(s, a, t)
    ensures CodesOk(t)
  {
    hide E.Can, E.Apply, E.Leads;
  }

  lemma OthersRecorded(s: State, a: Step, t: State)
    requires SenderOk(s) && ThreadOk(s) && RecordOk(s) && Goes(s, a, t) && !a.Act?
    ensures RecordOk(t)
  {
    hide E.Can, E.Apply, E.Leads, Next;
  }

  lemma StepWork(s: E.State, a: E.Step)
    requires Inv(s) && E.Can(s, a)
    ensures Outcomes.Offers(s) ==> Outcomes.Offers(E.Apply(s, a))
    ensures var t := E.Apply(s, a);
      Inv(t) && t.role == s.role && (!a.StopBegin? ==> (E.Shutting(t.pc) <==> E.Shutting(s.pc)))
    ensures OfApplication(a) ==> E.Apply(s, a).pc == s.pc
    ensures a.StopBegin? ==> s.pc.Top?
  {
    hide Inv, E.Safe, E.Kernel, E.Apply, E.Shutting, Outcomes.Offers;
    StepKeeps(s, a);
    if Outcomes.Offers(s) { Outcomes.StepOffers(s, a); }
    RoleStays(s, a);
    if !a.StopBegin? { LoopProgress.SideStays(s, a); }
    if OfApplication(a) { AppLeavesLoop(s, a); }
  }

  lemma WorkKept(s: State, a: Step, t: State)
    requires SenderOk(s) && ThreadOk(s) && WorkOk(s) && Goes(s, a, t)
    ensures WorkOk(t)
  {
    hide E.Can, E.Apply, Inv, SenderOk, LoopProgress.FirstOfPass, Outcomes.Offers;
    if a.App? { StepWork(s.work, a.a); }
    if a.Act? && a.how.Made? { StepWork(s.work, E.Create(a.how.p, a.how.fd)); }
    if a.Work? {
      StepWork(s.work, a.a);
      if s.thread == RunPass(false) { LoopProgress.PassBegins(s.work); }
      if s.thread == RunStop(false) { LoopProgress.ShutBegins(s.work); }
    }
  }

  /** Every step of either side keeps the rendezvous in order. */
  lemma GoesKeeps(s: State, a: Step, t: State)
    requires DInv(s) && Goes(s, a, t)
    ensures DInv(t)
  {
    hide Goes, SenderOk, ThreadOk, StatusOk, RecordOk, CodesOk, WorkOk;
    CodesKept(s, a, t);
    SenderKept(s, a, t);
    ThreadKept(s, a, t);
    StatusKept(s, a, t);
    RecordKept(s, a, t);
    WorkKept(s, a, t);
  }

  /** From s the steps lead to t. */
  ghost predicate Leads(s: State, steps: seq<Step>, t: State)
    decreases |steps|
  {
    if steps == [] then s == t
    else exists u :: Goes(s, steps[0], u) && Leads(u, steps[1..], t)
  }

  lemma {:induction false} RunsKeep(s: State, steps: seq<Step>, t: State)
    requires DInv(s) && Leads(s, steps, t)
    ensures DInv(t)
    decreases |steps|
  {
    hide Goes, DInv;
    if steps != [] {
      var u :| Goes(s, steps[0], u) && Leads(u, steps[1..], t);
      GoesKeeps(s, steps[0], u);
      RunsKeep(u, steps[1..], t);
    }
  }

  ghost predicate Reachable(s: State) {
    exists role: E.Role, me: int, steps: seq<Step> :: Leads(Initial(role, me), steps, s)
  }

  lemma ReachableOk(s: State)
    requires Reachable(s)
    ensures DInv(s)
  {
    hide DInv, Goes, Initial;
    var role: E.Role, me: int, steps: seq<Step> :| Leads(Initial(role, me), steps, s);
    InitialOk(role, me);
    RunsKeep(Initial(role, me), steps, s);
  }

  // ---------------------------------------------------------------- safety

  /** The i-th call of asock_send_directive gets exactly one result, the one that fits the directive it
      sent and how the work on that directive went, and hands back that result. */
  lemma EachCallItsResult(s: State, i: nat)
    requires Reachable(s) && i < |s.returned|
    ensures i < |s.answers| && i < |s.verdicts| && i < |s.calls|
    ensures s.returned[i] == s.answers[i] == s.verdicts[i].result && s.verdicts[i].kind == s.calls[i]
    ensures CodeFits(s.role, s.verdicts[i])
  {
    ReachableOk(s);
    hide WorkOk, ThreadOk;
  }

  /** A call that is under way has had at most one result; the calls before it exactly one each. */
  lemma OneResultEach(s: State)
    requires Reachable(s)
    ensures |s.returned| <= |s.answers| <= |s.calls| <= |s.returned| + 1
    ensures s.sender.Idle? ==> |s.returned| == |s.answers| == |s.calls|
  {
    ReachableOk(s);
    hide WorkOk, ThreadOk, RecordOk;
  }

  /** When the loop thread follows the argument pointers, the call whose stack they point into is
      still blocked, waits for this very directive, and has not been handled before. */
  lemma PointersAreLive(s: State, how: Outcome, t: State)
    requires Reachable(s) && Goes(s, Act(how), t) && Follows(s.role, s.running, s.thread.kind)
    ensures !s.sender.Idle? && s.sender.call == s.slot.caller && s.sender.kind == s.thread.kind
    ensures s.slot.caller !in s.handled && t.handled == s.handled + [s.slot.caller]
  {
    ReachableOk(s);
    hide WorkOk, E.Can, E.Apply, E.Leads;
  }

  /** No call is handled twice. */
  lemma HandledOnce(s: State)
    requires Reachable(s)
    ensures forall i, j :: 0 <= i < j < |s.handled| ==> s.handled[i] != s.handled[j]
  {
    ReachableOk(s);
    hide WorkOk, ThreadOk, SenderOk;
  }

  /** No wake-up is lost: whoever sleeps has nothing to wake up for. */
  lemma NoLostWakeUp(s: State)
    requires Reachable(s)
    ensures s.sender.Asleep? ==> s.slot.result == UNDEFINED
    ensures s.thread.ConfigAsleep? ==> s.slot.kind == NoKind
  {
    ReachableOk(s);
    hide WorkOk, RecordOk;
  }

  // ---------------------------------------------------------------- progress

  predicate OfLoop(a: Step) { a.Test? || a.Read? || a.Act? || a.Work? || a.WorkDone? || a.SetResult? }

  /** Steps the loop thread is away from setting the result, while no event arrives and nothing is
      pushed: a pass that is under way or about to begin, one look at the type, and what a stop would
      have to close. */
  function Distance(t: Thread, w: E.State): nat {
    match t
    case RunAct(kind) => if kind == NoKind then LoopProgress.PassCost(w) + 9 else LoopProgress.Load(w) + 6
    case RunPass(begun) => (if begun then LoopProgress.Ahead(w) else LoopProgress.PassCost(w)) + 8
    case RunRead => LoopProgress.Load(w) + 7
    case RunStop(begun) => if begun then LoopProgress.Budget(w) + 2 else LoopProgress.Load(w) + 5
    case ConfigTest => 4
    case ConfigRead => 3
    case ConfigAct(_) => 2
    case Answering(_, _) => 1
    case _ => 0
  }

  /** What the kernel and the applications add to that. */
  function Delay(a: Step): nat {
    if a.Work? && LoopProgress.OfKernel(a.a) then 4 else if a.App? && a.a.ConnectPush? then 8 else 0
  }

  /** A directive waits that the loop thread has an answer to. */
  predicate Hopeful(s: State) {
    Outstanding(s) && !s.thread.Dead? && !s.thread.Crashed?
    && (s.thread.Answering? || Answerable(s.role, s.running, s.sender.kind))
  }

  /** Whatever happens, a hopeful directive stays so until it is answered. */
  lemma StaysHopeful(s: State, a: Step, t: State)
    requires SenderOk(s) && ThreadOk(s) && Hopeful(s) && Goes(s, a, t)
    ensures a.SetResult? ==> |t.answers| == |s.answers| + 1
    ensures !a.SetResult? ==> Hopeful(t) && t.sender.call == s.sender.call
  {
    hide E.Can, E.Apply;
  }

  /** The steps of the work itself. */
  lemma WorkNearer(s: State, a: E.Step, t: State)
    requires WorkOk(s) && Goes(s, Work(a), t)
    ensures Distance(t.thread, t.work) + 1 <= Distance(s.thread, s.work) + Delay(Work(a))
  {
    hide Inv, E.Can, E.Apply, E.Shutting;
    hide LoopProgress.Budget, LoopProgress.Load, LoopProgress.Ahead, LoopProgress.PassCost, LoopProgress.FirstOfPass;
    if s.thread == RunPass(false) { LoopProgress.PassBegins(s.work); }
    else if s.thread == RunPass(true) { LoopProgress.AheadShrinks(s.work, a); }
    else if s.thread == RunStop(false) { LoopProgress.ShutBegins(s.work); }
    else { LoopProgress.ShutShrinks(s.work, a); }
  }

  lemma DoneNearer(s: State, t: State)
    requires WorkOk(s) && Goes(s, WorkDone, t)
    ensures Distance(t.thread, t.work) + 1 <= Distance(s.thread, s.work)
  {
    hide Inv;
  }

  lemma AppNearer(s: State, a: Step, t: State)
    requires Inv(s.work) && Goes(s, a, t) && a.App?
    ensures Distance(t.thread, t.work) <= Distance(s.thread, s.work) + Delay(a)
  {
    hide Inv, E.Can, E.Apply;
    hide LoopProgress.Budget, LoopProgress.Load, LoopProgress.Ahead, LoopProgress.PassCost;
    LoopProgress.AppAdds(s.work, a.a);
  }

  lemma CreateAside(w: E.State, p: Connections.Ptr, fd: int)
    requires E.Can(w, E.Create(p, fd))
    ensures var v := E.Apply(w, E.Create(p, fd));
      v.conns == w.conns && v.pending == w.pending && v.pc == w.pc && v.pc.Top?
  {
  }

  lemma RestNearer(s: State, a: Step, t: State)
    requires SenderOk(s) && ThreadOk(s) && Hopeful(s) && Goes(s, a, t)
    requires !a.Work? && !a.WorkDone? && !a.App? && !a.SetResult?
    ensures Distance(t.thread, t.work) + (if OfLoop(a) then 1 else 0) <= Distance(s.thread, s.work)
  {
    if a.Act? && a.how.Made? { CreateAside(s.work, a.how.p, a.how.fd); }
    hide E.Can, E.Apply, LoopProgress.Rest;
  }

  /** Every step of the loop thread takes a hopeful directive nearer to its answer, unless it handles
      an event, and only a pushed connection takes it further away. */
  lemma Nearer(s: State, a: Step, t: State)
    requires DInv(s) && Hopeful(s) && Goes(s, a, t) && !a.SetResult?
    ensures Distance(t.thread, t.work) + (if OfLoop(a) then 1 else 0) <= Distance(s.thread, s.work) + Delay(a)
  {
    hide Goes, Distance, Delay, Inv, SenderOk, ThreadOk, RecordOk, Hopeful;
    if a.Work? { WorkNearer(s, a.a, t); }
    else if a.WorkDone? { DoneNearer(s, t); }
    else if a.App? { AppNearer(s, a, t); }
    else { RestNearer(s, a, t); }
  }

  function LoopSteps(steps: seq<Step>): nat {
    if steps == [] then 0 else (if OfLoop(steps[0]) then 1 else 0) + LoopSteps(steps[1..])
  }

  function Delays(steps: seq<Step>): nat {
    if steps == [] then 0 else Delay(steps[0]) + Delays(steps[1..])
  }

  lemma {:induction false} AnswersGrow(s: State, steps: seq<Step>, t: State)
    requires Leads(s, steps, t)
    ensures s.answers <= t.answers
    decreases |steps|
  {
    hide Goes;
    if steps != [] {
      var u :| Goes(s, steps[0], u) && Leads(u, steps[1..], t);
      AnswersGrowOne(s, steps[0], u);
      AnswersGrow(u, steps[1..], t);
    }
  }

  lemma AnswersGrowOne(s: State, a: Step, t: State)
    requires Goes(s, a, t)
    ensures s.answers <= t.answers
  {
    hide E.Can, E.Apply;
  }

  lemma HopefulDistance(s: State)
    requires DInv(s) && Hopeful(s)
    ensures Distance(s.thread, s.work) > 0 && |s.answers| == s.sender.call
  {
    hide WorkOk, RecordOk;
  }

  /** Progress, in every run and every interleaving: once the loop thread has taken as many steps as
      the directive was away from its answer, four more for each event the kernel reported and eight
      more for each connection pushed meanwhile, the answer is there. */
  lemma {:induction false} AnsweredWithin(s: State, steps: seq<Step>, t: State)
    requires DInv(s) && Hopeful(s) && Leads(s, steps, t)
    requires LoopSteps(steps) >= Distance(s.thread, s.work) + Delays(steps)
    ensures |t.answers| > s.sender.call
    decreases |steps|
  {
    hide Goes, DInv, Hopeful, Distance, Delay, OfLoop;
    HopefulDistance(s);
    if steps != [] {
      var a := steps[0];
      var u :| Goes(s, a, u) && Leads(u, steps[1..], t);
      SetResultIs(s, a, u);
      if a.SetResult? {
        AnswersGrow(u, steps[1..], t);
      } else {
        GoesKeeps(s, a, u);
        Nearer(s, a, u);
        AnsweredWithin(u, steps[1..], t);
      }
    }
  }

  lemma SetResultIs(s: State, a: Step, t: State)
    requires DInv(s) && Hopeful(s) && Goes(s, a, t)
    ensures a.SetResult? ==> |t.answers| == |s.answers| + 1
    ensures !a.SetResult? ==> Hopeful(t) && t.sender.call == s.sender.call
  {
    hide Goes, SenderOk, ThreadOk, RecordOk, WorkOk, Hopeful;
    StaysHopeful(s, a, t);
  }

  /** A directive the loop thread has no answer to, or that came after its end. */
  predicate Hopeless(s: State) { Outstanding(s) && !Hopeful(s) }

  lemma StillHopeless(s: State, a: Step, t: State)
    requires SenderOk(s) && ThreadOk(s) && Hopeless(s) && Goes(s, a, t)
    ensures Hopeless(t) && t.sender.call == s.sender.call
  {
    hide E.Can, E.Apply;
  }

  lemma {:induction false} NeverAnswered(s: State, steps: seq<Step>, t: State)
    requires DInv(s) && Hopeless(s) && Leads(s, steps, t)
    ensures Hopeless(t) && t.sender.call == s.sender.call
    decreases |steps|
  {
    hide Goes, SenderOk, ThreadOk, RecordOk, WorkOk, Hopeless;
    if steps != [] {
      var u :| Goes(s, steps[0], u) && Leads(u, steps[1..], t);
      StillHopeless(s, steps[0], u);
      GoesKeeps(s, steps[0], u);
      NeverAnswered(u, steps[1..], t);
    }
  }

  /** Once the loop thread has had its steps, a directive that waits is answered exactly if it is
      hopeful. */
  lemma AnsweredExactly(s: State, steps: seq<Step>, t: State)
    requires DInv(s) && Outstanding(s) && Leads(s, steps, t)
    requires LoopSteps(steps) >= Distance(s.thread, s.work) + Delays(steps)
    ensures |t.answers| > s.sender.call <==> Hopeful(s)
  {
    hide DInv, Hopeful, Goes, Distance, Leads, Delays, LoopSteps;
    if Hopeful(s) { AnsweredWithin(s, steps, t); } else { NeverAnswered(s, steps, t); }
  }

  /** Whether a directive has hope is known before it is sent, from its kind and the status: the thread
      loops have an answer to everything the API sends but a change of the name space. */
  lemma HopefulIff(s: State, kind: Kind, t: State)
    requires DInv(s) && Goes(s, Send(kind), t)
    ensures Outstanding(t) && t.sender.call == |s.calls|
    ensures Hopeful(t) <==> s.status != Aborted && !kind.SetNs?
  {
    hide RecordOk, WorkOk;
  }

  /** The exact condition of progress, in terms of what the caller can look at before the call: once
      the loop thread has had its steps, the call is answered if and only if the status was not
      Aborted and it was not a change of the name space. */
  lemma AnsweredIff(s: State, kind: Kind, t: State, steps: seq<Step>, u: State)
    requires Reachable(s) && Goes(s, Send(kind), t) && Leads(t, steps, u)
    requires LoopSteps(steps) >= Distance(t.thread, t.work) + Delays(steps)
    ensures |u.answers| > |s.calls| <==> s.status != Aborted && !kind.SetNs?
  {
    hide *;
    ReachableOk(s);
    GoesKeeps(s, Send(kind), t);
    HopefulIff(s, kind, t);
    AnsweredExactly(t, steps, u);
  }

  /** The loop thread can always take its next step while a hopeful directive waits. */
  lemma LoopCanGo(s: State) returns (a: Step, t: State)
    requires DInv(s) && Hopeful(s)
    ensures OfLoop(a) && Goes(s, a, t)
  {
    if s.thread.RunPass? || s.thread.RunStop? {
      hide SenderOk, ThreadOk, RecordOk, Hopeful;
      a, t := WorkStep(s);
    } else {
      hide WorkOk, RecordOk;
      a, t := LockStep(s);
    }
  }

  lemma WorkStep(s: State) returns (a: Step, t: State)
    requires WorkOk(s) && (s.thread.RunPass? || s.thread.RunStop?)
    ensures OfLoop(a) && Goes(s, a, t)
  {
    var w := s.work;
    var e := if s.thread == RunPass(false) then LoopProgress.FirstOfPass(w)
             else if s.thread == RunStop(false) then E.StopBegin else LoopProgress.Plain(w);
    if s.thread == RunPass(false) { LoopProgress.PassBegins(w); }
    else if s.thread == RunStop(false) { LoopProgress.ShutBegins(w); }
    else if !w.pc.Top? && !w.pc.Stopped? { LoopProgress.PlainCan(w); }
    hide Inv, E.Can, E.Apply, LoopProgress.Plain, LoopProgress.FirstOfPass;
    if s.thread == RunPass(true) && w.pc.Top? {
      a, t := WorkDone, s.(thread := RunRead);
    } else if s.thread == RunStop(true) && w.pc.Stopped? {
      a := WorkDone;
      t := s.(thread := Answering(SUCCESS, Dead), verdicts := s.verdicts + [Verdict(Stop, true, Fine, SUCCESS)]);
    } else {
      a := Work(e);
      t := s.(work := E.Apply(w, e), thread := if s.thread.RunPass? then RunPass(true) else RunStop(true));
    }
  }

  lemma LockStep(s: State) returns (a: Step, t: State)
    requires SenderOk(s) && ThreadOk(s) && Hopeful(s) && !s.thread.RunPass? && !s.thread.RunStop?
    ensures OfLoop(a) && Goes(s, a, t)
  {
    hide E.Can, E.Apply, Next;
    if s.thread.ConfigTest? {
      a, t := Test, s.(thread := if s.slot.kind == NoKind then ConfigAsleep else ConfigRead);
    } else if s.thread.ConfigRead? {
      a, t := Read, s.(thread := ConfigAct(s.slot.kind));
    } else if s.thread.RunRead? {
      a, t := Read, s.(thread := RunAct(s.slot.kind));
    } else if s.thread.Answering? {
      a, t := SetResult, s.(slot := Answered(s.slot, s.thread.result), answers := s.answers + [s.thread.result],
                 sender := Woken(s.sender), thread := s.thread.next);
    } else {
      assert s.thread.ConfigAct? || s.thread.RunAct?;
      a, t := Act(NotFine), Acted(s, s.thread.kind, NotFine);
    }
  }

  /** An answered call returns with its own next step, and hands back the answer. */
  lemma AnsweredReturns(s: State) returns (t: State)
    requires DInv(s) && !s.sender.Idle? && |s.answers| > s.sender.call
    ensures Goes(s, Recheck, t) && t.sender.Idle? && t.returned == s.returned + [s.answers[s.sender.call]]
  {
    t := s.(sender := Idle, returned := s.returned + [s.slot.result], slot := Collected(s.slot),
            status := if s.sender.kind.Stop? then Aborted else s.status);
    hide WorkOk, RecordOk;
  }

  // ---------------------------------------------------------------- stop

  /** The last call that returned was a stop. */
  predicate StopReturned(s: State) { s.sender.Idle? && |s.calls| > 0 && s.calls[|s.calls| - 1].Stop? }

  lemma StopEnds(s: State)
    requires Reachable(s) && StopReturned(s)
    ensures s.thread.Dead? && s.running && Inv(s.work) && s.work.pc.Stopped? && Outcomes.Offers(s.work)
  {
    ReachableOk(s);
    hide Inv;
    assert s.verdicts[|s.calls| - 1].kind.Stop?;
  }

  /** When a stop returns, the loop thread has ended, and m_connections and everything it took over
      from m_new_connections are released: what a connection is still counted for are application
      handles, connect calls under way, later entries of m_new_connections (on the server: those
      waiting for accept) and strays. */
  lemma StopReturns(s: State, p: Connections.Ptr)
    requires Reachable(s) && StopReturned(s) && p in s.work.heap
    ensures s.running && s.thread.Dead? && s.work.pc.Stopped? && s.work.pc.released <= |s.work.pending|
    ensures s.work.heap[p].refs ==
      s.work.handles[p] + s.work.connecting[p] + multiset(s.work.pending[s.work.pc.released..])[p] + s.work.lost[p]
  {
    hide *;
    StopEnds(s);
    Outcomes.StoppedCounts(s.work, p);
  }

  /** On the server, where shutdown leaves m_new_connections alone, all table references are given
      back when a stop returns if and only if every connection put up for accept had been handed out,
      or closed before that. */
  lemma ServerStopReleases(s: State)
    requires Reachable(s) && StopReturned(s) && s.role.Server?
    ensures (forall p :: E.Entries(s.work, p) == 0) <==> s.work.offered == |s.work.handed| + |s.work.lost|
  {
    hide *;
    StopEnds(s);
    ServerWork(s);
    Outcomes.ServerStopReleasesIff(s.work);
  }

  /** On the client all table references are given back if and only if no connect was pushed after
      the loop had let go of m_new_connections: connect does not ask whether the service is running. */
  lemma ClientStopReleases(s: State)
    requires Reachable(s) && StopReturned(s) && s.role.Client?
    ensures s.work.pc.Stopped? && s.work.pc.released <= |s.work.pending|
    ensures (forall p :: E.Entries(s.work, p) == 0) <==> s.work.pc.released == |s.work.pending|
  {
    hide *;
    StopEnds(s);
    Outcomes.StopReleasesIff(s.work);
  }

  lemma ServerWork(s: State)
    requires Reachable(s)
    ensures s.work.role == s.role
  {
    ReachableOk(s);
    hide Inv;
  }
}
