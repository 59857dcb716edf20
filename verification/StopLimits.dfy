/** A run of the server through its API that shows two limits: a stop returns while a connection that
    nobody accepted keeps its table reference, and a bind after the stop waits for ever. */
module StopLimits {
  import opened Directives
  import opened Ownership

  lemma {:induction false} Extends(s: State, steps: seq<Step>, t: State, a: Step, u: State)
    requires Leads(s, steps, t) && Goes(t, a, u)
    ensures Leads(s, steps + [a], u)
    decreases |steps|
  {
    hide Goes;
    if steps == [] {
      assert [a][1..] == [] && steps + [a] == [a];
      assert Leads(u, [], u);
    } else {
      var v :| Goes(s, steps[0], v) && Leads(v, steps[1..], t);
      Extends(v, steps[1..], t, a, u);
      assert (steps + [a])[1..] == steps[1..] + [a];
    }
  }

  /** The loop runs, nobody sends, and the loop thread is about to look for a directive. */
  ghost predicate Quiet(s: State) {
    && s.status == Running && s.running && s.sender.Idle? && s.thread.RunRead?
    && s.slot.kind == NoKind && |s.calls| == |s.answers|
  }

  /** Nothing was started yet, and nobody sends. */
  ghost predicate Fresh(s: State) {
    && s.status == Configuration && !s.running && s.sender.Idle? && s.thread.ConfigTest?
    && s.slot.kind == NoKind && |s.calls| == |s.answers|
  }

  /** A call of start or listen, up to the loop thread's work on it. */
  lemma Asks(s0: State, before: seq<Step>, s: State, kind: Kind) returns (steps: seq<Step>, t: State)
    requires Leads(s0, before, s) && Fresh(s) && kind != NoKind && MaySend(s.role, s.status, kind)
    ensures Leads(s0, steps, t) && t.thread == ConfigAct(kind) && t.slot == Posted(kind, |s.calls|)
    ensures t == s.(slot := t.slot, sender := Asleep(|s.calls|, kind), calls := s.calls + [kind], thread := t.thread)
  {
    hide Leads;
    var n := |s.calls|;
    var s1 := s.(slot := Posted(kind, n), sender := Asleep(n, kind), calls := s.calls + [kind]);
    Extends(s0, before, s, Send(kind), s1);
    var s2 := s1.(thread := ConfigRead);
    Extends(s0, before + [Send(kind)], s1, Test, s2);
    t := s2.(thread := ConfigAct(kind));
    Extends(s0, before + [Send(kind)] + [Test], s2, Read, t);
    steps := before + [Send(kind)] + [Test] + [Read];
  }

  /** The answer is set, and the call returns. */
  lemma Gets(s0: State, before: seq<Step>, s: State) returns (steps: seq<Step>, t: State)
    requires Leads(s0, before, s) && s.thread.Answering? && s.thread.result != UNDEFINED && s.sender.Asleep?
    requires !s.sender.kind.Stop?
    ensures Leads(s0, steps, t) && t.slot.kind == NoKind
    ensures t == s.(slot := t.slot, answers := s.answers + [s.thread.result], sender := Sender.Idle,
                    returned := s.returned + [s.thread.result], thread := s.thread.next)
  {
    hide Leads;
    var r := s.thread.result;
    var s1 := s.(slot := Answered(s.slot, r), answers := s.answers + [r],
                 sender := Woken(s.sender), thread := s.thread.next);
    Extends(s0, before, s, SetResult, s1);
    t := s1.(sender := Sender.Idle, returned := s1.returned + [r], slot := Collected(s1.slot));
    Extends(s0, before + [SetResult], s1, Recheck, t);
    steps := before + [SetResult] + [Recheck];
  }

  lemma Began(s0: State, before: seq<Step>, s: State) returns (steps: seq<Step>, t: State)
    requires Leads(s0, before, s) && Fresh(s)
    ensures Leads(s0, steps, t) && Quiet(t) && t.work == s.work && t.role == s.role
  {
    hide Leads;
    steps, t := Asks(s0, before, s, Start);
    var u := Acted(t, Start, Fine);
    Extends(s0, steps, t, Act(Fine), u);
    steps, t := Gets(s0, steps + [Act(Fine)], u);
  }

  /** One step of the loop thread's work. */
  lemma Worked(s0: State, before: seq<Step>, s: State, a: E.Step) returns (steps: seq<Step>, t: State)
    requires Leads(s0, before, s) && !OfApplication(a) && E.Can(s.work, a)
    requires (s.thread == RunPass(true) && !s.work.pc.Top?) || (s.thread == RunStop(true) && !s.work.pc.Stopped?)
    ensures Leads(s0, steps, t) && t == s.(work := E.Apply(s.work, a))
  {
    hide Leads, E.Can, E.Apply;
    t := s.(work := E.Apply(s.work, a));
    Extends(s0, before, s, Work(a), t);
    steps := before + [Work(a)];
  }

  /** A pass begins, and its sweeps find an empty table. */
  lemma PassOpens(s0: State, before: seq<Step>, s: State) returns (steps: seq<Step>, t: State)
    requires Leads(s0, before, s) && Quiet(s) && s.work == E.Initial(E.Server, 7)
    ensures Leads(s0, steps, t) && t == s.(thread := RunPass(true), work := s.work.(pc := E.Events))
  {
    hide Leads;
    var s1 := s.(thread := RunAct(NoKind));
    Extends(s0, before, s, Read, s1);
    var s2 := s1.(thread := RunPass(false));
    Extends(s0, before + [Read], s1, Act(Fine), s2);
    var s3 := s2.(thread := RunPass(true), work := E.Apply(s2.work, E.SendBegin));
    Extends(s0, before + [Read] + [Act(Fine)], s2, Work(E.SendBegin), s3);
    steps := before + [Read] + [Act(Fine)] + [Work(E.SendBegin)];
    steps, t := Worked(s0, steps, s3, E.SendEnd);
    steps, t := Worked(s0, steps, t, E.CloseEnd);
  }

  /** Connection 1 sits in the table and waits for accept, and nobody holds it. */
  ghost predicate Waits(w: E.State, refs: nat) {
    && w.role.Server? && w.pending == [1] && w.handles == multiset{}
    && w.connecting == multiset{} && w.lost == multiset{}
    && w.heap.Keys == {1} && w.heap[1].refs == refs
  }

  lemma OneComes(s0: State, before: seq<Step>, s: State) returns (steps: seq<Step>, t: State)
    requires Leads(s0, before, s) && s.thread == RunPass(true) && s.work == E.Initial(E.Server, 7).(pc := E.Events)
    ensures Leads(s0, steps, t) && t == s.(work := t.work) && Waits(t.work, 2) && t.work.conns == [1]
    ensures t.work.pc.Events?
  {
    hide Leads;
    assert E.Can(s.work, E.Arrive(1, 5));
    steps, t := Worked(s0, before, s, E.Arrive(1, 5));
    steps, t := Published1(s0, steps, t);
  }

  lemma Published1(s0: State, before: seq<Step>, s: State) returns (steps: seq<Step>, t: State)
    requires Leads(s0, before, s) && s.thread == RunPass(true) && s.work.role.Server? && s.work.pc == E.Publishing(1)
    requires s.work.conns == [1] && s.work.pending == [] && s.work.heap.Keys == {1} && s.work.heap[1].refs == 1
    requires s.work.handles == multiset{} && s.work.connecting == multiset{} && s.work.lost == multiset{}
    ensures Leads(s0, steps, t) && t == s.(work := t.work) && Waits(t.work, 2) && t.work.conns == [1]
    ensures t.work.pc.Events?
  {
    hide Leads;
    assert E.Can(s.work, E.Publish);
    steps, t := Worked(s0, before, s, E.Publish);
  }

  /** The pass ends, and the application asks for a stop. */
  lemma StopComes(s0: State, before: seq<Step>, s: State) returns (steps: seq<Step>, t: State)
    requires Leads(s0, before, s) && s.thread == RunPass(true) && s.work.pc.Events? && Waits(s.work, 2)
    requires s.work.conns == [1]
    requires s.role.Server? && s.status == Running && s.running && s.sender.Idle? && |s.calls| == |s.answers|
    ensures Leads(s0, steps, t) && t.thread == RunStop(false) && t.work == s.work.(pc := E.Top) && t.role.Server?
    ensures t.running
    ensures t.sender == Asleep(|s.calls|, Stop) && t.calls == s.calls + [Stop] && t.answers == s.answers
    ensures t.slot == Posted(Stop, |s.calls|)
  {
    hide Leads;
    steps, t := Worked(s0, before, s, E.EventsEnd);
    var s1 := t.(thread := RunRead);
    Extends(s0, steps, t, WorkDone, s1);
    var n := |s1.calls|;
    var s2 := s1.(slot := Posted(Stop, n), sender := Asleep(n, Stop), calls := s1.calls + [Stop]);
    Extends(s0, steps + [WorkDone], s1, Send(Stop), s2);
    var s3 := s2.(thread := RunAct(Stop));
    Extends(s0, steps + [WorkDone] + [Send(Stop)], s2, Read, s3);
    t := s3.(thread := RunStop(false));
    Extends(s0, steps + [WorkDone] + [Send(Stop)] + [Read], s3, Act(Fine), t);
    steps := steps + [WorkDone] + [Send(Stop)] + [Read] + [Act(Fine)];
  }

  /** Closing the tables. */
  lemma Closes(s0: State, before: seq<Step>, s: State) returns (steps: seq<Step>, t: State)
    requires Leads(s0, before, s) && s.thread == RunStop(false) && s.work.pc.Top? && Waits(s.work, 2)
    requires s.work.conns == [1]
    ensures Leads(s0, steps, t) && t == s.(thread := RunStop(true), work := t.work)
    ensures t.work.pc == E.Stopped(0) && Waits(t.work, 1)
  {
    hide Leads;
    t := s.(thread := RunStop(true), work := E.Apply(s.work, E.StopBegin));
    Extends(s0, before, s, Work(E.StopBegin), t);
    steps, t := ClosesOne(s0, before + [Work(E.StopBegin)], t);
  }

  lemma ClosesOne(s0: State, before: seq<Step>, s: State) returns (steps: seq<Step>, t: State)
    requires Leads(s0, before, s) && s.thread == RunStop(true) && s.work.pc == E.ShutConns(1, 0)
    requires Waits(s.work, 2) && s.work.conns == [1]
    ensures Leads(s0, steps, t) && t == s.(work := t.work) && t.work.pc == E.Stopped(0) && Waits(t.work, 1)
  {
    hide Leads, E.Can, E.Apply, Waits;
    OneReleased(s.work);
    steps, t := Worked(s0, before, s, E.ShutConnsOne);
    NoneLeft(t.work);
    steps, t := Worked(s0, steps, t, E.ShutConnsEnd);
  }

  lemma OneReleased(w: E.State)
    requires Waits(w, 2) && w.conns == [1] && w.pc == E.ShutConns(1, 0)
    ensures E.Can(w, E.ShutConnsOne)
    ensures var v := E.Apply(w, E.ShutConnsOne); Waits(v, 1) && v.pc == E.ShutConns(0, 0)
  {
  }

  lemma NoneLeft(w: E.State)
    requires Waits(w, 1) && w.pc == E.ShutConns(0, 0)
    ensures E.Can(w, E.ShutConnsEnd)
    ensures var v := E.Apply(w, E.ShutConnsEnd); Waits(v, 1) && v.pc == E.Stopped(0)
  {
  }

  lemma Returns(s0: State, before: seq<Step>, s: State) returns (steps: seq<Step>, t: State)
    requires Leads(s0, before, s) && s.thread == RunStop(true) && s.work.pc.Stopped?
    requires |s.calls| > 0 && s.calls[|s.calls| - 1] == Stop && s.sender == Asleep(|s.calls| - 1, Stop)
    requires |s.answers| + 1 == |s.calls|
    ensures Leads(s0, steps, t) && StopReturned(t) && t.work == s.work && t.thread.Dead? && t.status == Aborted
    ensures t.role == s.role && |t.answers| == |t.calls|
  {
    hide Leads;
    var s1 := s.(thread := Answering(SUCCESS, Dead), verdicts := s.verdicts + [Verdict(Stop, true, Fine, SUCCESS)]);
    Extends(s0, before, s, WorkDone, s1);
    var s2 := s1.(slot := Answered(s1.slot, SUCCESS), answers := s1.answers + [SUCCESS],
                  sender := Woken(s1.sender), thread := Dead);
    Extends(s0, before + [WorkDone], s1, SetResult, s2);
    t := s2.(sender := Sender.Idle, returned := s2.returned + [SUCCESS], slot := Collected(s2.slot), status := Aborted);
    Extends(s0, before + [WorkDone] + [SetResult], s2, Recheck, t);
    steps := before + [WorkDone] + [SetResult] + [Recheck];
  }

  lemma WaitsAnywhere(w: E.State, refs: nat)
    requires Waits(w, refs)
    ensures Waits(w.(pc := E.Top), refs)
  {
  }

  /** The whole run: listen, one arrival, stop. */
  lemma StoppedEarly() returns (steps: seq<Step>, s: State)
    ensures Leads(Initial(E.Server, 7), steps, s) && StopReturned(s) && Waits(s.work, 1) && s.work.pc == E.Stopped(0)
    ensures s.thread.Dead? && s.status == Aborted && s.role.Server? && |s.answers| == |s.calls|
  {
    var s0 := Initial(E.Server, 7);
    assert Leads(s0, [], s0) && Fresh(s0);
    hide Leads, Goes, Waits, E.Initial;
    steps, s := Began(s0, [], s0);
    steps, s := PassOpens(s0, steps, s);
    steps, s := OneComes(s0, steps, s);
    WaitsAnywhere(s.work, 2);
    steps, s := StopComes(s0, steps, s);
    steps, s := Closes(s0, steps, s);
    steps, s := Returns(s0, steps, s);
  }

  /** A server stop has returned, and a connection that nobody accepted or closed is still counted
      for its entry in m_new_connections. */
  lemma StopKeepsUnaccepted() returns (s: State)
    ensures Reachable(s) && StopReturned(s) && s.role.Server?
    ensures 1 in s.work.heap && s.work.heap[1].refs == 1 && E.Entries(s.work, 1) == 1
  {
    var steps;
    steps, s := StoppedEarly();
    hide Leads, Goes;
    assert E.LivePending(s.work) == [1] && E.LiveConns(s.work) == [];
  }

  /** A bind after that waits for ever: the loop thread has ended, and bind asks only whether the
      server is running. */
  lemma BindAfterStopWaits() returns (s: State)
    ensures Reachable(s) && Hopeless(s) && s.sender.kind == Bind
  {
    var steps, t := StoppedEarly();
    hide Leads, Waits;
    var n := |t.calls|;
    s := t.(slot := Posted(Bind, n), sender := Asleep(n, Bind), calls := t.calls + [Bind]);
    Extends(Initial(E.Server, 7), steps, t, Send(Bind), s);
    assert Leads(Initial(E.Server, 7), steps + [Send(Bind)], s);
  }

  // ---------------------------------------------------------------- a client that connects after the stop

  /** A client with one connection, stopped before it connected anything. */
  lemma StoppedClient() returns (steps: seq<Step>, s: State)
    ensures Leads(Initial(E.Client, 7), steps, s) && StopReturned(s) && s.role.Client?
    ensures s.work.role.Client? && s.work.pc == E.Stopped(0) && s.work.pending == [] && s.work.conns == []
    ensures 1 in s.work.heap && 1 in s.work.handles && 1 !in s.work.connecting
  {
    var s0 := Initial(E.Client, 7);
    assert Leads(s0, [], s0) && Fresh(s0);
    hide Leads, Goes;
    var t;
    steps, t := Asks(s0, [], s0, CreateAsock);
    steps, t := OneMade(s0, steps, t);
    steps, t := Began(s0, steps, t);
    steps, s := ClientStops(s0, steps, t);
  }

  lemma OneMade(s0: State, before: seq<Step>, s: State) returns (steps: seq<Step>, t: State)
    requires Leads(s0, before, s) && s.role.Client? && s.thread == ConfigAct(CreateAsock) && s.sender.Asleep?
    requires s.sender.kind == CreateAsock && s.work == E.Initial(E.Client, 7) && |s.calls| == |s.answers| + 1
    requires !s.running && s.status == Configuration
    ensures Leads(s0, steps, t) && Fresh(t) && t.role.Client? && t.work == E.DoCreate(s.work, 1, 3)
  {
    hide Leads;
    assert E.Can(s.work, E.Create(1, 3));
    t := Acted(s, CreateAsock, Made(1, 3)).(work := E.DoCreate(s.work, 1, 3));
    Extends(s0, before, s, Act(Made(1, 3)), t);
    steps, t := Gets(s0, before + [Act(Made(1, 3))], t);
  }

  lemma ClientStops(s0: State, before: seq<Step>, s: State) returns (steps: seq<Step>, t: State)
    requires Leads(s0, before, s) && Quiet(s) && s.role.Client? && s.work.role.Client? && s.work.pc.Top?
    requires s.work.pending == [] && s.work.conns == []
    ensures Leads(s0, steps, t) && StopReturned(t) && t.role.Client?
    ensures t.work == s.work.(pc := E.Stopped(0))
  {
    hide Leads;
    var n := |s.calls|;
    var s1 := s.(slot := Posted(Stop, n), sender := Asleep(n, Stop), calls := s.calls + [Stop]);
    Extends(s0, before, s, Send(Stop), s1);
    var s2 := s1.(thread := RunAct(Stop));
    Extends(s0, before + [Send(Stop)], s1, Read, s2);
    var s3 := s2.(thread := RunStop(false));
    Extends(s0, before + [Send(Stop)] + [Read], s2, Act(Fine), s3);
    steps, t := ClientCloses(s0, before + [Send(Stop)] + [Read] + [Act(Fine)], s3);
    steps, t := Returns(s0, steps, t);
  }

  lemma ClientCloses(s0: State, before: seq<Step>, s: State) returns (steps: seq<Step>, t: State)
    requires Leads(s0, before, s) && s.thread == RunStop(false) && s.work.role.Client? && s.work.pc.Top?
    requires s.work.pending == [] && s.work.conns == []
    ensures Leads(s0, steps, t) && t == s.(thread := RunStop(true), work := s.work.(pc := E.Stopped(0)))
  {
    hide Leads;
    var a := E.StopBegin;
    t := s.(thread := RunStop(true), work := s.work.(pc := E.ShutPending(0)));
    Extends(s0, before, s, Work(a), t);
    steps, t := ClientClosed(s0, before + [Work(a)], t);
  }

  lemma ClientClosed(s0: State, before: seq<Step>, s: State) returns (steps: seq<Step>, t: State)
    requires Leads(s0, before, s) && s.thread == RunStop(true) && s.work.pc == E.ShutPending(0)
    requires s.work.pending == [] && s.work.conns == []
    ensures Leads(s0, steps, t) && t == s.(work := s.work.(pc := E.Stopped(0)))
  {
    hide Leads;
    steps, t := Worked(s0, before, s, E.ShutPendingEnd);
    steps, t := Worked(s0, steps, t, E.ShutConnsEnd);
  }

  /** A client stop has returned, and a connection that was connected afterwards is counted for an
      entry that nobody will release. */
  lemma ConnectAfterStopStays() returns (s: State)
    ensures Reachable(s) && StopReturned(s) && s.role.Client? && E.Entries(s.work, 1) == 1
  {
    var steps, t := StoppedClient();
    hide Leads;
    var a, b := E.ConnectBegin(1), E.ConnectPush(1);
    assert E.Can(t.work, a) by { ReachableLive(Initial(E.Client, 7), steps, t); }
    var u := t.(work := E.Apply(t.work, a));
    Extends(Initial(E.Client, 7), steps, t, App(a), u);
    assert E.Can(u.work, b);
    s := u.(work := E.Apply(u.work, b));
    Extends(Initial(E.Client, 7), steps + [App(a)], u, App(b), s);
    assert Leads(Initial(E.Client, 7), steps + [App(a)] + [App(b)], s);
    assert E.LivePending(s.work) == [1] && E.LiveConns(s.work) == [];
  }

  /** A handle of a reachable state is good for use. */
  lemma ReachableLive(s0: State, steps: seq<Step>, s: State)
    requires s0 == Initial(E.Client, 7) && Leads(s0, steps, s) && 1 in s.work.handles
    ensures E.Held(s.work, 1)
  {
    hide Leads, Goes, Initial;
    assert Reachable(s);
    ReachableOk(s);
    LiveIffOwned(s.work, 1);
  }
}
