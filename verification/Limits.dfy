/** Runs that show where the guarantees of Runs.dfy end. */
module Limits {
  import opened Connections
  import opened EventLoop
  import opened Conduct

  /** One more step at the end of a run. */
  lemma {:induction false} Extends(s: State, steps: seq<Step>, t: State, a: Step)
    requires Leads(s, steps, t) && Can(t, a)
    ensures Leads(s, steps + [a], Apply(t, a))
    decreases |steps|
  {
    hide Can, Apply;
    if steps == [] {
      assert [a][1..] == [];
      assert steps + [a] == [a];
      assert Leads(Apply(t, a), [], Apply(t, a));
    } else {
      Extends(Apply(s, steps[0]), steps[1..], t, a);
      assert (steps + [a])[1..] == steps[1..] + [a];
    }
  }

  // ---------------------------------------------------------------- a second connect

  /** A client loop whose application created one connection and called connect on it twice. */
  lemma TwiceQueued() returns (steps: seq<Step>, s: State)
    ensures Leads(Initial(Client, 7), steps, s)
    ensures s.role.Client? && s.pc.Top? && s.me == 7 && s.conns == [] && s.pending == [1, 1] && s.polled == {}
    ensures s.heap.Keys == {1} && s.heap[1].fd == 3 && s.heap[1].refs == 3 && s.heap[1].state == InProgress
  {
    var s0 := Initial(Client, 7);
    assert Can(s0, Create(1, 3));
    var s1 := Apply(s0, Create(1, 3));
    Extends(s0, [], s0, Create(1, 3));
    steps, s := [] + [Create(1, 3)], s1;
    steps, s := TwiceConnected(s0, steps, s);
  }

  lemma TwiceConnected(s0: State, before: seq<Step>, s1: State) returns (steps: seq<Step>, s: State)
    requires Leads(s0, before, s1) && s1.role.Client? && s1.pc.Top? && s1.pending == [] && s1.connecting == multiset{}
    requires s1.heap.Keys == {1} && s1.heap[1].refs == 1 && 1 in s1.handles
    ensures Leads(s0, steps, s) && s.role.Client? && s.pc.Top? && s.me == s1.me
    ensures s.conns == s1.conns && s.pending == [1, 1] && s.polled == s1.polled
    ensures s.heap.Keys == {1} && s.heap[1].fd == s1.heap[1].fd && s.heap[1].refs == 3 && s.heap[1].state == InProgress
  {
    hide Leads;
    steps, s := OnceMore(s0, before, s1);
    steps, s := OnceMore(s0, steps, s);
    assert [] + [1] + [1] == [1, 1];
  }

  lemma OnceMore(s0: State, before: seq<Step>, s1: State) returns (steps: seq<Step>, s: State)
    requires Leads(s0, before, s1) && s1.role.Client? && s1.pc.Top? && s1.connecting == multiset{}
    requires s1.heap.Keys == {1} && s1.heap[1].refs > 0 && 1 in s1.handles
    ensures Leads(s0, steps, s) && s.role.Client? && s.pc.Top? && s.me == s1.me && s.connecting == multiset{}
    ensures s.conns == s1.conns && s.pending == s1.pending + [1] && s.polled == s1.polled && s.handles == s1.handles
    ensures s.heap.Keys == {1} && s.heap[1].fd == s1.heap[1].fd && s.heap[1].refs == s1.heap[1].refs + 1
    ensures s.heap[1].state == InProgress
  {
    hide Leads;
    var a, b := ConnectBegin(1), ConnectPush(1);
    assert Can(s1, a);
    Extends(s0, before, s1, a);
    s := Apply(s1, a);
    assert Can(s, b);
    Extends(s0, before + [a], s, b);
    s := Apply(s, b);
    steps := before + [a] + [b];
  }

  /** The first adoption puts the connection into the table. */
  lemma FirstAdopted(s0: State, before: seq<Step>, s1: State) returns (steps: seq<Step>, s: State)
    requires Leads(s0, before, s1) && s1.role.Client? && s1.pc.Top? && s1.conns == [] && s1.pending == [1, 1]
    requires s1.polled == {} && s1.heap.Keys == {1} && s1.heap[1].fd == 3 && s1.heap[1].refs == 3
    ensures Leads(s0, steps, s) && s.pc == Adopting(1) && s.pending == [1, 1] && s.conns == [1]
    ensures s.heap.Keys == {1} && s.heap[1].refs == 3
  {
    hide Leads;
    var a, b := AdoptBegin, AdoptOne(UnderWay(4, true));
    assert Can(s1, a);
    Extends(s0, before, s1, a);
    s := Apply(s1, a);
    assert Can(s, b);
    Extends(s0, before + [a], s, b);
    s := Apply(s, b);
    steps := before + [a] + [b];
  }

  /** The second one fails, takes the descriptor away and marks the connection for closing while it
      is still in the table. */
  lemma SecondAdoptionFails(s0: State, before: seq<Step>, s1: State) returns (steps: seq<Step>, s: State)
    requires Leads(s0, before, s1) && s1.pc == Adopting(1) && s1.pending == [1, 1] && s1.conns == [1]
    requires s1.heap.Keys == {1} && s1.heap[1].refs == 3
    ensures Leads(s0, steps, s) && s.pc == Adopting(2) && s.pending == [1, 1] && s.conns == [1]
    ensures s.heap.Keys == {1} && s.heap[1].fd == -1 && s.heap[1].disconnect && s.heap[1].state == Failed
    ensures s.heap[1].refs == 2
  {
    hide Leads;
    var c := AdoptOne(NoSocket);
    assert Can(s1, c);
    Extends(s0, before, s1, c);
    s := Apply(s1, c);
    steps := before + [c];
  }

  lemma DeadEntry(s0: State, before: seq<Step>, s1: State) returns (steps: seq<Step>, s: State)
    requires Leads(s0, before, s1) && s1.pc == Adopting(2) && s1.pending == [1, 1] && s1.conns == [1]
    requires s1.heap.Keys == {1} && s1.heap[1].fd == -1 && s1.heap[1].disconnect && s1.heap[1].state == Failed
    requires s1.heap[1].refs == 2
    ensures Leads(s0, steps, s) && s.pc == Sending(0, [1]) && s.conns == [1] && s.heap == s1.heap
  {
    hide Leads;
    var a, b := AdoptEnd, SendOne(Broken);
    assert Can(s1, a);
    Extends(s0, before, s1, a);
    s := Apply(s1, a);
    assert Can(s, b);
    Extends(s0, before + [a], s, b);
    s := Apply(s, b);
    steps := before + [a] + [b];
  }

  /** Connecting the same connection twice can lead the closing sweep to a connection without a
      descriptor, where the assertion of close_connection fails. */
  lemma SecondConnectBreaksClose() returns (steps: seq<Step>, s: State)
    ensures Leads(Initial(Client, 7), steps, s)
    ensures Enabled(s, CloseOne) && Safe(s, CloseOne) && !AssertsHold(s, CloseOne)
  {
    hide Leads, Initial;
    var s0 := Initial(Client, 7);
    steps, s := TwiceQueued();
    steps, s := FirstAdopted(s0, steps, s);
    steps, s := SecondAdoptionFails(s0, steps, s);
    steps, s := DeadEntry(s0, steps, s);
    var c := SendEnd;
    Extends(s0, steps, s, c);
    s := Apply(s, c);
    steps := steps + [c];
  }

  // ---------------------------------------------------------------- off the state diagram

  /** A connection that was created and called connect once. */
  lemma OnceQueued() returns (steps: seq<Step>, s: State)
    ensures Leads(Initial(Client, 7), steps, s)
    ensures s.role.Client? && s.pc.Top? && s.conns == [] && s.pending == [1] && s.polled == {} && 1 in s.handles
    ensures s.heap.Keys == {1} && s.heap[1].fd == 3 && s.heap[1].refs == 2
  {
    var s0 := Initial(Client, 7);
    assert Can(s0, Create(1, 3));
    var s1 := Apply(s0, Create(1, 3));
    Extends(s0, [], s0, Create(1, 3));
    hide Leads;
    steps, s := OnceMore(s0, [] + [Create(1, 3)], s1);
  }

  /** Its attempt succeeds at once, and the application calls connect again. */
  lemma ConnectsAgain(s0: State, before: seq<Step>, s1: State) returns (steps: seq<Step>, s: State)
    requires Leads(s0, before, s1) && s1.role.Client? && s1.pc.Top? && s1.conns == [] && s1.pending == [1]
    requires s1.polled == {} && 1 in s1.handles && s1.heap.Keys == {1} && s1.heap[1].fd == 3 && s1.heap[1].refs == 2
    ensures Leads(s0, steps, s) && 1 in s.heap
    ensures var b := s.heap[1].log.published; |b| >= 2 && b[|b| - 2] == Established && b[|b| - 1] == InProgress
  {
    hide Leads;
    var a, b, c := AdoptBegin, AdoptOne(Connected(4, true)), ConnectBegin(1);
    Extends(s0, before, s1, a);
    s := Apply(s1, a);
    assert Can(s, b);
    Extends(s0, before + [a], s, b);
    s := Apply(s, b);
    assert s.heap[1].state == Established && s.heap[1].log.published[|s.heap[1].log.published| - 1] == Established;
    assert Can(s, c);
    Extends(s0, before + [a] + [b], s, c);
    s := Apply(s, c);
    steps := before + [a] + [b] + [c];
  }

  /** A second connect takes an established connection back to InProgress, which is no edge of the
      diagram. */
  lemma SecondConnectLeavesDiagram() returns (steps: seq<Step>, s: State)
    ensures Leads(Initial(Client, 7), steps, s) && 1 in s.heap && !OnDiagram(s.heap[1].log.published)
  {
    hide Leads, Initial;
    steps, s := OnceQueued();
    steps, s := ConnectsAgain(Initial(Client, 7), steps, s);
    var b := s.heap[1].log.published;
    assert !Follows(b[|b| - 2], b[|b| - 1]);
  }

  // ---------------------------------------------------------------- a close before the accept

  /** A server loop that is about to handle its events. */
  lemma ServerWaits() returns (steps: seq<Step>, s: State)
    ensures Leads(Initial(Server, 7), steps, s)
    ensures s == Initial(Server, 7).(pc := Events)
  {
    var s0 := Initial(Server, 7);
    LeadsNowhere(s0);
    hide Leads;
    var a, b, c := SendBegin, SendEnd, CloseEnd;
    Extends(s0, [], s0, a);
    s := Apply(s0, a);
    Extends(s0, [] + [a], s, b);
    s := Apply(s, b);
    Extends(s0, [] + [a] + [b], s, c);
    s := Apply(s, c);
    steps := [] + [a] + [b] + [c];
  }

  lemma LeadsNowhere(s: State)
    ensures Leads(s, [], s)
  {
  }

  /** One connection, 1, waits for accept and sits in the table. */
  ghost predicate OneWaits(s: State) {
    && s.role.Server? && s.conns == [1] && s.pending == [1] && s.handles == multiset{} && s.connecting == multiset{}
    && s.heap.Keys == {1} && s.heap[1].fd == 5 && s.heap[1].refs == 2
  }

  lemma OneArrives(s0: State, before: seq<Step>, s1: State) returns (steps: seq<Step>, s: State)
    requires Leads(s0, before, s1) && s1 == Initial(Server, 7).(pc := Events)
    ensures Leads(s0, steps, s) && s.role.Server? && s.pc == Publishing(1) && s.conns == [1] && s.pending == []
    ensures s.heap.Keys == {1} && s.heap[1].fd == 5 && s.heap[1].refs == 1
    ensures s.handles == multiset{} && s.connecting == multiset{}
  {
    hide Leads;
    var a := Arrive(1, 5);
    assert Can(s1, a);
    Extends(s0, before, s1, a);
    s := Apply(s1, a);
    steps := before + [a];
  }

  lemma OnePublished(s0: State, before: seq<Step>, s1: State) returns (steps: seq<Step>, s: State)
    requires Leads(s0, before, s1) && s1.role.Server? && s1.pc == Publishing(1) && s1.conns == [1] && s1.pending == []
    requires s1.heap.Keys == {1} && s1.heap[1].fd == 5 && s1.heap[1].refs == 1
    requires s1.handles == multiset{} && s1.connecting == multiset{}
    ensures Leads(s0, steps, s) && OneWaits(s) && s.pc.Events?
  {
    hide Leads;
    var a := EventLoop.Publish;
    assert Can(s1, a);
    Extends(s0, before, s1, a);
    s := Apply(s1, a);
    steps := before + [a];
  }

  lemma OneUnlinked(s0: State, before: seq<Step>, s1: State) returns (steps: seq<Step>, s: State)
    requires Leads(s0, before, s1) && OneWaits(s1) && s1.pc.Events?
    ensures Leads(s0, steps, s) && s.pc == Retiring(5, Events)
    ensures s.conns == s1.conns && s.pending == [] && s.heap == s1.heap && s.handles == s1.handles
    ensures s.connecting == s1.connecting
  {
    hide Leads;
    var a, b := Hangup(5), Unlink;
    assert Can(s1, a);
    Extends(s0, before, s1, a);
    s := Apply(s1, a);
    assert FindFd(s.heap, s.pending, 5) == 0;
    assert Can(s, b);
    Extends(s0, before + [a], s, b);
    s := Apply(s, b);
    steps := before + [a] + [b];
  }

  lemma OneRetired(s0: State, before: seq<Step>, s1: State) returns (steps: seq<Step>, s: State)
    requires Leads(s0, before, s1) && s1.pc == Retiring(5, Events) && s1.conns == [1] && s1.pending == []
    requires s1.heap.Keys == {1} && s1.heap[1].fd == 5 && s1.heap[1].refs == 2
    requires s1.handles == multiset{} && s1.connecting == multiset{}
    ensures Leads(s0, steps, s) && 1 in s.heap && s.heap[1].refs == 1 && Holders(s, 1) == 0
  {
    hide Leads;
    var a := Retire;
    assert FindFd(s1.heap, s1.conns, 5) == 0;
    assert Can(s1, a);
    Extends(s0, before, s1, a);
    s := Apply(s1, a);
    assert s.conns == [];
    steps := before + [a];
  }

  /** A server connection closed before the application accepted it keeps a reference nobody holds:
      the count never reaches zero and the memory stays. */
  lemma CloseBeforeAcceptLeaks() returns (steps: seq<Step>, s: State)
    ensures Leads(Initial(Server, 7), steps, s)
    ensures 1 in s.heap && s.heap[1].refs == 1 && Holders(s, 1) == 0
  {
    hide Leads, Initial, Holders;
    var s0 := Initial(Server, 7);
    steps, s := ServerWaits();
    steps, s := OneArrives(s0, steps, s);
    steps, s := OnePublished(s0, steps, s);
    steps, s := OneUnlinked(s0, steps, s);
    steps, s := OneRetired(s0, steps, s);
  }
}
