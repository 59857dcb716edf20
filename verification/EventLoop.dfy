/** The event loop of asock_service.c (role Client) and asock_server.c (role Server) together with
    the application threads that share its tables, as one transition system. A step is what runs
    between two points at which another thread can interfere: one held-lock section, or one access
    to a field both sides use. What the kernel answers is a parameter of the step. */
module EventLoop {
  import opened SizeT
  import opened Bytes
  import opened Vectors
  import opened Connections

  datatype Role = Client | Server

  /** Where the loop thread is. `left` is the sweep index plus one: the number of entries of
      m_connections still to visit, 0 once the unsigned index has wrapped. `orig` is the table as
      it was when the sweep began (no code reads it). */
  datatype Pc =
    | Top                                                     // between two passes
    | Adopting(next: nat)                                     // holds m_new_connections_mutex
    | Sending(left: nat, orig: seq<Ptr>)
    | Popping(con: Ptr, count: nat, left: nat, orig: seq<Ptr>) // sent, queue unlocked, not yet popped
    | Closing(left: nat, orig: seq<Ptr>)
    | Events                                                  // inside the event list
    | Storing(fd: int, chunk: seq<byte>)                      // read from the kernel, not yet enqueued
    | Publishing(con: Ptr)                                    // accepted, not yet in m_new_connections
    | Unlinking(fd: int, back: Pc)                            // close_connection, first half
    | Retiring(fd: int, back: Pc)                             // close_connection, second half
    | ShutPending(left: nat)                                    // holds m_new_connections_mutex
    | ShutConns(left: nat, released: nat)
    | Stopped(released: nat)

  datatype State = State(
    role: Role, me: int,
    heap: Heap,
    conns: seq<Ptr>,               // m_connections, private to the loop thread
    pending: seq<Ptr>,               // m_new_connections, under its mutex
    handles: multiset<Ptr>,        // connections in the application's hands
    connecting: multiset<Ptr>,     // connect calls between taking the reference and the push
    nextId: nat,
    pc: Pc,
    polled: set<int>,              // descriptors registered with epoll
    wire: map<int, seq<byte>>,     // everything read from a descriptor since it was opened
    out: map<int, seq<byte>>,      // everything the kernel took on a descriptor since it was opened
    offered: nat,                  // connections the server put up for accept
    handed: seq<nat>,              // ids handed out by accept, in order
    lost: multiset<Ptr>)           // entries a close took out of m_new_connections, reference and all

  function Initial(role: Role, me: int): State {
    State(role, me, map[], [], [], multiset{}, multiset{}, 0, Top, {}, map[], map[], 0, [], multiset{})
  }

  /** What socket, fcntl, connect and epoll_ctl say to try_connect_to_peer. */
  datatype Attempt =
    | NoSocket
    | NotNonBlocking(fd: int)
    | Refused(fd: int)
    | UnderWay(fd: int, registered: bool)
    | Connected(fd: int, registered: bool)

  /** What send says; would-block counts as 0 bytes. */
  datatype SendResult = Accepted(n: nat) | Broken

  datatype Step =
    // application threads
    | Create(p: Ptr, fd: int)
    | ConnectBegin(p: Ptr)
    | ConnectPush(p: Ptr)
    | Accept
    | Write(p: Ptr, bytes: seq<byte>)
    | Read(p: Ptr, n: nat)
    | DestroyMark(p: Ptr)
    | DestroyRelease(p: Ptr)
    // loop thread
    | AdoptBegin
    | AdoptOne(attempt: Attempt)
    | AdoptEnd
    | SendBegin
    | SendOne(result: SendResult)
    | Pop
    | SendEnd
    | CloseOne
    | CloseEnd
    | Writable(fd: int, ok: bool)
    | Hangup(fd: int)
    | Incoming(fd: int, chunk: seq<byte>)
    | Store
    | Arrive(p: Ptr, fd: int)
    | Publish
    | EventsEnd
    | Unlink
    | Retire
    | StopBegin
    | ShutPendingOne
    | ShutPendingEnd
    | ShutConnsOne
    | ShutConnsEnd

  // ---------------------------------------------------------------- who holds a reference

  function LivePending(s: State): seq<Ptr> {
    match s.pc
    case Adopting(next) => if next <= |s.pending| then s.pending[next..] else []
    case ShutPending(left) => if left <= |s.pending| then s.pending[..left] else s.pending
    case ShutConns(_, released) => if released <= |s.pending| then s.pending[released..] else []
    case Stopped(released) => if released <= |s.pending| then s.pending[released..] else []
    case _ => s.pending
  }

  function LiveConns(s: State): seq<Ptr> {
    match s.pc
    case ShutConns(left, _) => if left <= |s.conns| then s.conns[..left] else s.conns
    case Stopped(_) => []
    case _ => s.conns
  }

  /** Counted table entries of p. */
  function Entries(s: State, p: Ptr): nat { multiset(LivePending(s))[p] + multiset(LiveConns(s))[p] }

  /** Counted places of p on its way into a table, or in one. */
  function Tabled(s: State, p: Ptr): nat { s.connecting[p] + Entries(s, p) }

  /** How many can still use p: application handles, connect calls under way, and table entries the
      loop has not released yet. */
  function Holders(s: State, p: Ptr): nat { s.handles[p] + Tabled(s, p) }

  /** How many references were counted for: the holders, and the references that went astray. */
  function Owners(s: State, p: Ptr): nat { Holders(s, p) + s.lost[p] }

  // ---------------------------------------------------------------- positions of the loop

  function Left(pc: Pc): nat {
    match pc
    case Sending(left, _) => left
    case Popping(_, _, left, _) => left
    case Closing(left, _) => left
    case Unlinking(_, back) => Left(back)
    case Retiring(_, back) => Left(back)
    case _ => 0
  }

  function Orig(pc: Pc): seq<Ptr> {
    match pc
    case Sending(_, orig) => orig
    case Popping(_, _, _, orig) => orig
    case Closing(_, orig) => orig
    case Unlinking(_, back) => Orig(back)
    case Retiring(_, back) => Orig(back)
    case _ => []
  }

  predicate LockHeld(pc: Pc) { pc.Adopting? || pc.ShutPending? }

  predicate Shutting(pc: Pc) { pc.ShutPending? || pc.ShutConns? || pc.Stopped? }

  /** The environment: a new descriptor is one that no live connection carries and epoll does not
      watch. */
  ghost predicate NewFd(s: State, fd: int) {
    fd >= 0 && fd !in s.polled && forall p :: p in s.heap ==> s.heap[p].fd != fd
  }

  function Get(m: map<int, seq<byte>>, fd: int): seq<byte> {
    if fd in m then m[fd] else []
  }

  // ---------------------------------------------------------------- when a step can be taken

  /** Guards: the loop position, the locks, and the limits of what the kernel can answer. Nothing
      here promises that the memory a step touches is still there. */
  ghost predicate Enabled(s: State, a: Step) {
    match a
    case Create(p, fd) => s.role.Client? && s.pc.Top? && p !in s.heap && NewFd(s, fd)
    case ConnectBegin(p) => s.role.Client? && p in s.handles
    case ConnectPush(p) => s.role.Client? && p in s.connecting && !LockHeld(s.pc)
    case Accept => s.role.Server? && !LockHeld(s.pc) && |s.pending| > 0
    case Write(p, _) => p in s.handles
    case Read(p, _) => p in s.handles
    case DestroyMark(p) => p in s.handles
    case DestroyRelease(p) => p in s.handles
    case AdoptBegin => s.role.Client? && s.pc.Top?
    case AdoptOne(t) => s.pc.Adopting? && s.pc.next < |s.pending| && (t.NoSocket? || NewFd(s, t.fd))
    case AdoptEnd => s.pc.Adopting? && s.pc.next == |s.pending|
    case SendBegin => s.role.Server? && s.pc.Top?
    case SendOne(_) => s.pc.Sending? && s.pc.left > 0
    case Pop => s.pc.Popping?
    case SendEnd => s.pc.Sending? && s.pc.left == 0
    case CloseOne => s.pc.Closing? && s.pc.left > 0
    case CloseEnd => s.pc.Closing? && s.pc.left == 0
    case Writable(fd, _) => s.role.Client? && s.pc.Events? && fd >= 0
    case Hangup(fd) => s.pc.Events? && fd >= 0
    case Incoming(fd, chunk) => s.pc.Events? && fd in s.polled && 0 < |chunk| <= 4096
    case Store => s.pc.Storing?
    case Arrive(p, fd) => s.role.Server? && s.pc.Events? && p !in s.heap && NewFd(s, fd)
    case Publish => s.pc.Publishing?
    case EventsEnd => s.pc.Events?
    case Unlink => s.pc.Unlinking?
    case Retire => s.pc.Retiring?
    case StopBegin => s.pc.Top?
    case ShutPendingOne => s.pc.ShutPending? && s.pc.left > 0
    case ShutPendingEnd => s.pc.ShutPending? && s.pc.left == 0
    case ShutConnsOne => s.pc.ShutConns? && s.pc.left > 0
    case ShutConnsEnd => s.pc.ShutConns? && s.pc.left == 0
  }

  ghost predicate Held(s: State, p: Ptr) { p in s.heap && s.heap[p].refs > 0 }

  /** Every pointer the step follows leads to a live connection, every table index is in range, a
      count is not taken below zero, and the pop finds the bytes it was promised. */
  ghost predicate Safe(s: State, a: Step)
    requires Enabled(s, a)
  {
    match a
    case ConnectBegin(p) => Held(s, p)
    case Accept => Held(s, s.pending[0])
    case Write(p, _) => Held(s, p)
    case Read(p, _) => Held(s, p)
    case DestroyMark(p) => Held(s, p)
    case DestroyRelease(p) => Held(s, p)
    case AdoptOne(_) => Held(s, s.pending[s.pc.next])
    case SendOne(r) =>
      && s.pc.left <= |s.conns| && Held(s, s.conns[s.pc.left - 1]) && AllIn(s.heap, s.conns)
    case Pop => Held(s, s.pc.con) && s.pc.count <= |s.heap[s.pc.con].outQ.items|
    case CloseOne => s.pc.left <= |s.conns| && Held(s, s.conns[s.pc.left - 1])
    case Writable(_, _) => AllIn(s.heap, s.conns)
    case Store => AllIn(s.heap, s.conns)
    case Publish => Held(s, s.pc.con)
    case Unlink => AllIn(s.heap, s.pending)
    case Retire => AllIn(s.heap, s.conns) && forall i :: 0 <= i < |s.conns| ==> Held(s, s.conns[i])
    case ShutPendingOne => s.pc.left <= |s.pending| && Held(s, s.pending[s.pc.left - 1])
    case ShutConnsOne => s.pc.left <= |s.conns| && Held(s, s.conns[s.pc.left - 1])
    case _ => true
  }

  /** send takes at most what it was offered, and was offered the window cut to a uint32_t. */
  predicate Kernel(s: State, a: Step)
    requires Enabled(s, a) && Safe(s, a)
  {
    match a
    case SendOne(Accepted(n)) => n <= s.heap[s.conns[s.pc.left - 1]].outQ.Window() % LIMIT32
    case _ => true
  }

  ghost predicate Can(s: State, a: Step) {
    Enabled(s, a) && Safe(s, a) && Kernel(s, a)
  }

  /** The assertions of the loop's routines: close_connection wants a descriptor; the send sweep a
      connection, a queue head and a send that took no more than it was offered; try_connect_to_peer a
      peer address, which is what connect leaves behind. */
  predicate AssertsHold(s: State, a: Step)
    requires Enabled(s, a) && Safe(s, a)
  {
    match a
    case CloseOne =>
      var c := s.heap[s.conns[s.pc.left - 1]];
      c.disconnect ==> c.fd >= 0
    case SendOne(r) =>
      var c := s.heap[s.conns[s.pc.left - 1]];
      && (c.outQ.Window() != 0 ==> c.outQ.items != [])
      && (Sendable(s, s.pc.left - 1) ==> if r.Broken? then c.fd >= 0 else r.n <= c.outQ.Window())
    case AdoptOne(_) => s.heap[s.pending[s.pc.next]].log.connects > 0
    case Hangup(fd) => fd >= 0
    case _ => true
  }

  // ---------------------------------------------------------------- the steps

  function DoCreate(s: State, p: Ptr, fd: int): State {
    s.(heap := s.heap[p := NewCon(s.nextId, fd, -1, Idle, 0)], nextId := s.nextId + 1,
       handles := s.handles + multiset{p}, wire := s.wire[fd := []], out := s.out[fd := []])
  }

  function DoConnectBegin(s: State, p: Ptr): State
    requires p in s.heap
  {
    var c := s.heap[p].(master := s.me).Publish(InProgress);
    s.(heap := s.heap[p := c.(refs := c.refs + 1, log := c.log.(connects := c.log.connects + 1))],
       connecting := s.connecting + multiset{p})
  }

  function DoConnectPush(s: State, p: Ptr): State {
    s.(pending := s.pending + [p], connecting := s.connecting - multiset{p})
  }

  function DoAccept(s: State): State
    requires |s.pending| > 0 && s.pending[0] in s.heap
  {
    s.(pending := s.pending[1..], handles := s.handles + multiset{s.pending[0]},
       handed := s.handed + [s.heap[s.pending[0]].id])
  }

  function DoWrite(s: State, p: Ptr, bytes: seq<byte>): State
    requires p in s.heap
  {
    var c := s.heap[p];
    s.(heap := s.heap[p := c.(outQ := c.outQ.Enqueue(bytes), log := c.log.(written := c.log.written + bytes))])
  }

  function DoRead(s: State, p: Ptr, n: nat): State
    requires p in s.heap
  {
    var c := s.heap[p];
    s.(heap := s.heap[p := c.(inQ := c.inQ.Dequeue(n), log := c.log.(delivered := c.log.delivered + c.inQ.Taken(n)))])
  }

  function DoDestroyMark(s: State, p: Ptr): State
    requires p in s.heap
  {
    s.(heap := s.heap[p := s.heap[p].(disconnect := true)])
  }

  function DoDestroyRelease(s: State, p: Ptr): State
    requires p in s.heap && s.heap[p].refs > 0
  {
    s.(heap := Release(s.heap, p), handles := s.handles - multiset{p})
  }

  /** try_connect_to_peer: the states it publishes and the descriptor it leaves behind. */
  function TryConnect(c: Con, t: Attempt): Con {
    var c1 := c.Publish(InProgress);
    var failed := c1.Publish(Failed).(fd := -1);
    match t
    case NoSocket => failed
    case NotNonBlocking(_) => failed
    case Refused(_) => failed
    case UnderWay(fd, registered) => if registered then c1.(fd := fd) else failed
    case Connected(fd, registered) =>
      var c2 := c1.Publish(Established).(fd := fd);
      if registered then c2 else c2.Publish(Failed).(fd := -1)
  }

  /** Whether an attempt fails depends on what the kernel said, not on the connection. */
  predicate Fails(r: Attempt) {
    r.NoSocket? || r.NotNonBlocking? || r.Refused? || !r.registered
  }

  lemma TryConnectFails(c: Con, r: Attempt)
    ensures TryConnect(c, r).state == Failed <==> Fails(r)
    ensures TryConnect(c, r).state == Established <==> r.Connected? && r.registered
    ensures TryConnect(c, r).state == InProgress <==> r.UnderWay? && r.registered
    ensures TryConnect(c, r).refs == c.refs && TryConnect(c, r).id == c.id
    ensures TryConnect(c, r).fd == if Fails(r) then -1 else r.fd
  {
  }

  function DoAdoptOne(s: State, t: Attempt): State
    requires s.pc.Adopting? && s.pc.next < |s.pending| && s.pending[s.pc.next] in s.heap
    requires s.heap[s.pending[s.pc.next]].refs > 0
  {
    var p := s.pending[s.pc.next];
    var c := TryConnect(s.heap[p], t);
    var next := Adopting(s.pc.next + 1);
    if c.state == Failed then
      s.(heap := Release(s.heap[p := c], p), pc := next)
    else
      s.(heap := s.heap[p := c], conns := s.conns + [p], pc := next, polled := s.polled + {c.fd},
         wire := s.wire[c.fd := []], out := s.out[c.fd := []])
  }

  /** What the code asks of a connection before it sends. */
  predicate Ready(c: Con, me: int) { c.outQ.Window() != 0 && c.master == me && c.state == Established }

  /** The tests of try_send_data that need no kernel. */
  predicate Sendable(s: State, i: nat)
    requires i < |s.conns| && AllIn(s.heap, s.conns)
  {
    var c := s.heap[s.conns[i]];
    Ready(c, s.me) && FindId(s.heap, s.conns, c.id) < |s.conns|
  }

  function DoSendOne(s: State, r: SendResult): State
    requires s.pc.Sending? && 0 < s.pc.left <= |s.conns| && AllIn(s.heap, s.conns)
    requires r.Accepted? ==> r.n <= |s.heap[s.conns[s.pc.left - 1]].outQ.items|
  {
    var i := s.pc.left - 1;
    var p := s.conns[i];
    var c := s.heap[p];
    var back := Sending(i, s.pc.orig);
    if !Sendable(s, i) then s.(pc := back)
    else if r.Broken? then s.(pc := Unlinking(c.fd, back))
    else
      var bytes := c.outQ.items[..r.n];
      s.(heap := s.heap[p := c.(log := c.log.(sent := c.log.sent + bytes))],
         out := s.out[c.fd := Get(s.out, c.fd) + bytes],
         pc := Popping(p, r.n, i, s.pc.orig))
  }

  function DoPop(s: State): State
    requires s.pc.Popping? && s.pc.con in s.heap
  {
    var c := s.heap[s.pc.con];
    s.(heap := s.heap[s.pc.con := c.(outQ := c.outQ.Dequeue(s.pc.count))], pc := Sending(s.pc.left, s.pc.orig))
  }

  function DoCloseOne(s: State): State
    requires s.pc.Closing? && 0 < s.pc.left <= |s.conns| && s.conns[s.pc.left - 1] in s.heap
  {
    var c := s.heap[s.conns[s.pc.left - 1]];
    var back := Closing(s.pc.left - 1, s.pc.orig);
    s.(pc := if c.disconnect then Unlinking(c.fd, back) else back)
  }

  function DoWritable(s: State, fd: int, ok: bool): State
    requires AllIn(s.heap, s.conns)
  {
    var i := FindFd(s.heap, s.conns, fd);
    if i == |s.conns| then s
    else if ok then s.(heap := s.heap[s.conns[i] := s.heap[s.conns[i]].Publish(Established)])
    else s.(pc := Unlinking(fd, Events))
  }

  function DoIncoming(s: State, fd: int, chunk: seq<byte>): State {
    s.(wire := s.wire[fd := Get(s.wire, fd) + chunk], pc := Storing(fd, chunk))
  }

  function DoStore(s: State): State
    requires s.pc.Storing? && AllIn(s.heap, s.conns)
  {
    var i := FindFd(s.heap, s.conns, s.pc.fd);
    if i == |s.conns| then s.(pc := Events)
    else
      var c := s.heap[s.conns[i]];
      s.(heap := s.heap[s.conns[i] := c.(inQ := c.inQ.Enqueue(s.pc.chunk))], pc := Events)
  }

  function DoArrive(s: State, p: Ptr, fd: int): State {
    s.(heap := s.heap[p := NewCon(s.nextId, fd, s.me, Established, 1)], nextId := s.nextId + 1,
       conns := s.conns + [p], pc := Publishing(p), polled := s.polled + {fd},
       wire := s.wire[fd := []], out := s.out[fd := []])
  }

  /** The push to m_new_connections and the second reference, taken together. */
  function DoPublish(s: State): State
    requires s.pc.Publishing? && s.pc.con in s.heap
  {
    var c := s.heap[s.pc.con];
    s.(heap := s.heap[s.pc.con := c.(refs := c.refs + 1)], pending := s.pending + [s.pc.con],
       offered := s.offered + 1, pc := Events)
  }

  function DoUnlink(s: State): State
    requires s.pc.Unlinking? && AllIn(s.heap, s.pending)
  {
    var i := FindFd(s.heap, s.pending, s.pc.fd);
    var astray := if i < |s.pending| then multiset{s.pending[i]} else multiset{};
    s.(pending := DropFd(s.heap, s.pending, s.pc.fd), lost := s.lost + astray, pc := Retiring(s.pc.fd, s.pc.back))
  }

  function DoRetire(s: State): State
    requires s.pc.Retiring? && AllIn(s.heap, s.conns)
    requires forall i :: 0 <= i < |s.conns| ==> s.heap[s.conns[i]].refs > 0
  {
    var i := FindFd(s.heap, s.conns, s.pc.fd);
    if i == |s.conns| then s.(pc := s.pc.back)
    else
      var p := s.conns[i];
      s.(heap := CloseEntry(s.heap, p), conns := Without(s.conns, i),
         polled := s.polled - {s.pc.fd}, pc := s.pc.back)
  }

  function DoStopBegin(s: State): State {
    s.(pc := if s.role.Client? then ShutPending(|s.pending|) else ShutConns(|s.conns|, 0))
  }

  function DoShutPendingOne(s: State): State
    requires s.pc.ShutPending? && 0 < s.pc.left <= |s.pending|
    requires s.pending[s.pc.left - 1] in s.heap && s.heap[s.pending[s.pc.left - 1]].refs > 0
  {
    s.(heap := Release(s.heap, s.pending[s.pc.left - 1]), pc := ShutPending(s.pc.left - 1))
  }

  function DoShutConnsOne(s: State): State
    requires s.pc.ShutConns? && 0 < s.pc.left <= |s.conns|
    requires s.conns[s.pc.left - 1] in s.heap && s.heap[s.conns[s.pc.left - 1]].refs > 0
  {
    s.(heap := Release(s.heap, s.conns[s.pc.left - 1]), pc := ShutConns(s.pc.left - 1, s.pc.released))
  }

  function Apply(s: State, a: Step): State
    requires Can(s, a)
  {
    match a
    case Create(p, fd) => DoCreate(s, p, fd)
    case ConnectBegin(p) => DoConnectBegin(s, p)
    case ConnectPush(p) => DoConnectPush(s, p)
    case Accept => DoAccept(s)
    case Write(p, bytes) => DoWrite(s, p, bytes)
    case Read(p, n) => DoRead(s, p, n)
    case DestroyMark(p) => DoDestroyMark(s, p)
    case DestroyRelease(p) => DoDestroyRelease(s, p)
    case AdoptBegin => s.(pc := Adopting(0))
    case AdoptOne(t) => DoAdoptOne(s, t)
    case AdoptEnd => s.(pending := [], pc := Sending(|s.conns|, s.conns))
    case SendBegin => s.(pc := Sending(|s.conns|, s.conns))
    case SendOne(r) => DoSendOne(s, r)
    case Pop => DoPop(s)
    case SendEnd => s.(pc := Closing(|s.conns|, s.conns))
    case CloseOne => DoCloseOne(s)
    case CloseEnd => s.(pc := Events)
    case Writable(fd, ok) => DoWritable(s, fd, ok)
    case Hangup(fd) => s.(pc := Unlinking(fd, Events))
    case Incoming(fd, chunk) => DoIncoming(s, fd, chunk)
    case Store => DoStore(s)
    case Arrive(p, fd) => DoArrive(s, p, fd)
    case Publish => DoPublish(s)
    case EventsEnd => s.(pc := Top)
    case Unlink => DoUnlink(s)
    case Retire => DoRetire(s)
    case StopBegin => DoStopBegin(s)
    case ShutPendingOne => DoShutPendingOne(s)
    case ShutPendingEnd => s.(pc := ShutConns(|s.conns|, |s.pending|))
    case ShutConnsOne => DoShutConnsOne(s)
    case ShutConnsEnd => s.(pc := Stopped(s.pc.released))
  }

  // ---------------------------------------------------------------- runs

  /** From s the steps lead to t. */
  ghost predicate Leads(s: State, steps: seq<Step>, t: State)
    decreases |steps|
  {
    if steps == [] then s == t
    else Can(s, steps[0]) && Leads(Apply(s, steps[0]), steps[1..], t)
  }

  /** The application calls connect at most once per connection. */
  predicate ConnectsOnce(s: State, a: Step)
    requires Enabled(s, a) && Safe(s, a)
  {
    a.ConnectBegin? ==> s.heap[a.p].log.connects == 0
  }

  ghost predicate LeadsPolitely(s: State, steps: seq<Step>, t: State)
    decreases |steps|
  {
    if steps == [] then s == t
    else Can(s, steps[0]) && ConnectsOnce(s, steps[0]) && LeadsPolitely(Apply(s, steps[0]), steps[1..], t)
  }
}
