# A verified model of libasock

libasock moves bytes between application threads and one epoll loop thread. Applications write into
and read from per-connection queues; the loop thread adopts new connections, sends, closes, accepts
and receives; a small rendezvous ("directive") lets an application have the loop thread do something
and wait for it. This project models that behaviour in Dafny and proves what holds of it over every
input, every interleaving and every run.

`dafny verify dfyconfig.toml` checks everything.

## Layers

| file | what it is |
|---|---|
| `SizeT.dfy`, `Bytes.dfy` | 64-bit sizes with their wrap-around, powers of two, `memcpy`/`memmove`/`realloc` over byte arrays |
| `Ring.dfy` | what the growing circular queue means: its geometry, its items, and what runs of operations do |
| `Tsqueue.dfy` | the byte-level queue of `asock_tsqueue.c` (one array, `head`, `tail`, `size`, `capacity`, item size), proved to compute the functions of `Ring.dfy` |
| `Vector.dfy` | the growable array of `asock_vector.c`, proved to be a sequence |
| `Connections.dfy` | connection objects, their reference count, memory as a map from live pointers, the table lookups |
| `LoopTables.dfy` | the loop thread's routines over its tables, statement by statement, each run alone |
| `EventLoop.dfy` | the same loop cut into steps, interleaved with the application threads: one transition system for both `asock_service.c` (role Client) and `asock_server.c` (role Server) |
| `Ownership.dfy` | the invariant that every run keeps, and its proof step by step |
| `Conduct.dfy`, `ConductSteps.dfy`, `ConductLoop.dfy` | the stronger invariant of runs in which connect is called at most once per connection |
| `Meaning.dfy` | a second account of what every step does to every connection, in terms of sequences and of what the kernel said, which the code is proved to follow |
| `Runs.dfy` | the theorems about reachable states and whole runs |
| `Reconnects.dfy` | exact conditions for runs in which connect is called on a connection more than once |
| `Sweeps.dfy` | what a whole sweep leaves when applications interleave with it |
| `Frames.dfy`, `Link.dfy` | what a connected connection keeps; two endpoints joined by a FIFO, end to end |
| `History.dfy` | why a connection is Established or marked, and what was read, over whole runs |
| `LoopProgress.dfy` | the loop thread neither gets stuck nor goes on for ever |
| `Directive.dfy` | the rendezvous of `asock_directive.c` with both thread loops |
| `Limits.dfy`, `StopLimits.dfy` | concrete runs that show where the guarantees end |

## How concurrency is modelled

A step of `EventLoop` is what runs between two points at which another thread can interfere: one
section under a lock, or one access to a field both sides use. Application steps are create, the two
halves of connect (take the reference; push under the mutex), accept, write, read and the two halves
of destroy. Loop steps are the adoption of one new connection (under `m_new_connections_mutex`), one
turn of the send sweep up to the unlock, the later pop, one turn of the close sweep, the two halves of
`close_connection`, one event, one read and the enqueue after it, one accepted connection, its
publication, and the turns of the shutdown loops. What the kernel answers (`socket`, `fcntl`,
`connect`, `send`, `read`, `accept`, `epoll_wait`, `getsockopt`) is a parameter of the step, limited
only as the kernel is: `send` takes at most what it is offered, `read` returns at most 4096 bytes
from a descriptor epoll watches. The events of a pass may come in any order and number.

Each connection carries a record (`Log`) of what was published, written, sent and delivered, and the
loop records what was read from and sent on each descriptor; no code reads these, the theorems speak
about them.

## Assumptions about the environment

- Allocation succeeds (a failed `realloc` overwrites the buffer pointer, `src/asock_tsqueue.c:45`).
- `socket` and `accept` return descriptors that no live connection carries and epoll does not watch.
- One call of `asock_send_directive` is under way at a time (`src/asock_directive.c:25-31` overwrites
  the slot without waiting for it to be free).
- Where a theorem says "politely", the application calls connect at most once per connection.
- Item sizes are positive; queues stay at or below 2^63 items and their byte sizes below 2^64.
- An application uses a connection only while it holds its handle.

## What turned out not to hold

- The capacity loops of the queue end if and only if the wanted capacity is at most 2^63
  (`SizeT.DoublingStopsIff`); above that the counter wraps to zero and stays there.
- Two fully accepted send passes drain a queue if and only if neither contiguous part reaches 2^32
  bytes (`Rings.TwoPassesDrainIff`), because the size goes through a `uint32_t`.
- Reference counts equal the number of holders if and only if no close took an entry out of
  `m_new_connections` (`Runs.ExactIffSpared`); `Limits.CloseBeforeAcceptLeaks` is such a run.
- With a second connect on the same connection the assertion in `close_connection` can fail
  (`Limits.SecondConnectBreaksClose`). In every run it holds for an entry at its turn in the close sweep
  if and only if the entry has a descriptor (`Reconnects.CloseAssertsIff`), and it never fails in the
  close that follows a failed send (`Reconnects.SendAssertsAlways`). Entries keep their descriptors
  throughout a run if and only if no attempt to connect fails for a connection that sits in the table
  already (`Reconnects.DescribedIff` for a step, `Reconnects.DescriptorsStayIff` for runs). With at most
  one connect per connection that cannot happen, and neither this nor another assertion of the loop's
  routines fails (`Runs.AssertionsHold`).
- A directive is answered if and only if, before the call, the status is not Aborted and the directive is
  not a change of the name space (`Directives.AnsweredIff`). `asock_server_bind`
  asks only whether the server is running, so a bind after a stop is sent to a thread that has ended and
  waits for ever (`StopLimits.BindAfterStopWaits`).
- When a stop of the server returns, the tables have given all their references back if and only if
  every connection put up for accept was handed out, or closed before that
  (`Directives.ServerStopReleases`); `StopLimits.StopKeepsUnaccepted` is a run in which one was not.
  On the client they have if and only if no connect was pushed after the loop let go of
  `m_new_connections` (`Directives.ClientStopReleases`): connect does not ask whether the service runs
  (`StopLimits.ConnectAfterStopStays`).
- The comment in `include/asock.h:84-92` draws the state diagram as if it held always. A second
  connect leaves it (`Limits.SecondConnectLeavesDiagram`), so it is proved for polite runs. Without that
  assumption the history of every live connection keeps to the diagram throughout a run if and only if
  every connect, and every attempt that leaves its connection live, finds it Idle or InProgress, and
  every writable descriptor finds its entry InProgress or Established (`Reconnects.CourseIff` for a step
  of any kind, `Reconnects.HistoriesFollowIff` for runs).

## Model

| member | source | states |
|---|---|---|
| `SizeT.DoublingStopsIff` | src/asock_tsqueue.c:59-64 | the doubling loop on a wrapping size_t ends exactly for targets up to 2^63 |
| `SizeT.DoubledReaches` | src/asock_tsqueue.c:182-185 | up to 2^63 no round overflows and the loop stops at the first capacity that suffices |
| `SizeT.FitLeast` | src/asock_tsqueue.c:182-185 | that capacity is the least power of two from the start value on that reaches the target |
| `Rings.CreateIsLeast` | src/asock_tsqueue.c:59-64 | creation yields the least power of two at or above max(1, requested) |
| `Rings.GrowthIsLeast` | src/asock_tsqueue.c:182-187 | growth yields the least power of two at or above size + count, less than twice that |
| `Rings.TailIsMod` | src/asock_tsqueue.c:205-225 | tail is (head + size) mod capacity and in range |
| `Rings.RunConserves` | src/asock_tsqueue.c:173-273 | over any run of enqueue, dequeue and clear: first items ++ everything added == everything removed ++ what is left |
| `Rings.RunCapacity` | src/asock_tsqueue.c:180-202 | over any run the capacity is a power of two, the initial one or less than twice the peak size |
| `Rings.RunCost` | src/asock_tsqueue.c:39-51 | items moved by all growths together are at most twice the capacity gained, under four times the peak size |
| `Rings.LatePopIsAtomicPop` | src/asock_service.c:696-708 | peek, unlock, any enqueues (with growth), then pop: removes exactly the peeked items and leaves what an atomic pop would have left |
| `Rings.WindowExact` | src/asock_tsqueue.c:145-159 | the head window is a contiguous, maximal prefix, empty only when the queue is |
| `Rings.TwoWindowsDrain` | src/asock_tsqueue.c:145-159 | two head windows taken whole, with no enqueue between them, hand out every item in order and empty any queue |
| `Rings.TwoPassesDrainIff` | src/asock_service.c:696-708 | two fully accepted passes empty a queue exactly when neither contiguous part reaches 2^32 items |
| `Tsqueues.Tsqueue.constructor` | src/asock_tsqueue.c:56-98 | an empty queue of the least sufficient capacity, in a buffer of the right size |
| `Tsqueues.Tsqueue.Reallocate` | src/asock_tsqueue.c:39-51 | a larger block that begins with the old bytes |
| `Tsqueues.Tsqueue.GrowFor` | src/asock_tsqueue.c:180-202 | growing a wrapped, full or straight queue, relocated prefix included, keeps its items, and copies as many items as `Rings.RunCost` counts |
| `Tsqueues.Tsqueue.Enqueue` | src/asock_tsqueue.c:173-230 | in every representation state enqueue appends exactly the source items, every copy in bounds, wrapping again after growth included |
| `Tsqueues.Tsqueue.Dequeue` | src/asock_tsqueue.c:232-273 | dequeue of any count takes a prefix in both branches, hands it out in order, leaves the rest of the destination alone; a null destination only pops |
| `Tsqueues.Tsqueue.Clear` | src/asock_tsqueue.c:161-170 | the queue is empty, the capacity stays |
| `Tsqueues.Tsqueue.HeadSize` | src/asock_tsqueue.c:145-150 | the length of the head window |
| `Tsqueues.Tsqueue.Head` | src/asock_tsqueue.c:152-159 | where the head item lies, or none exactly for an empty queue |
| `Tsqueues.Tsqueue.WindowIsPrefix` | src/asock_tsqueue.c:145-159 | the bytes at the head pointer are, item by item and in bounds, the first items of the queue |
| `Tsqueues.Tsqueue.ForEach` | src/asock_tsqueue.c:276-287 | visits exactly the abstract sequence in order |
| `Vectors.Vector.constructor` | src/asock_vector.c:33-54 | an empty vector |
| `Vectors.Vector.Grow` | src/asock_vector.c:19-29 | doubling keeps the items |
| `Vectors.Vector.Push` | src/asock_vector.c:99-116 | appends the item, growing when full |
| `Vectors.Vector.Erase` | src/asock_vector.c:119-131 | removes one item and keeps the order of the rest; refuses an index out of range |
| `Vectors.Vector.Clear` | src/asock_vector.c:134-137 | no items are left |
| `Vectors.Vector.At` | src/asock_vector.c:141-147 | the bytes of the item, or none exactly when out of range |
| `Vectors.Vector.IndexOf` | src/asock_vector.c:82-94 | the first item with the same bytes, or the invalid index when there is none |
| `Connections.FindFd` | src/asock_service.c:672-683 | the first entry with the descriptor, or none |
| `Connections.FindId` | src/asock_service.c:654-668 | the first entry with the id, or none |
| `LoopTables.Loop.IndexOfCon` | src/asock_server.c:864-878 | -1 for another loop's connection or an absent one, else the first index with its id |
| `LoopTables.Loop.IndexOfConBySockDesc` | src/asock_server.c:880-891 | the first index with the descriptor, or -1 |
| `LoopTables.Loop.CloseConnection` | src/asock_service.c:619-651 | takes the descriptor's connection out of both tables, marks it failed and gives up one reference; reports a descriptor without an entry |
| `LoopTables.Loop.CheckForConnectionsToClose` | src/asock_service.c:754-763 | the backward unsigned sweep ends, stays in range while it erases, visits each original entry once, and leaves the order-preserving filter of unmarked entries, others untouched |
| `LoopTables.Loop.TrySendData` | src/asock_server.c:977-1012 | sends only for an own, listed, Established connection; a failed send closes it |
| `LoopTables.Loop.TakeTurn` | src/asock_service.c:693-712 | one turn: an own, Established entry whose out-queue is not empty is offered; an accepted send records and pops exactly what was taken, a failed one closes; any other entry is left alone |
| `LoopTables.Loop.SendUnsentData` | src/asock_server.c:946-974 | whatever subset of sends fails, each original entry gets one turn, every own, Established entry that owes bytes is offered, failed ones leave, survivors keep their order and see only their own send |
| `LoopTables.Loop.AdoptNewConnections` | src/asock_service.c:533-547 | every waiting entry, repeated ones included, gets its attempt in order, each failed attempt costs its connection one reference, the others follow the old entries in order, m_new_connections is empty, and descriptors stay distinct when the new sockets are |
| `LoopTables.AttemptsOnce` | src/asock_service.c:535-538 | a connection that waits once gets exactly the one attempt made for it |
| `LoopTables.TryAll` | src/asock_service.c:765-812 | after its attempts a connection is Established exactly if the last one connected at once and was registered, InProgress exactly if it is under way and registered, otherwise Failed |
| `LoopTables.Loop.ReleaseAll` | src/asock_service.c:501-505 | the backward shutdown loop takes one reference from a connection for each of its entries, frees it with its last, and touches nobody else |
| `LoopTables.Loop.Shutdown` | src/asock_service.c:491-505 | every connection loses exactly as many references as it has entries in both tables |
| `LoopTables.Loop.Accept` | src/asock_server.c:409-423 | hands out the first waiting connection, or none exactly when nobody waits |
| `Ownership.StepKeeps` | src/asock_service.c:531-651 | every step of any thread keeps the ownership invariant: exact counts, unique names, no lost outgoing byte, positions inside the tables |
| `Ownership.StepIsSafe` | src/asock_service.c:686-763 | under the invariant, whatever step a thread can take follows live pointers only and indexes in range |
| `Ownership.RunKeeps` | src/asock_service.c:389-528 | hence so does every run |
| `Runs.NothingDangles` | src/asock_impl.c:140-181 | in every reachable state no thread can touch freed memory or leave a table, and the pop finds its bytes |
| `Meaning.StepAlters` | src/asock_impl.c:105-198 | what any step does to any connection: which bytes it adds, takes, sends and hands out, which states it publishes, whether it marks or frees it, and how a new one looks |
| `Meaning.ReadYields` | src/asock_impl.c:194-198 | a read hands out the first bytes of the in-queue, as many as asked for or as there are, keeps the rest, and changes nothing else |
| `Meaning.SendTurns` | src/asock_service.c:693-712 | a turn of the send sweep: an own, Established entry that owes bytes is offered; what the kernel takes waits to be popped; a failed send leads to closing its descriptor |
| `Meaning.TryConnectTells` | src/asock_service.c:765-812 | the states an attempt publishes and the descriptor it leaves, by what the kernel said |
| `Meaning.WritableAlters` | src/asock_service.c:560-577 | a writable descriptor makes its entry Established, a refused connect leads to closing it, one nobody carries changes nothing |
| `Meaning.CloseStarts` | src/asock_service.c:579-583 | a hang-up, and a marked entry at its turn, lead to closing that descriptor |
| `Runs.CountsAreExact` | src/asock_impl.c:140-181 | the count is holders plus strays, a connection is live exactly while that is positive, and equals the holders exactly when it has no stray |
| `Runs.ExactIffSpared` | src/asock_service.c:624-633 | over a run all counts equal the holders if and only if no close took an entry out of m_new_connections |
| `Runs.NamesAreUnique` | src/asock_impl.c:117-119 | ids are pairwise distinct, descriptors too, and table entries carry their loop's id |
| `Runs.NothingLostOutgoing` | src/asock_service.c:696-708 | written == sent ++ out-queue beyond the bytes sent and not yet popped, in every reachable state |
| `Runs.StopLetsGo` | src/asock_service.c:491-505 | once the loop has ended no count stems from m_connections or from what it took over from m_new_connections |
| `Runs.StopTakesAllWaiting` | src/asock_service.c:491-498 | a client's shutdown lets go of every entry that waited when it began, whatever is pushed meanwhile |
| `Runs.StatesFollowDiagram` | include/asock.h:84-92 | in polite runs every published change is an edge of the diagram and Failed is final |
| `Runs.ConnectOnDiagramIff` | src/asock_service.c:333-334 | in any run, a connect keeps a history on the diagram if and only if it finds the connection Idle or InProgress |
| `Runs.AdoptOnDiagramIff` | src/asock_service.c:765-812 | in any run, so does the attempt of a waiting connection, whatever the kernel answers |
| `Runs.WritableOnDiagramIff` | src/asock_service.c:568-570 | in any run, a writable descriptor keeps its entry on the diagram if and only if it finds it InProgress or Established |
| `Reconnects.CourseIff` | include/asock.h:84-92 | under the ownership invariant, a step of any kind keeps every live history on the diagram if and only if it is none of those three gone wrong |
| `Reconnects.HistoriesFollowIff` | include/asock.h:84-92 | over whole runs, however often connect is called, every live history keeps to the diagram throughout if and only if no step strays |
| `Runs.EntriesAreUsable` | src/asock_service.c:536-546 | in polite runs every entry of m_connections has a descriptor and is InProgress or Established, on the server Established |
| `Runs.SentOnlyEstablished` | src/asock_service.c:729-747 | no byte leaves before the connection was Established |
| `Runs.AssertionsHold` | src/asock_service.c:694-706 | in polite runs no assertion of the send sweep (694, 700, 706), of close_connection (621) or of the connection attempt (769) can fail, whatever step comes next and whatever the kernel answers |
| `Reconnects.CloseAssertsIff` | src/asock_service.c:619-622 | in every run, at its turn in the close sweep an entry passes the assertion of close_connection if and only if it has a descriptor |
| `Reconnects.SendAssertsAlways` | src/asock_service.c:694-706 | in every run the assertions of the send sweep hold, the one of the close after a failed send included |
| `Reconnects.DescribedIff` | src/asock_service.c:533-547 | a step keeps every entry's descriptor if and only if it is not a failed attempt for a connection already in m_connections |
| `Reconnects.DescriptorsStayIff` | src/asock_service.c:533-547 | over whole runs, entries keep their descriptors throughout if and only if no such attempt happens, and then the assertion of close_connection holds |
| `Runs.LookupsFindOwnIndex` | src/asock_service.c:654-683 | in polite runs looking an entry up by id or descriptor returns its own index |
| `Runs.ChunkReachesCarrier` | src/asock_service.c:607-611 | a chunk read from a descriptor is appended to the in-queue of the one live connection that carries it, and nothing else changes |
| `Runs.NothingLostIncoming` | src/asock_server.c:803-823 | everything read from a descriptor is delivered ++ in-queue ++ the chunk on its way, of the connection that carries it; everything sent on it was this connection's |
| `Runs.SweepVisits` | src/asock_service.c:686-713 | under any interleaving a stretch of a sweep visits exactly the original entries between its two positions, each once, from the back |
| `Runs.SweepIsComplete` | src/asock_service.c:754-763 | a whole sweep visits the table it started with, every entry once |
| `Runs.PassSweepsTwice` | src/asock_service.c:549-551 | a pass has one send sweep and one close sweep, and each visits the whole table it found, every entry once |
| `Sweeps.SweepOutcome` | src/asock_service.c:686-763 | under any interleaving a sweep leaves the table it began with less the condemned entries, in order, and whoever left has failed or is freed |
| `Sweeps.CloseSweepCondemns` | src/asock_service.c:754-763 | under any interleaving a close sweep condemns every entry marked when it begins, and no entry that was not marked then and is not destroyed meanwhile |
| `History.SweepClosesDestroyed` | src/asock_service.c:754-763 | in polite runs, from the start: it condemns every entry its application destroyed before, and none it has not destroyed by the sweep's end |
| `History.MarkedIff` | src/asock_impl.c:105-181 | over any run a live connection is marked if and only if, since it came to be, its application destroyed it, an attempt for it failed, or a close or the shutdown let go of an entry of it |
| `History.EstablishedWasOpened` | src/asock_service.c:765-812 | over any run, who is Established was connected at once, had its descriptor become writable without an error, or arrived, since it came to be |
| `History.RunRecords` | src/asock_impl.c:185-198 | over any run an application was handed exactly what its reads took from the front of the in-queue, and wrote what its writes say |
| `Sweeps.SendSweepCondemns` | src/asock_server.c:977-1012 | a send sweep condemns only Established entries, each by a failed send at its own turn |
| `Sweeps.SurvivorsKeep` | src/asock_server.c:946-974 | who stays keeps its state, and its out-queue changed only by what its application wrote and what the kernel took at its own turn |
| `Runs.PendingIsSubsequence` | src/asock_server.c:770-782 | the server's m_new_connections is always an order-preserving subsequence of m_connections |
| `Runs.AcceptsInOrder` | src/asock_server.c:409-423 | accept hands connections out at most once and in order of arrival |
| `Runs.AcceptsNoFailed` | src/asock_server.c:830-851 | accept never hands out a connection that was marked Failed |
| `ConductLoop.StepConducts` | src/asock_service.c:765-812 | every step keeps the rules of polite runs, given that connect is not called a second time |
| `Frames.StepSettled` | src/asock_service.c:773-812 | a connection that has its descriptor keeps it, and its name, for as long as it is live |
| `Frames.StepStreams` | src/asock_service.c:594-611 | the streams recorded for a carried descriptor grow only by its own traffic and are never restarted |
| `Frames.EpollWatchesTable` | src/asock_service.c:804-811 | in polite runs, until the shutdown, epoll watches the descriptors of the table's entries, all of them and no others |
| `Frames.ClosedIsGone` | src/asock_service.c:619-651 | in polite runs a close that has begun, for whatever reason, leaves no entry with that descriptor, unwatched, and the loop goes on where it was |
| `Frames.CloseKeepsReceived` | src/asock_server.c:851-859 | after a close, what the application has read ++ what it can still read stays exactly what was received before it, for as long as it holds the handle |
| `Link.AdoptedEnd` | src/asock_service.c:765-812 | a connection the client's loop has just connected is settled, with nothing sent or received on its descriptor yet |
| `Link.ArrivedEnd` | src/asock_server.c:754-770 | so is one the server's loop has just accepted, before the application accepts it |
| `Link.TurnKeeps` | src/asock_service.c:686-713 | any turn of either endpoint, the one that frees the sender's end included, keeps both invariants and the order of the streams |
| `Link.EndToEnd` | src/asock_impl.c:185-198 | over every joint run, for as long as the receiver's end is live and also after the sender's end is freed: taken by the kernel == read ++ in-queue ++ chunk under way ++ channel, and what is read is a prefix of what was written; while the sender's end is live, written == taken ++ unsent |
| `Link.ReadDrains` | src/asock_impl.c:194-198 | with nothing in the network and no chunk under way, one read with room for the in-queue gives the receiver all that was ever sent |
| `Link.StreamsGrow` | src/asock_service.c:686-713 | over every joint run, what the sender's kernel took and what the receiving loop read only ever grow |
| `Link.FreedLeavesAllSent` | src/asock_impl.c:140-181 | after the turn that frees the sender's end, whatever either side does next (its memory and its descriptor may be reused), the bytes it had sent are in order what was read ++ in-queue ++ chunk under way ++ channel, and no others |
| `LoopProgress.PassEnds` | src/asock_service.c:491-551 | under every interleaving and every kernel answer, from any position of a pass or a shutdown a bounded number of loop steps (at most 7 times the table entries plus 5) leads to the event list, or to the end |
| `LoopProgress.PlainCan` | src/asock_service.c:531-615 | at every position of a pass or a shutdown the loop thread has a step it can take |
| `Directives.GoesKeeps` | src/asock_directive.c:21-77 | every step of sender, loop thread, applications and spurious wake-ups keeps the rendezvous invariant |
| `Directives.EachCallItsResult` | src/asock_directive.c:33-42 | each call returns one result, and it fits its directive, the stage, and how the work on it went: 0 for done, 666 for a bind, create or listen that failed, 2 for too late |
| `Directives.ActYields` | src/asock_service.c:396-472 | what becomes of each directive the loop reads: its code, the stage that follows, and whether its arguments are followed |
| `Directives.OneResultEach` | src/asock_directive.c:68-77 | calls, answers and returns stay in step: never two answers to a call |
| `Directives.PointersAreLive` | src/asock_service.c:365-386 | when the loop thread follows the argument pointers the sender is still blocked in that very call, which was not handled before |
| `Directives.HandledOnce` | src/asock_server.c:429-446 | no call is handled twice |
| `Directives.NoLostWakeUp` | src/asock_directive.c:51-52 | nobody sleeps while there is something to wake up for |
| `Directives.AnsweredWithin` | src/asock_service.c:396-528 | in every run, once the loop thread has taken as many of its own steps as the directive was away from its answer (steps inside a pass or a shutdown counted one by one), four more for each event the kernel reported and eight for each connection pushed meanwhile, the result is there |
| `Directives.AnsweredIff` | src/asock_service.c:412-424 | within that many steps a call is answered if and only if, when it was sent, the status was not Aborted and it was not a change of the name space |
| `Directives.HopefulIff` | src/asock_server.c:272-276 | what the caller sees before the call decides whether its directive has an answer coming |
| `Directives.LoopCanGo` | src/asock_server.c:566-672 | while such a directive waits the loop thread always has a step it can take |
| `Directives.AnsweredReturns` | src/asock_directive.c:33-42 | an answered call returns with its next step and hands back that answer |
| `Directives.StopReturns` | src/asock_service.c:525-528 | when a stop returns, the loop was running, the thread has ended and nothing it knew of is counted any more: what is left are handles, connects under way, strays, and entries queued after the loop let go of m_new_connections (on the server: entries not accepted yet) |
| `Directives.ClientStopReleases` | src/asock_service.c:491-505 | when a client's stop has returned, the tables keep no reference if and only if no connect was pushed after the loop let go of m_new_connections |
| `Directives.ServerStopReleases` | src/asock_server.c:675-683 | when a server's stop returns, the tables keep no reference if and only if every connection put up for accept was handed out or closed before |
| `Limits.SecondConnectBreaksClose` | src/asock_service.c:319-347 | a concrete run with two connects on one connection that fails the assertion of close_connection |
| `Limits.SecondConnectLeavesDiagram` | src/asock_service.c:333-334 | a concrete run in which a second connect takes an Established connection back to InProgress |
| `Limits.CloseBeforeAcceptLeaks` | src/asock_server.c:837-842 | a concrete server run after which a connection keeps a reference that nobody holds |
| `StopLimits.StopKeepsUnaccepted` | src/asock_server.c:675-683 | a concrete run through the API: listen, one arrival, stop; the stop has returned and the connection nobody accepted is still counted for its table entry |
| `StopLimits.BindAfterStopWaits` | src/asock_server.c:272-276 | a concrete run after which a bind waits for an answer it will never get |
| `StopLimits.ConnectAfterStopStays` | src/asock_service.c:340-346 | a concrete run through the API: create, start, stop, connect; the connection is counted for an entry nobody will release |

## Left out

- Tsqueues.Tsqueue.Enqueue: asks for size + count of at most 2^63 and byte sizes below 2^64; beyond that the loop does not end (`SizeT.DoublingStopsIff`) or the products wrap.
- Directives.LoopCanGo: every step inside a pass or a shutdown counts; that the kernel answers a call at all is assumed.
- The second reference of an accepted connection is taken after the connection is published (`src/asock_server.c:782-784`); the model takes the push and the increment as one step, so the window between them is not covered.
- The queue is unlocked after a failed send may have dropped the last reference (`src/asock_service.c:702-703`); ownership is stated between steps, not inside this one.
- Whether each descriptor is closed exactly once: the code closes in `close_connection` and again with the last release, and replaces the descriptor made at creation.
- Which flag of an event leads to which branch: the steps of the event list may follow in any order, which covers the order in the code.
- Plain data races on `m_state`, `m_disconnect` and `m_sock_desc`, which the code accesses without a lock: each access counts as atomic.
- Allocation failures, among them the server path that leaves the mutex locked (`src/asock_server.c:775-780`).
- Several senders of directives at once.
- Builds with assertions disabled, in which an unknown directive is answered with a failure instead of ending the process.
- Delivery of bytes still queued when a connection is destroyed (`include/asock.h:97` lists it as open).
- Datagram sockets, name spaces, addresses, logging, the service manager's table and the one-line wrappers of `asock_connections.c`.
