# A verified model of the reactor

This project models a "one loop per thread" TCP server library and proves what it keeps, for all inputs and all
runs, in two linked layers.

**Sequential objects.** `Buffer`, `Channel`, `EPollPoller`, `TcpConnection`, `EventLoop` and `EventLoopThreadPool`
are classes that change their fields in place. Every method is proved equal to a function on values (`Layout`,
`Tables`, `World`, `Loop`), and the theorems are about those functions, over every sequence of operations:
the buffer is a byte queue with a space bound, the pollers agree with the kernel's interest table, and a connection
conserves both its streams against a kernel that accepts any prefix of each write and splits its reads at will. Module
`Ledgers` is an independent account of a connection, by its events alone, that every run is proved to keep.

**Threads.** `EventLoops` is the functor queue and eventfd protocol, `LoopThreads` the publication of a new loop,
and `Servers` the whole server: the base loop, any number of io loops and outside threads, interleaved one atomic
step at a time, with the functors that carry a connection from accept to destruction. The steps of `Servers` are
made of the same functions the classes are proved equal to. One invariant (`ServerInvariant.Inv`) is kept by
every step of every thread and gives lifetime, dispatch safety, convergence of repeated closes and conservation
of the connection map.

| file | content |
|---|---|
| Buffer.dfy | `Buffer` on an array, and its value |
| Polling.dfy, EPollPoller.dfy | registration machine and kernel table: values, then objects |
| Connection.dfy, ConnectionTheorems.dfy, Ledger.dfy, TcpConnection.dfy, Delivery.dfy | a connection as a value, its theorems, the ledger it refines, the object, and two connections on one wire |
| EventLoop.dfy, EventLoopTrace.dfy, EventLoopThread.dfy, EventLoopThreadPool.dfy | wakeup protocol, the same from its trace, start handshake, round robin |
| Naming.dfy | keys of the connection map |
| Server.dfy | the server as a transition system |
| ServerInvariant.dfy, ServerSteps.dfy, ServerTasks.dfy, ServerMoves.dfy, ServerLifecycle.dfy, ServerQueues.dfy, ServerAccept.dfy | the invariant, and its proof step by step |
| ServerTheorems.dfy, ServerDispatch.dfy, ServerReports.dfy | what every run of the server guarantees: its invariants, its events against the connection's, what passes through it |

`halted` and `failed` record that `LOG_ERROR` or `LOG_FATAL` called `exit(-1)` (Logger.h:19-39): a theorem about
a run speaks of the time before that. User callbacks are arbitrary finite sequences of send, shutdown, retrieve,
queueInLoop and copying of the connection pointer: the first three on connections of the callback's own loop, functors
for any loop. What the kernel answers is an argument of each step.

## What the code does that one might not expect

- One event can report the close of a connection twice, for the hang-up and for the end of the stream read right
  after it (Channel.cc:61-74): `ClosesPerEvent` gives the exact count, `DoubleCloseHappens` a run.
  `DestroyConverges` and `ClosingConverges` prove that this does no harm.
- Disabling a channel twice adds its descriptor again with an empty mask (EPollPoller.cc:74-84): `RepeatedDisable`
  says for every number of repetitions which state results. `kAdded` means "in the kernel's table", nothing more.
- A connection that has closed and is still asked to write ends the process (TcpConnection.cc:266): readiness to
  write together with a hang-up or the end of the stream is always fatal (`WritingAfterCloseIsFatal`), and as
  long as the socket reports no error, the read succeeds and the kernel takes what it is given, nothing else is
  (`WriteReadyIsFatalIff`). `FatalEvents` is the exact condition for
  every event, `FatalCloseHappens` a run.
- The comment on EventLoop.cc:128-131 promises a wakeup for every functor that needs one. A functor queued on the loop's
  own thread before `loop()` gets none, and the loop can sleep on it exactly when nobody else has armed the eventfd
  (`EarlyEnqueueStrands`; `EarlyEnqueueHappens` is a run). The same holds for a functor queued by a destructor that
  runs when the called functors are destroyed (EventLoop.cc:197-198): the flag is already lowered, so nothing is
  written (`LateEnqueueStrands`, `LateEnqueueHappens`). `OwnEnqueueStrandsIff` says exactly which enqueues of the loop's
  thread can be lost; those made in handlers and functors, and those of other threads, never are (`NoLostWakeup`).
- `startLoop` waits for ever if the new loop has already come and gone (EventLoopThread.cc:58-60):
  `StartCanReturnIff` and `LateStarterExists`.
- Connection names are unique because the address text, at most 23 characters, is not longer than 51; beyond that the
  64-byte buffer makes some names collide (`NamesAreUniqueIff`, `LongAddressesCollide`).

## Model

| member | source | states |
|---|---|---|
| Buffers.ReserveMakesRoom | Buffer.h:134-150 | making room keeps the readable bytes, yields the room asked for, and either grows the vector or moves the bytes strictly towards the front, which makes the ascending overlapping copy right |
| Buffers.ReserveIsFrugal | Buffer.h:134-150 | the vector grows only when the free bytes at both ends are too few, and then to exactly the room asked for; the bytes move exactly when the tail alone is too short |
| Buffers.ReadFdAppends | Buffer.cc:23-53 | however a read is split between tail and stack segment, the readable bytes are the old ones followed by the data |
| Buffers.ReadFdIsFrugal | Buffer.cc:43-51 | a read that fits the tail leaves the allocation alone, another makes exactly the room its overflow needs |
| Buffers.StepRefinesQueue | Buffer.h:54-114 | each operation is one step of a plain byte queue, and loses or invents nothing |
| Buffers.RunRefinesQueue | Buffer.h:54-150 | over every operation sequence the buffer's content is that of the queue |
| Buffers.RunConservesBytes | Buffer.h:72-114 | start content and everything put in equals everything taken out followed by what is left, in order |
| Buffers.StepSpace | Buffer.h:134-150 | one operation leaves a vector no larger than before, or than twice the demand plus 6 (plus 7 for a demand below 2) |
| Buffers.SpaceBound | Buffer.h:134-150 | over every run the vector never exceeds its start size or twice the peak demand plus 6 (plus 7 below a peak of 2), growth from readFd included |
| Buffers.FreshSpaceBound | Buffer.h:22-26 | the same for a new buffer of any initial size |
| Buffers.SpaceBoundIsTight | Buffer.h:134-150 | for every positive peak a run from an empty buffer that reaches the bound |
| Buffers.Buffer.constructor | Buffer.h:22-26 | both cursors start at 8 with the initial size behind them |
| Buffers.Buffer.RetrieveAll | Buffer.h:66-69 | empties the buffer, array untouched |
| Buffers.Buffer.Retrieve | Buffer.h:54-64 | drops a prefix, or everything when asked for as much as there is |
| Buffers.Buffer.RetrieveAsString | Buffer.h:72-77 | the result is the first bytes of what was there, and exactly the others are left |
| Buffers.Buffer.MakeSpace | Buffer.h:134-150 | the array, grown or compacted in place by a copy loop, has the value that Reserve gives |
| Buffers.Buffer.EnsureWriteableBytes | Buffer.h:85-92 | afterwards the room asked for exists and the content is the same |
| Buffers.Buffer.Append | Buffer.h:106-114 | the content becomes old content followed by the data |
| Buffers.Buffer.ReadFd | Buffer.cc:23-53 | a failed read changes nothing; any other adds exactly the delivered data, through the stack segment when the tail is short |
| Buffers.Buffer.WriteFd | Buffer.cc:55-63 | offers the readable bytes, the kernel takes a prefix, the buffer itself is untouched |
| Polling.PerformKeepsRegistered | EPollPoller.cc:68-149 | every enable, disable or remove on an agreeing channel is accepted by the kernel, keeps the agreement, touches no other descriptor, and has the stated mask and index |
| Polling.MasksAre | Channel.cc:7-9 | flag by flag, what each of the six operations leaves: reading is ordinary and urgent data, writing is EPOLLOUT |
| Polling.RepeatedDisable | EPollPoller.cc:74-95 | after k more disableAll calls the channel is kAdded or kDeleted by the parity of k, in agreement with the tables each time |
| Polling.ActKeepsAgrees | EPollPoller.cc:68-114 | one operation on one channel keeps all channels with distinct descriptors in agreement with both tables |
| Polling.ActAllKeepsAgrees | EPollPoller.cc:68-114 | so does every sequence of operations |
| Polling.IndexIsTables | EPollPoller.cc:68-114 | kAdded iff in the kernel table with equal mask and pointer, kDeleted iff in `channels_` only, kNew iff in neither, hasChannel iff not kNew |
| Polling.RunsAgree | Poller.cc:6-10 | at the end of every run from an empty poller: kAdded, kDeleted, kNew and hasChannel as above, and no epoll_ctl was refused |
| PollerObjects.Channel.EnableReading | Channel.h:53-53 | exactly EPOLLIN and EPOLLPRI are added, and object and tables end as the poller operation says |
| PollerObjects.Channel.DisableReading | Channel.h:54-54 | exactly EPOLLIN and EPOLLPRI are cleared, and object and tables end as the poller operation says |
| PollerObjects.Channel.EnableWriting | Channel.h:55-55 | exactly EPOLLOUT is added, and object and tables end as the poller operation says |
| PollerObjects.Channel.DisableWriting | Channel.h:56-56 | exactly EPOLLOUT is cleared, and object and tables end as the poller operation says |
| PollerObjects.Channel.DisableAll | Channel.h:57-57 | the mask is empty, and object and tables end as the poller operation says |
| PollerObjects.Channel.Remove | Channel.cc:31-34 | takes the channel out of both tables and leaves its mask alone |
| PollerObjects.EPollPoller.UpdateChannel | EPollPoller.cc:68-98 | ADD from kNew or kDeleted, DEL for an empty mask, MOD otherwise, with the resulting tables and index |
| PollerObjects.EPollPoller.RemoveChannel | EPollPoller.cc:101-114 | erased from `channels_`, from the kernel if kAdded, index back to kNew |
| PollerObjects.EPollPoller.Update | EPollPoller.cc:129-149 | the new interest table; an ADD of a present or a MOD or DEL of an absent descriptor ends the process |
| PollerObjects.EPollPoller.HasChannel | Poller.cc:6-10 | true exactly when the channel's index is not kNew |
| PollerObjects.EPollPoller.Poll | EPollPoller.cc:33-64 | the active list holds one registered channel per ready descriptor, in order, with its flags; no other channel changes; the event array doubles exactly when full |
| PollerObjects.EPollPoller.Fired | EPollPoller.cc:117-126 | the pointer the kernel kept is a registered channel of this loop, and only its `revents_` changes |
| PollerObjects.Channel.constructor | Channel.h:27-28 | a new channel on a descriptor that no other channel of its loop uses joins the loop, and all still agree with the tables |
| PollerObjects.Channel.Do | EPollPoller.cc:68-114 | any operation on one channel object keeps every channel of the loop in agreement, and changes tables and channels as the value operation says |
| PollerObjects.EPollPoller.Meet | Channel.h:27-27 | adding an unregistered channel on a new descriptor keeps the agreement of all the others |
| PollerObjects.EPollPoller.Part | Channel.h:28-28 | an unregistered channel can go, leaving the others in agreement |
| Connections.SendProgress | TcpConnection.cc:74-143 | a send keeps the invariant: streams, write interest, mark accounting, poller agreement, no other descriptor |
| Connections.WriteProgress | TcpConnection.cc:231-268 | so does handleWrite for any number of bytes the kernel takes |
| Connections.CloseProgress | TcpConnection.cc:275-285 | so does handleClose, however often it runs |
| Connections.ReadProgress | TcpConnection.cc:205-226 | so does handleRead for data, end of stream and error |
| Connections.DestroyProgress | TcpConnection.cc:190-199 | so does connectDestroyed, in every state, and it leaves the channel kNew |
| Connections.HandleEventProgress | Channel.cc:57-80 | so does the whole dispatch of one event with arbitrary user callbacks in between |
| Connections.StepsProgress | TcpConnection.cc:53-303 | so does every run |
| ConnectionTheorems.StreamsAreConserved | TcpConnection.cc:74-143 | in every run accepted bytes are bytes in the kernel followed by the output backlog, and received bytes are bytes retrieved followed by the input buffer |
| ConnectionTheorems.InterestIsBacklog | TcpConnection.cc:89-141 | while connected or disconnecting, write interest is on iff the output buffer is not empty, and until connectDestroyed the kernel's mask is EPOLLIN and EPOLLPRI, with EPOLLOUT iff there is backlog |
| ConnectionTheorems.UndestroyedIsOnPoller | TcpConnection.cc:173-199 | in a run without connectDestroyed an established connection never leaves its poller |
| ConnectionTheorems.StateMovesForward | TcpConnection.cc:173-199 | between any two moments the state only advances, histories only grow, and nothing is sent after the close |
| ConnectionTheorems.HalfCloseAfterDrain | TcpConnection.cc:146-165 | at most one half-close, only with every accepted byte in the kernel, and no byte after it |
| ConnectionTheorems.ShutdownIsHonoured | TcpConnection.cc:243-257 | shutdown half-closes at once without backlog, otherwise exactly the handleWrite that drains it does |
| ConnectionTheorems.WriteTellsCompletion | TcpConnection.cc:243-252 | handleWrite queues one write-complete notice iff afterwards every accepted byte is in the kernel, and no other notice |
| ConnectionTheorems.SendTellsCompletion | TcpConnection.cc:89-101 | a send queues it iff afterwards every accepted byte is in the kernel and the write call succeeded |
| ConnectionTheorems.HighWaterAccounting | TcpConnection.cc:120-131 | notifications equal falls below the mark plus one if the backlog is at or above it, at all times and between any two |
| ConnectionTheorems.CallbacksDoNotClose | TcpConnection.cc:275-285 | user callbacks never report a close, and a closed connection stays closed under them |
| ConnectionTheorems.ClosesPerEvent | Channel.cc:61-74 | the exact number of close reports of one event; one iff exactly one of hang-up and end of stream occurs |
| ConnectionTheorems.DoubleCloseHappens | Channel.cc:61-74 | a run in which handleClose runs twice for one event |
| ConnectionTheorems.CallbackFares | TcpConnection.cc:53-143 | a user callback ends the process iff one of its direct writes fails, and otherwise leaves write interest as computed from its sends alone |
| ConnectionTheorems.FatalEvents | Channel.cc:57-80 | exactly which events end the process, for every event and every callback, as a condition on the connection's state and the answers given |
| ConnectionTheorems.WritingAfterCloseIsFatal | TcpConnection.cc:264-267 | write readiness on a connection closed before or during the same event ends the process, whatever the callbacks |
| ConnectionTheorems.WriteReadyIsFatalIff | TcpConnection.cc:231-268 | with a willing kernel, an event on a connection that is up is fatal iff it brings write readiness together with a hang-up or the end of the stream |
| ConnectionTheorems.FatalCloseHappens | Channel.cc:61-79 | a run from a new connection in which such an event ends the process |
| ConnectionTheorems.DestroyConverges | TcpConnection.cc:190-199 | after any number of closes one connectDestroyed leaves no trace of the descriptor, no refused call, no other registration changed, and is idempotent |
| ConnectionTheorems.HandlersKeepPollerAgreement | EPollPoller.cc:68-114 | a connection's handlers keep the whole poller of its loop in agreement |
| Ledgers.SendTakesBytes | TcpConnection.cc:74-143 | a send while connected takes the whole message: the kernel gets a prefix, offered only without backlog, the rest goes to the end of the backlog, with mask and notices as stated; in other states nothing changes |
| Ledgers.WriteSendsBytes | TcpConnection.cc:231-258 | handleWrite sends exactly what the kernel took, keeps the rest, and leaves write interest iff there is a rest |
| Ledgers.StepMatches | Channel.cc:57-80 | every event, callbacks included, does to a connection what it does to a ledger of its streams, written without buffers, channel or poller |
| Ledgers.RunsKeepTheLedger | TcpConnection.cc:53-303 | so does every run: state, all four streams, both buffers, notices and their sizes, half-close, close reports, kernel mask, and the end of the process |
| Ledgers.EverySendIsAccepted | TcpConnection.cc:53-69 | in every run the bytes sent and the backlog together are the data of all sends made while connected, in order |
| TcpConnections.TcpConnection.constructor | TcpConnection.cc:23-46 | a new connection is connecting, empty and unregistered |
| TcpConnections.TcpConnection.Retire | TcpConnection.cc:48-51 | a connection that is off its poller can be destroyed, and its descriptor used again by the loop |
| TcpConnections.TcpConnection.TryWrite | TcpConnection.cc:89-117 | the direct write: how much went out, whether the completion is queued, and when the process ends |
| TcpConnections.TcpConnection.KeepRest | TcpConnection.cc:120-141 | the rest joins the backlog, the mark is announced when reached, write interest is switched on if it was off |
| TcpConnections.TcpConnection.SendInLoop | TcpConnection.cc:74-143 | the object changes as the value function of the theorems says |
| TcpConnections.TcpConnection.Send | TcpConnection.cc:53-69 | sends only while connected |
| TcpConnections.TcpConnection.ShutdownInLoop | TcpConnection.cc:160-165 | half-closes iff no write interest |
| TcpConnections.TcpConnection.Shutdown | TcpConnection.cc:146-153 | moves to disconnecting once, then half-closes or leaves it to handleWrite |
| TcpConnections.TcpConnection.Retrieve | Buffer.h:72-77 | bytes given to the user are the next ones of the input stream |
| TcpConnections.TcpConnection.HandleRead | TcpConnection.cc:205-226 | one readv delivers as much of what waits as the tail holds, with 65536 bytes more when the tail is shorter than that; data, end and error as in the value function |
| TcpConnections.TcpConnection.HandleWrite | TcpConnection.cc:231-268 | the object changes as the value function says |
| TcpConnections.TcpConnection.HandleClose | TcpConnection.cc:275-285 | disconnected, all interest off, then the user's callback, as in the value function |
| TcpConnections.TcpConnection.ConnectEstablished | TcpConnection.cc:173-181 | connected, tied, reading, then the user's callback |
| TcpConnections.TcpConnection.ConnectDestroyed | TcpConnection.cc:190-199 | disables and reports only if still connected, removes always |
| TcpConnections.TcpConnection.HandleEvent | Channel.cc:57-80 | close, error, read and write callbacks in this order |
| Delivery.StepReceives | TcpConnection.cc:205-226 | a live step adds to the received bytes exactly what its read brought in |
| Delivery.NextJoined | TcpConnection.cc:74-268 | each event on either side keeps: bytes sent left are bytes received right followed by the wire |
| Delivery.InOrderDelivery | TcpConnection.cc:74-268 | end to end and at every moment, bytes accepted on one side are, in order, those retrieved on the other, its input buffer, the wire and the backlog |
| EventLoops.ApplyKeepsInv | EventLoop.cc:69-157 | every step of every thread keeps the protocol invariant |
| EventLoops.NoLostWakeup | EventLoop.cc:121-157 | in every interleaving a loop in epoll_wait with pending functors has a readable eventfd or a thread about to write it |
| EventLoops.StrandsIff | EventLoop.cc:69-157 | from any state, the loop can come to sleep on a pending functor with nobody to wake it iff the state is not attentive |
| EventLoops.OwnEnqueueStrandsIff | EventLoop.cc:121-136 | an enqueue on the loop's own thread can be lost iff it is made outside handlers and functors (before or after `loop()`, or while the called functors are destroyed) with an eventfd at zero and no write to it under way |
| EventLoops.EarlyEnqueueStrands | EventLoop.cc:121-136 | before `loop()`, the loop can come to sleep on a pending functor with nobody to wake it iff it is not armed then |
| EventLoops.EarlyEnqueueHappens | EventLoop.cc:121-136 | a new loop comes to that after one functor queued by its own thread |
| EventLoops.LateEnqueueStrands | EventLoop.cc:192-198 | while the called functors are destroyed, likewise: it can come to that sleep iff it is not armed then |
| EventLoops.LateEnqueueHappens | EventLoop.cc:182-198 | a new loop comes to that after one functor queued while the functors of its first phase are destroyed |
| EventLoops.FunctorsRunOnceInOrder | EventLoop.cc:182-198 | all functors ever queued are those executed, the rest of the batch and the pending ones, in order; the eventfd is never read in vain |
| EventLoops.BatchIsExactlyTheClaim | EventLoop.cc:182-198 | a functor phase calls exactly the functors present at its swap, and what is queued meanwhile stays pending |
| EventLoops.QuitIsPrompt | EventLoop.cc:97-106 | after quit at most one more epoll_wait is entered: none when the loop thread itself calls quit, and none unless the loop had just passed its test of the flag |
| EventLoops.QuitIsHeard | EventLoop.cc:97-106 | in every interleaving, early enqueues included, a loop is never in epoll_wait with `quit_` set, an unreadable eventfd and no write to it under way |
| LoopTraces.RunIsItsTrace | EventLoop.cc:69-198 | in every run the eventfd counts the writes since its last read, the k-th call is of the k-th functor queued, what is pending was queued since the last swap, and flags, polls and position are those of the trace |
| LoopTraces.ReadQuietens | EventLoop.cc:138-146 | one read empties the eventfd: until somebody writes again epoll_wait does not report it |
| LoopTraces.ReportIsRead | EventLoop.cc:80-90 | a reported wakeup is read before the functors of its round are claimed |
| EventLoops.PhaseMeans | EventLoop.cc:182-198 | the closed form of an undisturbed functor phase is what the protocol's steps compute, destructors that queue included |
| EventLoops.EventLoop.QueueInLoop | EventLoop.cc:122-136 | the push and, from another thread or while the flag is up, the write; callable wherever the loop thread runs code of others, destructors of functors included |
| EventLoops.EventLoop.QuitLoop | EventLoop.cc:97-106 | the flag and, from another thread, the write |
| EventLoops.EventLoop.HandleRead | EventLoop.cc:138-146 | the eventfd is reset; a read of zero ends the process |
| EventLoops.EventLoop.ClaimAll | EventLoop.cc:182-190 | the flag goes up and the pending functors move to the batch as a whole |
| EventLoops.EventLoop.CallAll | EventLoop.cc:192-195 | each functor is called once and in order, whatever they queue |
| EventLoops.EventLoop.DoPendingFunctors | EventLoop.cc:182-198 | a whole phase: all claimed functors run, the ones they queue are left pending with a readable eventfd, the ones their destruction queues without another write |
| LoopThreads.RunKeepsInv | EventLoopThread.cc:25-61 | invariant of both threads over every interleaving |
| LoopThreads.StartIsNotMissed | EventLoopThread.cc:31-38 | startLoop never returns null and never sleeps through the notification |
| LoopThreads.StartCanReturnIff | EventLoopThread.cc:25-61 | startLoop can still return iff the loop has not ended before the starter saw it |
| LoopThreads.LateStarterExists | EventLoopThread.cc:58-60 | a run that leaves the starter waiting for ever |
| ThreadPools.TimesCounted | EventLoopThreadPool.cc:41-56 | how often a loop is chosen in a window, from its distance to the index |
| ThreadPools.ChoicesAre | EventLoopThreadPool.cc:41-56 | the j-th choice is the start index plus j, modulo the number of loops |
| ThreadPools.RoundRobinIsBalanced | EventLoopThreadPool.cc:41-56 | in any window of k calls each of n loops is chosen k/n times, rounded down or up, and indices stay in range |
| ThreadPools.StartLoop | EventLoopThread.cc:25-40 | whatever the handshake, what startLoop returns is the new thread's loop, never null |
| ThreadPools.EventLoopThreadPool.Start | EventLoopThreadPool.cc:20-38 | one loop per thread, each the loop of its own thread, in order; the init callback has run once on each, or on the base loop if there are none |
| ThreadPools.EventLoopThreadPool.GetNextLoop | EventLoopThreadPool.cc:41-56 | the base loop without threads, else the loop at the index, which advances cyclically |
| ThreadPools.EventLoopThreadPool.GetNextLoops | EventLoopThreadPool.cc:41-56 | a window of calls hands out the loops that the balance theorem counts |
| Naming.ParseDecimal | TcpServer.cc:76-79 | decimal printing can be read back |
| Naming.IpPortLength | InetAddress.cc:18-26 | address and port take at most 23 characters |
| Naming.SuffixFits | TcpServer.cc:76-77 | the suffix of every id up to 2^31-1 fits into 64 bytes if the address text has at most 51 characters |
| Naming.NamesAreUnique | TcpServer.cc:76-79 | with such an address, two names of one server are equal iff their ids are |
| Naming.LongAddressesCollide | TcpServer.cc:76-77 | with a longer address two given ids share a name, and from 62 characters on all do |
| Naming.NamesAreUniqueIff | TcpServer.cc:76-79 | the ids up to 2^31-1 have different names iff the address text has at most 51 characters |
| ServerInvariant.NewServerInv | TcpServer.cc:72-122 | a server of any size starts in the invariant |
| ServerInvariant.RegisteredIsHeld | TcpServer.cc:94-122 | a connection whose channel is on a poller is held by the map, a queued or running functor, or its handler |
| ServerLifecycle.OnCloseStep | TcpConnection.cc:275-285 | closing a connection, by hang-up or end of stream, keeps the invariant |
| ServerLifecycle.EstablishStep | TcpConnection.cc:173-181 | so does connectEstablished, called or queued |
| ServerLifecycle.RemoveStep | TcpServer.cc:116-122 | so does removeConnectionInLoop, also a second time |
| ServerLifecycle.DestroyStep | TcpConnection.cc:190-199 | so does connectDestroyed, which never fails and takes the channel off the poller |
| ServerQueues.QueueOtherStep | EventLoop.cc:122-136 | so does queueing on another loop, by the library or by a user callback, whose write comes later |
| ServerQueues.QueueOwnStep | EventLoop.cc:122-136 | so does queueing on the own loop |
| ServerQueues.NextStep | EventLoop.cc:192-195 | so does taking the next functor of the batch |
| ServerAccept.MoveKeepsInv | TcpServer.cc:72-122 | so does every step of every thread, unless it ends the process |
| ServerTheorems.RunKeepsInv | EventLoop.cc:69-94 | so does every run |
| ServerTheorems.ConnectionsOutliveTheirRegistration | TcpServer.cc:94-122 | in every reachable state whatever a poller or the kernel lists is a connection of that loop, strongly held, with the mask and pointer it says |
| ServerTheorems.NoDanglingNoRefusal | Channel.cc:37-54 | dispatch never follows a pointer to a destroyed connection, and no epoll_ctl has been refused |
| ServerTheorems.OnlyDestroyUnregisters | TcpConnection.cc:190-199 | the only step that unregisters a connection is its connectDestroyed, in the functor phase of its own loop |
| ServerTheorems.DispatchIsSafe | EventLoop.cc:80-90 | until dispatch ends every listed connection stays registered and alive, whatever callbacks and other threads do, also with one loop for everything |
| ServerDispatch.TasksAreCallbacks | Channel.cc:57-80 | a dispatch lists exactly the callbacks that the reported flags ask for, in the order close, error, read, write |
| ServerDispatch.ServedAsEvent | Channel.cc:37-80 | every dispatch, to the end of its callbacks, whatever other threads and the user do in between, leaves the connection and the process as one HandleEvent with the reported flags, and the poller too if the callbacks keep to this connection |
| ServerDispatch.EveryEventIsServed | Channel.cc:37-80 | and every HandleEvent, with any answers and any callbacks, is a run of steps of the loop |
| ServerReports.ReportsAreConnections | EPollPoller.cc:117-126 | after epoll_wait the active list is, entry by entry, this loop's connection on the reported descriptor with the reported flags |
| ServerReports.EveryReportIsDispatched | EventLoop.cc:80-90 | each entry is dispatched, once and in order, before the loop goes on to its functors |
| ServerReports.NoticesReachTheLoop | TcpConnection.cc:97-128 | between any two moments of a run, the callbacks queued on a connection's own loop, or on their way there, are exactly its notifications and what the user queued |
| ServerReports.CopiesAreTheUsers | TcpConnection.cc:281-284 | the pointer copies outside the library are, in every run, exactly those the user made and has not dropped |
| ServerReports.FunctorsDoTheirWork | EventLoop.cc:192-195 | a called functor establishes, erases or unregisters its connection, or enters user code; user code follows the first |
| ServerTheorems.ClosingConverges | TcpServer.cc:111-122 | a closed connection with none of its functors outstanding is in no map and no table, kNew, its descriptor unregistered |
| ServerTheorems.NothingIsForgotten | TcpServer.cc:111-122 | a closed connection still mapped or registered has its removal or destruction under way; connectEstablished is outstanding once while connecting and never later |
| ServerTheorems.MapIsConserved | TcpServer.cc:96-119 | map size is accepted minus erased connections, and each entry sits under its own name |
| ServerTheorems.AcceptedNameIsFresh | TcpServer.cc:76-96 | no entry is overwritten by an accept |
| ServerReports.AcceptedIsNew | TcpServer.cc:72-107 | an accepted connection is connecting, unregistered and empty, on the accepted descriptor, with the server's mark and callbacks, under its own name; all others stay |
| ServerReports.SettingsAreTheServers | TcpServer.cc:98-104 | in every reachable state every connection has the settings the server was given |
| ServerTheorems.NoResurrection | TcpConnection.cc:281-284 | from any state of the invariant no step makes a new reference to a connection that has none |
| ServerTheorems.DestroyedMeansGone | TcpConnection.cc:48-51 | so a destroyed connection is never referred to again in any run |
| ServerTheorems.EveryLoopIsAttentive | EventLoop.cc:69-157 | in the running server every loop hears its functors and its quit, runs each functor once and in order |
| ServerTheorems.EveryConnectionIsSound | TcpConnection.cc:74-268 | in the running server every connection conserves its streams, half-closes at most once and after the drain, and has write interest iff backlog |
| ServerTheorems.WorkersNeverBlock | EventLoop.cc:80-90 | a loop thread inside a handler or functor always has a next step |
| ServerTheorems.HandledProgress | Channel.cc:57-80 | every handler the server runs meets the sequential layer's conditions and so its theorems |
| ServerTheorems.NoControlIsRefused | EPollPoller.cc:129-149 | no step, not even one that ends the process, issues an epoll_ctl the kernel refuses |
| ServerTheorems.HandlersTouchOneDescriptor | EPollPoller.cc:68-114 | a handler changes at most its own descriptor's registration, on its own loop |
| ServerTheorems.OneNoticePerHandler | TcpConnection.cc:97-128 | a send or a handleWrite queues at most one notification |
| ServerTheorems.ConnectionsAreBalanced | TcpServer.cc:72-75 | in every reachable state the accepted connections are spread evenly over the io loops |

## Left out

- EventLoop::loop and TcpServer are transition systems on values: their steps are those of interleaved threads, which no single Dafny method can express; class `EventLoop` covers the loop's methods that run without interference.
- Servers: the wakeup channel and the acceptor's channel have no table entries there; their effects are the steps ReadWake and Accept.
- Servers: notifications travel as one functor kind that holds the connection; which callback it runs is left to the user code step.
- Servers: a connection's `user` copies stand for all pointers outside the library, and an accepted descriptor differs from those of living connections, as the kernel guarantees.
- Liveness: queued functors run when their loop gets to run; no scheduler fairness is modelled, only that no thread is blocked or asleep with work to do.
- EventLoops.NoLostWakeup: enqueues on the loop's own thread outside handlers and functors (before or after `loop()`, or in destructors of called functors) are excluded, because for them the property is false; EventLoops.OwnEnqueueStrandsIff and EventLoops.StrandsIff give the exact conditions.
- ServerTheorems.EveryLoopIsAttentive: in the server model loop threads queue functors only in handlers and functors, so thread-init callbacks and destructors of captured objects that queue are not part of it.
- ConnectionTheorems.HighWaterAccounting: a mark of zero is never announced by the code, so the count is stated for a positive mark, and as zero otherwise.
- LoopThreads.StartIsNotMissed: what happens to the returned pointer once the loop has ended is not modelled.
- Cross-thread send and shutdown: send passes a raw pointer to another thread and shutdown tests and sets the state in two steps, so the stream properties are those of calls on the connection's own loop.
- Teardown: ~TcpServer, ~EventLoop and ~EventLoopThread, and with them connectDestroyed on a connection that is still up inside the server model; Connections.DestroyProgress covers it, in every state, for a single connection.
- Servers: a functor that user code queues goes to the loop of the connection it holds.
- System calls: timing, EINTR, errno other than would-block, a failing shutdown(2) or getsockname, saturation of the eventfd; half-closing is a count.
- Event masks are sets of flags; `revents_` is any set.
- Integer width: size_t and int arithmetic is unbounded except for the connection id, which ends at 2^31-1.
- Memory order: atomics and locked sections are sequentially consistent steps.
- Socket, Acceptor, Logger, Timestamp, Thread and CurrentThread: system-call wrappers and output.
