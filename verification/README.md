# Verified models of socketpp

This project models the concurrent core of socketpp, a C++ networking library, and
proves what its callers rely on, for every run. The parts are modelled separately and
some are composed:

- **TCP connections** (`ConnectionProtocol`, `ConnectionTheorems`, `ConnectionHistory`,
  `TcpConnection`): sender threads, user threads and the loop thread share a connection. Each section under the
  write mutex, each dispatcher call, each socket call and each post is one atomic step, so
  a list of actions is an interleaving. Proved: no accepted byte is lost, reordered or
  left without a writable notification; the exact back-pressure bound; one close; data
  callbacks before the close callback; and for every part of the state what in the run it
  comes from: which sends were taken, what closed the connection, who set its mask last.
- **Callbacks** (`CallbackStack`, `CallbackInvariant`, `CallbackTheorems`, `CallbackShutdown`,
  `CallbackAdmission`, `Executor`): the thread pool with its condition variable, and serial
  queues on top of it. Proved: exactly which jobs the pool takes; tasks of a queue run one at a time and in order; shutdown drains, in a bounded number
  of steps and without getting stuck; no lost wake-up; exactly when a queue gets stuck because
  the pool refused its drain.
- **Connection to user** (`EndToEnd`): connections and callbacks composed. Proved: what the user is
  called with is an ordered prefix of what the socket received, and all of it at shutdown.
- **Event loop** (`LoopProtocol`, `LoopTheorems`, `EventLoop`): the two swapped post buffers, the
  wake token and the stop flag. Proved: the buffers are one FIFO queue; no lost wake and
  no lost stop; once a stop callback is posted the loop's remaining steps are bounded.
- **Connection on its loop** (`LoopConnection`): a connection whose tasks are posted to that
  loop, among the posts of others. Proved: output pending on a started connection has write
  interest, or is being handled, or waits for a task that the loop holds without being blocked.
- **UDP** (`DgramRouting`, `DgramPaths`, `DgramReceive`, `DgramClaims`, `DgramTheorems`,
  `DgramHistory`, `DgramSocket`): routing of received datagrams to claimed peers, whose owners may relinquish
  them between any two loads of their flags. Proved: exactly when the two-pass batch path does
  what the simple path does, and when it overruns; exactly when a datagram is dropped, a
  peer open and an address taken; one open peer per address; every received datagram accounted for.
- **IOCP dispatcher** (`IocpProtocol`, `IocpInvariant`, `IocpTheorems`, `IocpHistory`,
  `IocpDispatcher`): readiness emulated with overlapped operations. Proved: a pending flag is set exactly while its
  operation is in flight; every interest is backed; completions are handled and
  datagrams leave in order; exactly which callbacks a poll runs.
- **kqueue dispatcher** (`Kqueue`): change lists refine replacement of an interest mask.
- **Timers** (`TimerProtocol`, `TimerTheorems`, `TimerHistory`, `TimerService`): dispatcher tables and move-only
  handles. Proved: one-shots run at most once and are not lost, nothing runs after a
  cancellation, repeating timers stay until cancelled, stale handles are harmless, every timer
  is given back once.
- **Small vector, accept back-off, DNS messages** (`SmallVector`, `AcceptLoop`, `DnsName`,
  `DnsMessage`, `DnsTheorems`).

Objects that the source updates in place are classes with those fields. Where a class has a
ghost field `model`, its `Valid()` ties the fields to a protocol state, and every method says
which protocol actions it performs, in which order; what other threads do in between is a
script parameter.

Choices the source leaves open or that its comments describe differently:

- `post_lock_` and the mutexes make a section atomic; memory order beyond that is not modelled.
- `serial_queue::submit` ignores the pool's answer, so a refused drain leaves the queue
  stuck for good. `StuckIffRefused`, `SubmitSticksIff` and `RefusalHappens` state exactly when.
- The queue limit of a connection counts queued bytes, not the chunk being sent.
  `BackpressureBound` gives the true bound and `BackpressureTight` a run that reaches it.
- A drain that ends and a register task ask for reading too, so a paused connection reads again
  after a send. `PauseHoldsIff` states exactly when it does not read, `PauseUndone` gives a run.
- `event_loop::stop` before `run` has cleared the flag is lost. `ReturnsIffStopping` and
  `DirectStopReturnsIff` state exactly when `run` is sure to return; `NoLostStop` shows that
  the posted stop which destroy uses is not affected.
- A peer's flag is loaded when a datagram is looked up and again when it is delivered, and by
  each pass over a batch. A peer relinquished in between loses the datagram (`DroppedIff`), and
  with a batch callback the second pass selects more than the first counted (`SecondPassIff`).
- The accept loop drops the identifier of its back-off timer. When the timer cannot be made,
  the listener stays unwatched for good. `StrandedIff` states exactly when this happens,
  `StrandedForever` that nothing undoes it, `ListenerLost` gives a run.
- `skip_dns_name` takes any length byte below 192 for a label, although RFC 1035 allows 63.

## Model

| member | source | states |
|---|---|---|
| ConnectionTheorems.ByteStreamConserved | src/high/connection_engine.hpp:233-325 | in every run the bytes senders were told were accepted are, in order, those on the wire, those dropped by a fatal send, those in flight and those queued; nothing is dropped before the close |
| ConnectionTheorems.NoStrandedOutput | src/high/connection_engine.hpp:143-338 | pending output of an open started connection always has write interest registered or a registration task posted |
| ConnectionTheorems.BackpressureBound | src/high/connection_engine.hpp:253-325 | the byte counter is exact; all chunks but the first stay within the limit and the whole within twice the limit, over the limit only after a send was accepted while a chunk was in flight |
| ConnectionTheorems.BackpressureTight | src/high/connection_engine.hpp:253-325 | for every limit a run that reaches the bound |
| ConnectionTheorems.QuietStateFlushes | src/high/connection_engine.hpp:233-285 | from every quiet reachable state of a started connection with output pending, write interest is set and one writable event with a socket that takes everything puts exactly the accepted bytes on the wire |
| ConnectionTheorems.FullDrainFlushes | src/high/connection_engine.hpp:233-285 | a drain with full sends empties the queue, clears the registration flag and ends idle |
| ConnectionTheorems.CallbackOrder | src/high/connection_engine.hpp:176-367 | the close body runs at most once; submitted callbacks are the received bytes in order, then at most one on_close |
| ConnectionTheorems.ClosedIsFinal | src/high/connection_engine.hpp:350-367 | after the close no continuation submits another callback or receives a byte |
| ConnectionTheorems.ExecAccepted | src/high/connection_engine.hpp:300-325 | the accepted bytes are those of the sends that returned true, in order |
| ConnectionHistory.SendTakenIff | src/high/connection_engine.hpp:300-325 | in every reachable state a send is taken exactly if it is not empty and stays within the limit together with the bytes queued; otherwise nothing changes |
| ConnectionHistory.WireIsTaken | src/high/connection_engine.hpp:233-285 | the wire carries as much of the accepted bytes as the successful sends report, and no more |
| ConnectionHistory.RegisteredIff | src/high/connection_engine.hpp:233-325 | write_registered_ is set exactly if a send was taken since a drain last found the queue empty |
| ConnectionHistory.ClosedIff | src/high/connection_engine.hpp:176-382 | a connection is closed exactly if a posted close was run, an event reported an error, a read found the end of the stream or failed, or a send failed |
| ConnectionHistory.CloseTaskCloses | src/high/connection_engine.hpp:350-382 | from every reachable state with a close posted, running the posted tasks in turn ends closed and untracked, with on_close submitted last if there is one |
| ConnectionHistory.CallbacksExact | src/high/connection_engine.hpp:176-367 | the callbacks submitted are one for each read that returned bytes, with those bytes, and then on_close once closed |
| ConnectionHistory.TrackedIff | src/high/connection_engine.hpp:143-367 | the dispatcher has the socket exactly from the start task's add until the close |
| ConnectionHistory.LastCallDecides | src/high/connection_engine.hpp:143-338 | the interest mask is what the last of start, register, pause, resume and the end of a drain asked for |
| ConnectionHistory.PausedIff | src/high/stream_connection_impl.hpp:65-106 | the paused flag says which of pause and resume was called last |
| ConnectionHistory.PauseHoldsIff | src/high/stream_connection_impl.hpp:65-125 | a tracked connection is not watched for reading exactly while a pause task's call is the last one |
| ConnectionHistory.PauseUndone | src/high/connection_engine.hpp:300-338 | a run in which a send after the pause has the connection read again |
| ConnectionHistory.DrainBeginsIff | src/high/connection_engine.hpp:176-220 | a drain begins exactly with a writable event that reports no error and whose read, if any, returned bytes |
| ConnectionHistory.DrainEndsIff | src/high/connection_engine.hpp:233-285 | a drain ends exactly if it finds the queue empty, the socket would block or a send fails |
| ConnectionHistory.TasksInOrder | src/high/connection_engine.hpp:143-382 | the tasks posted by start, send, close, pause and resume are run once each and in order |
| ConnectionProtocol.StepInv | src/high/connection_engine.hpp:143-382 | every atomic step keeps conservation, bounds, callback order, registration and single start |
| ConnectionProtocol.ExecInv | src/high/connection_engine.hpp:143-382 | so does every interleaving |
| ConnectionProtocol.RunTaskKeepsWatch | src/high/stream_connection_impl.hpp:65-125 | start, register, pause, resume and close tasks keep pending output watched |
| TcpConnection.Connection.EnqueueSend | src/high/connection_engine.hpp:300-325 | true exactly if open, not empty and within the limit; then the bytes are queued and counted, and a register task is posted if none was due |
| TcpConnection.Connection.StartReading | src/high/connection_engine.hpp:143-166 | posts the start task once |
| TcpConnection.Connection.CloseFromUser | src/high/connection_engine.hpp:375-382 | posts a close unless already closed |
| TcpConnection.Connection.PauseFromUser | src/high/stream_connection_impl.hpp:65-93 | marks the connection paused and posts the task |
| TcpConnection.Connection.ResumeFromUser | src/high/stream_connection_impl.hpp:101-125 | the same for resume |
| TcpConnection.Connection.InitiateClose | src/high/connection_engine.hpp:350-367 | closes once: untracks, and submits on_close if there is one |
| TcpConnection.Connection.TakeFrontChunk | src/high/connection_engine.hpp:240-256 | pops the front chunk, or clears the flag and the write interest |
| TcpConnection.Connection.PushRemainder | src/high/connection_engine.hpp:266-275 | puts the unsent rest back in front and restores the byte count |
| TcpConnection.Connection.FailSend | src/high/connection_engine.hpp:277-279 | a fatal send drops the rest and closes |
| TcpConnection.Connection.SendChunk | src/high/connection_engine.hpp:258-283 | the send loop plays the schedule of other threads and send results, and ends the drain exactly if a send did not succeed |
| TcpConnection.Connection.DrainWriteQueue | src/high/connection_engine.hpp:233-285 | the whole drain plays the schedule, taking no step it cannot take, and ends idle |
| TcpConnection.Connection.RunPostedTask | src/high/connection_engine.hpp:143-166 | runs exactly the oldest task: the protocol's step, and for start, pause and resume the others' actions and the dispatcher call; a close task closes |
| TcpConnection.Connection.OnIoEvent | src/high/connection_engine.hpp:176-220 | an event is the protocol's step; a drain follows exactly if the event calls for one, and plays the given schedule of others and send results |
| CallbackTheorems.SerialExecution | src/high/serial_queue.hpp:79-140 | at most one drain per queue, no two workers in one queue, started and finished tasks are prefixes of the submitted ones |
| CallbackTheorems.StuckIffRefused | src/high/serial_queue.hpp:79-91 | a drain flag without a live drain is set exactly if the pool refused that queue's drain |
| CallbackTheorems.SubmitSticksIff | src/high/serial_queue.hpp:79-91 | a submit sticks its queue exactly if the queue was idle and the pool stopped or full |
| CallbackTheorems.RefusedIsForever | src/high/serial_queue.hpp:79-140 | no continuation starts another task of a refused queue |
| CallbackTheorems.RefusalHappens | src/high/thread_pool.cpp:87-106 | a run with a full pool in which a queue gets stuck |
| CallbackTheorems.DrainedOnShutdown | src/high/thread_pool.cpp:55-127 | when shutdown returns, every accepted job ran exactly once and jobs started in acceptance order |
| CallbackTheorems.JoinedState | src/high/thread_pool.cpp:108-127 | the same of any joined state, and every unrefused queue finished all its tasks |
| CallbackTheorems.NothingAcceptedAfterStop | src/high/thread_pool.cpp:87-106 | a stopped pool accepts nothing in any continuation |
| CallbackTheorems.NoLostWakeup | src/high/thread_pool.cpp:55-106 | queued jobs never face only sleeping workers without a notification on its way; after stop none sleeps forever |
| CallbackAdmission.AcceptedIsAdmitted | src/high/thread_pool.cpp:87-106 | the pool takes exactly the jobs offered before shutdown while it is unlimited or below its limit, in order |
| CallbackAdmission.UnlimitedTakesAll | src/high/thread_pool.cpp:87-106 | a pool with limit 0 takes every job until shutdown, and no serial queue is refused |
| CallbackAdmission.BoundedTurnsAwayIff | src/high/thread_pool.cpp:87-106 | a bounded pool holds at most its limit, and turns a job away exactly if shut down or holding that many |
| CallbackAdmission.RefusedIff | src/high/serial_queue.hpp:79-91 | a queue is refused exactly if a submit found it without a drain and the pool stopped or full |
| CallbackAdmission.SerialHoldsAll | src/high/serial_queue.hpp:79-140 | a queue has started or holds exactly the tasks submitted to it, in order |
| CallbackAdmission.NotifiedForEach | src/high/thread_pool.cpp:87-127 | there is one notification for every job taken and one to all for the shutdown, until they are delivered |
| CallbackAdmission.DeliveryWakes | src/high/thread_pool.cpp:55-79 | a delivered notification wakes the worker it reaches; the one to all wakes every sleeping worker |
| CallbackAdmission.SleepsIff | src/high/thread_pool.cpp:55-79 | a worker goes to sleep, or exits, exactly if it finds nothing queued and the pool is not stopped, or is |
| CallbackAdmission.WakesIff | src/high/thread_pool.cpp:55-79 | a sleeping worker wakes exactly by a notification that reaches it, or spuriously |
| CallbackAdmission.JoinedOnlyAfter | src/high/thread_pool.cpp:108-127 | shutdown returns only after it was called, has notified all workers and all have exited, and then it can |
| CallbackShutdown.ShutdownEnds | src/high/thread_pool.cpp:55-127 | after stop, the workers' steps in any continuation are bounded by a rank plus two for each task submitted to a serial queue meanwhile |
| CallbackShutdown.ShutdownNeverStuck | src/high/thread_pool.cpp:55-127 | in every reachable stopped state the notification is still to be delivered, or a worker has a step, or shutdown can return |
| CallbackInvariant.StepInv | src/high/serial_queue.hpp:79-140 | every step of pool and queues keeps the accounting of jobs, the wake-up and the single drain |
| Executor.CallbackExecutor.SubmitToPool | src/high/thread_pool.cpp:87-106 | true exactly if not stopped and unlimited or below the limit, and then the job is queued |
| Executor.CallbackExecutor.SubmitToSerial | src/high/serial_queue.hpp:79-91 | appends, and submits a drain exactly if none was flagged |
| Executor.CallbackExecutor.RequestShutdown | src/high/thread_pool.cpp:108-127 | sets the flag once and notifies all |
| Executor.CallbackExecutor.WorkerLoopSection | src/high/thread_pool.cpp:55-79 | waits, exits only when stopped and empty, or takes the front job |
| Executor.CallbackExecutor.DrainSerial | src/high/serial_queue.hpp:119-140 | the drain loop takes only its own steps and the given actions of other threads, until no task is left |
| EndToEnd.UserSeesOrderedStream | src/high/connection_engine.hpp:176-220 | the user sees a prefix of the received bytes, then at most one on_close, then nothing; all of it if nothing waits and nothing was refused |
| EndToEnd.NothingMissingAtShutdown | src/high/connection_engine.hpp:350-367 | after pool shutdown the user got exactly the received bytes and every call returned |
| EndToEnd.UnlimitedMissesNothing | src/high/stream.cpp:120 | with an unlimited pool the user has been called with every callback at shutdown unless the engine produced one after it |
| EndToEnd.StackRun | src/high/serial_queue.hpp:79-91 | the composed system runs the pool and its queues unchanged, with a submit for each callback of the engine |
| EndToEnd.EngineRun | src/high/connection_engine.hpp:176-367 | the composed system runs the connection protocol unchanged |
| LoopTheorems.PostQueueIsFifo | include/socketpp/event/loop.hpp:158-277 | the two buffers are one FIFO; each callback runs once, in the drain after the first swap that follows its push |
| LoopTheorems.NoLostWake | include/socketpp/event/loop.hpp:158-165 | a polling loop with pending callbacks has a wake on its way |
| LoopTheorems.NoLostStop | src/high/dgram.cpp:635-663 | after a posted stop a polling loop has a wake on its way, whatever came first |
| LoopTheorems.StopTakesEffect | include/socketpp/event/loop.hpp:87-131 | once a stop callback is posted, or stop is called after run cleared the flag, the loop's steps are bounded by a rank plus the number of later posts |
| LoopTheorems.LoopNeverStuck | include/socketpp/event/loop.hpp:87-131 | and in every continuation the loop has a step to take until it has left run |
| LoopTheorems.ReturnsIffStopping | include/socketpp/event/loop.hpp:87-131 | from any reachable state run is sure to return exactly if a stop callback is posted, or stop was called after run cleared the flag, or it has returned; otherwise some continuation blocks in poll with no wake on its way |
| LoopTheorems.DirectStopReturnsIff | include/socketpp/event/loop.hpp:87-131 | a direct stop of a loop that nothing else stops makes run return exactly if run has cleared the flag before it |
| LoopTheorems.LoneEarlyStopIsLost | include/socketpp/event/loop.hpp:87-131 | a run in which an early direct stop is lost and poll blocks |
| LoopTheorems.WakesForEach | include/socketpp/event/loop.hpp:118-165 | every post and stop of another thread wakes the dispatcher once |
| LoopTheorems.BlockedUntilRoused | include/socketpp/event/loop.hpp:87-103 | a loop that waits in poll stays as it is until another thread posts or stops it, a socket or timer is ready, or poll fails |
| LoopTheorems.TokenEndsPoll | include/socketpp/event/loop.hpp:87-103 | a poll with its token set returns |
| LoopProtocol.StepInv | include/socketpp/event/loop.hpp:87-277 | every step keeps the FIFO refinement, drain stamps, wakes and the posted stop |
| EventLoop.EventLoop.PushPosted | include/socketpp/event/loop.hpp:158-165 | appends to the active buffer, wake still owed |
| EventLoop.EventLoop.SwapBuffers | include/socketpp/event/loop.hpp:265-269 | exchanges the buffers and nothing else |
| EventLoop.EventLoop.DrainPosts | include/socketpp/event/loop.hpp:265-277 | a drain is a run of the protocol that calls what was swapped in, in order, and empties the buffer, whatever the callbacks and other threads post meanwhile |
| EventLoop.EventLoop.EndPoll | include/socketpp/event/loop.hpp:96-99 | poll ends well exactly if it does not fail and the token is set or a socket or timer is ready |
| EventLoop.EventLoop.Trip | include/socketpp/event/loop.hpp:92-100 | a trip goes round again exactly if the stop flag is not seen at the loop head, poll does not fail and something is ready; its steps are the test, the drain, the poll and the events, with the others' actions in between |
| EventLoop.EventLoop.Run | include/socketpp/event/loop.hpp:87-103 | run clears the flag and makes trips as long as they go on; it leaves with the first that does not |
| EventLoop.EveryRoundMade | include/socketpp/event/loop.hpp:87-103 | if nobody stops the loop, no poll fails and something is ready in each, every round is made |
| LoopConnection.OutputOnItsWay | src/high/connection_engine.hpp:300-338 | in every run of senders, users, the loop and the dispatcher, output pending on a started open connection has write interest, or the loop is inside that connection's callback, or a start or register task is queued in a loop that is not blocked |
| LoopConnection.PartsRun | src/high/connection_engine.hpp:143-382 | the composed run is a run of the connection protocol and a run of the loop protocol |
| LoopConnection.ExecCoupled | include/socketpp/event/loop.hpp:158-277 | in every run the connection's posted tasks are its callbacks among those pending in the loop, in order, and both invariants hold |
| DgramRouting.LoadSeesOriginal | src/high/dgram.cpp:205-319 | a load during or after a batch sees an open claim exactly if the map before the batch has it, although entries of closed peers are erased on the way |
| DgramRouting.RouteAllParent | src/high/dgram.cpp:205-319 | with flags cleared at any moment, the socket's handler gets exactly the datagrams that were not claimed by an open peer at their lookup, in order |
| DgramRouting.RouteConcat | src/high/dgram.cpp:166-324 | routing two batches in turn is routing them as one |
| DgramRouting.SecondLookups | src/high/dgram.cpp:244-276 | with the map the first pass left and its own loads, the second pass selects what the original map would |
| DgramRouting.SecondPassIff | src/high/dgram.cpp:205-276 | the second pass selects precisely the datagrams the first counted if no peer was relinquished between the two loads for one of its datagrams, and strictly more messages otherwise |
| DgramRouting.SecondPassOverruns | src/high/dgram.cpp:205-276 | a batch of two datagrams of one peer for which the second pass selects more than the first counted |
| DgramPaths.SinglePath | src/high/dgram.cpp:278-319 | the per-datagram loop is the routing function |
| DgramPaths.FirstPass | src/high/dgram.cpp:205-242 | delivers to peers and counts the bytes and messages left over |
| DgramPaths.SecondPass | src/high/dgram.cpp:244-276 | stays inside the buffer and the message array exactly if what it selects fits the sizes it was given, and then the buffer is the concatenation of the selected datagrams and each message its exact slice |
| DgramPaths.BatchPath | src/high/dgram.cpp:200-277 | the two-pass path stays inside what it allocated exactly if it has nothing to hand over or no peer was relinquished between the two loads for one of its datagrams; then it hands over what the simple path does |
| DgramReceive.RecvBatch | src/socket/udp.cpp:360-376 | each entry gets the next datagram's sender and its bytes, up to the buffer's size; an error only if there was none |
| DgramReceive.HandleReadable | src/high/dgram.cpp:166-324 | one wake-up takes exactly the first eight batches and routes them in order by either kind of callback and by the flags each lookup saw, cut to the buffers and whole if they fit; an error is reported exactly if the socket ran empty on a batch boundary; it stays inside its buffers exactly if it has no batch callback or in every round the two passes agree |
| DgramTheorems.OneOpenPeerPerAddress | src/high/dgram.cpp:528-581 | in every run two open peers have different addresses |
| DgramTheorems.EveryDatagramAccounted | src/high/dgram.cpp:166-324 | the datagrams received in a run each have exactly one destination, but for one being held; handler and peers got exactly those destined for them, in order, and a peer only its own address's |
| DgramTheorems.LookupFindsOwner | src/high/dgram.cpp:280-318 | in any reachable state a datagram goes to the handler exactly if no open peer has its sender's address, and is otherwise held for the one that has |
| DgramTheorems.DroppedIff | src/high/dgram_peer_impl.hpp:101-108 | a datagram reaches neither peer nor handler exactly if its peer was open at the lookup and, when it was handed over, was closed or had no data callback |
| DgramTheorems.RaceDrops | src/high/dgram_peer_impl.hpp:101-108 | a run in which the owner relinquishes between the two loads and the datagram is dropped |
| DgramTheorems.NoCallbackDrops | src/high/dgram_peer_impl.hpp:101-108 | a run in which a peer without a data callback loses its datagram |
| DgramTheorems.LookupIsRouteOne | src/high/dgram.cpp:278-319 | the lookup step is one step of the routing function |
| DgramTheorems.WakeUpIsRouting | src/high/dgram.cpp:166-324 | a whole wake-up, with relinquishing threads at every point, is the routing function applied to the flags its lookups saw |
| DgramClaims.StepInv | src/high/dgram.cpp:166-324 | every step of the loop thread and of peer owners keeps the map, the records and the held datagram right |
| DgramTheorems.StaleUntilFreed | src/high/dgram.cpp:528-619 | after a peer's owner relinquished it, no claim of the address succeeds at any point of a run exactly until a datagram from it is looked up or the socket relinquishes it or everything |
| DgramTheorems.RelinquishLeavesStale | src/high/dgram_peer_impl.hpp:287-304 | relinquishing a peer leaves such an entry, and no open peer of its address |
| DgramHistory.EntryIff | src/high/dgram.cpp:528-619 | an address has an entry exactly if it was claimed and since then neither relinquished by the socket nor sent a datagram without an open peer |
| DgramHistory.OwnersAreClaims | src/high/dgram.cpp:528-581 | the peers are those of the claims of addresses that were not taken, in order |
| DgramHistory.OpenIff | src/high/dgram.cpp:585-663 | a peer is open exactly from its claim until its owner relinquishes it or the socket relinquishes its address or everything |
| DgramHistory.CallbackIff | src/high/dgram_peer.cpp:66-70 | a peer has a data callback exactly if the last call that set it gave one |
| DgramSocket.DgramSocket.RelinquishEverything | src/high/dgram.cpp:649-656 | closes every peer in the map and clears it |
| DgramSocket.DgramSocket.TryClaim | src/high/dgram.cpp:528-581 | the answer and the new claim |
| DgramSocket.DgramSocket.ClosePeerFlag | src/high/dgram_peer_impl.hpp:287-304 | clears the peer's flag, leaves the map |
| DgramSocket.DgramSocket.RelinquishAddress | src/high/dgram.cpp:585-619 | removes the entry and closes the peer |
| DgramSocket.DgramSocket.SetCallback | src/high/dgram_peer.cpp:66-70 | sets or clears the peer's callback, at any moment |
| DgramSocket.DgramSocket.LookUpSender | src/high/dgram.cpp:280-303 | holds the datagram for an open peer, or drops a stale claim and hands to the socket |
| DgramSocket.DgramSocket.DeliverData | src/high/dgram_peer_impl.hpp:101-108 | delivers exactly if the flag is still set and there is a callback |
| DgramSocket.DgramSocket.HandDatagram | src/high/dgram.cpp:280-318 | the lookup and, exactly if it finds an open peer to deliver to, other threads' actions and the delivery |
| IocpTheorems.PendingIffInFlight | src/event/iocp.cpp:754-874 | a pending flag is set exactly while its operation is in flight, never two at once |
| IocpTheorems.InterestIsWatched | src/event/iocp.cpp:146-278 | between polls every interest is backed by operations in flight, four slots for a datagram socket |
| IocpTheorems.DatagramsInOrder | src/event/iocp.cpp:381-437 | the datagrams the kernel completed on a socket are, in completion order, those retrieved, those buffered, those dequeued by poll and those still queued in the port |
| IocpTheorems.NotifiedOnce | src/event/iocp.cpp:346-500 | one poll runs the callback of a datagram socket at most once |
| IocpHistory.SocketIsAsked | src/event/iocp.cpp:146-296 | the dispatcher tracks exactly the sockets added and not removed since, with the interest last asked for |
| IocpHistory.CompletionsInOrder | src/event/iocp.cpp:298-503 | polls handle every completion once and in the order in which the kernel queued them |
| IocpHistory.StreamCalledIff | src/event/iocp.cpp:439-477 | a completion runs its socket's callback exactly if that is a tracked stream socket |
| IocpHistory.CallbacksExact | src/event/iocp.cpp:439-503 | the callbacks run are exactly those, in order, told readable for a finished read or a buffered datagram, writable for a finished write, and peer shutdown for a read of nothing |
| IocpHistory.OneTurnEach | src/event/iocp.cpp:381-500 | a datagram socket gets one turn in a poll exactly if a receive slot of it is handled in that poll |
| IocpHistory.TurnCallsIff | src/event/iocp.cpp:480-500 | the turn runs the callback exactly if the socket is still tracked, interested in reading and has a datagram buffered |
| IocpHistory.PollEnds | src/event/iocp.cpp:298-503 | a poll has a bounded number of steps left, whatever its callbacks and the kernel do, and one to take until it is over |
| IocpInvariant.StepInv | src/event/iocp.cpp:146-500 | every step keeps all of these |
| IocpDispatcher.Dispatcher.ArmOperation | src/event/iocp.cpp:754-874 | issues the operation unless it is pending |
| IocpDispatcher.Dispatcher.AddSocket | src/event/iocp.cpp:146-231 | records the socket and arms what its interest needs |
| IocpDispatcher.Dispatcher.ModifyInterest | src/event/iocp.cpp:233-278 | arms what the new interest adds |
| IocpDispatcher.Dispatcher.RemoveSocket | src/event/iocp.cpp:280-296 | forgets the socket |
| IocpDispatcher.Dispatcher.RetrieveDgram | src/event/iocp.cpp:879-893 | takes the oldest buffered datagram, or would block |
| IocpDispatcher.Dispatcher.SlotCompleted | src/event/iocp.cpp:381-437 | buffers a datagram, re-arms the slot, notes the socket once |
| IocpDispatcher.Dispatcher.AfterCallback | src/event/iocp.cpp:464-477 | re-arms by the interest the callback left, if the socket is still there |
| IocpDispatcher.Dispatcher.TryAdd | src/event/iocp.cpp:146-231 | adds a descriptor of which nothing is left of an earlier registration |
| IocpDispatcher.Dispatcher.Poll | src/event/iocp.cpp:298-503 | a poll goes through exactly the dequeued completions and then the noted sockets, each with its callback's actions and the re-arming, whatever sockets these add, modify, remove or read |
| Kqueue.ModifyEffect | src/event/kqueue.cpp:105-151 | the change list of modify is accepted and replaces the mask |
| Kqueue.OnlyDifferences | src/event/kqueue.cpp:105-151 | each addition in it is of a filter that is not registered, each deletion of one that is |
| Kqueue.RemoveEffect | src/event/kqueue.cpp:153-186 | the change list of remove is accepted and leaves nothing |
| Kqueue.AddAgreesIff | src/event/kqueue.cpp:92-103 | add leaves kernel and record in agreement exactly if the descriptor had no interest that the new mask lacks |
| Kqueue.Dispatcher.AddSocket | src/event/kqueue.cpp:347-371 | the same of the method |
| Kqueue.Dispatcher.ModifyInterest | src/event/kqueue.cpp:105-151 | kernel and record agree on the new mask |
| Kqueue.Dispatcher.RemoveSocket | src/event/kqueue.cpp:153-186 | kernel and record forget the descriptor |
| Kqueue.RunCalls | src/event/kqueue.cpp:92-186 | any list of calls that adds untracked descriptors leaves the kernel with exactly the masks that plain replacement gives |
| Kqueue.AnyCallsCovered | src/event/kqueue.cpp:92-186 | whatever is called on whatever descriptors, tracked or not, the kernel accepts every change and watches at least the masks last asked for |
| TimerTheorems.OneShotFiresOnce | src/event/iocp.cpp:656-681 | in every run a one-shot runs at most once and a timer is given back at most once |
| TimerTheorems.OneShotNotLost | src/event/kqueue.cpp:219-233 | a one-shot in the table has not expired, or is queued, or is running |
| TimerTheorems.GoneForever | src/event/iocp.cpp:510-565 | an identifier that left the table never returns and its callback never runs again |
| TimerTheorems.NothingAfterCancel | src/event/iocp.cpp:546-565 | nothing runs after a cancellation, not even an expiration already queued |
| TimerTheorems.StaleHandleIsHarmless | include/socketpp/event/timer.hpp:111-124 | a handle whose timer is over cancels nothing, however late |
| TimerTheorems.OwnersAreSeparate | include/socketpp/event/timer.hpp:75-138 | cancelling, destroying, releasing, moving or overwriting other handles leaves a handle and its timer as they were |
| TimerTheorems.MoveTransfers | include/socketpp/event/timer.hpp:80-99 | a move keeps the timer, under the other handle alone, and cancels what that handle held |
| TimerTheorems.AllReleasedAtClose | src/event/iocp.cpp:126-140 | after the destructor every timer ever made was given back exactly once |
| TimerHistory.EntryIff | src/event/iocp.cpp:510-681 | the table holds exactly the timers made and since then neither cancelled nor, if one-shots, spent |
| TimerHistory.RepeatsUntilCancelled | src/event/iocp.cpp:656-681 | a repeating timer stays in the table and armed until it is cancelled, however often it runs |
| TimerHistory.CallbacksExact | src/event/kqueue.cpp:219-233 | expirations are looked up once each and in order, and the callbacks run are those whose timer lives at the look-up |
| TimerHistory.ScheduleGives | src/event/iocp.cpp:510-544 | a schedule gives its handle a new armed timer of the asked kind, or 0 |
| TimerHistory.IdentifiersCount | src/event/iocp.cpp:510-544 | identifiers are counted from 1, one for every schedule |
| TimerHistory.HandlesFollow | include/socketpp/event/timer.hpp:75-138 | a cancelled or released handle is empty, a move gives its timer to the other handle, and nothing else changes what a handle holds |
| TimerHistory.ReleaseKeepsTimer | include/socketpp/event/timer.hpp:132-138 | release gives up the handle and leaves the timer |
| TimerProtocol.StepInv | src/event/kqueue.cpp:219-324 | every step keeps these |
| TimerService.Service.ScheduleTimer | src/event/iocp.cpp:510-544 | the identifier is new, or 0 if the timer could not be made |
| TimerService.Service.CancelTimer | src/event/kqueue.cpp:313-324 | the timer leaves the table and cannot expire; an unknown one is ignored |
| TimerService.Service.CancelHandle | include/socketpp/event/timer.hpp:116-124 | cancels and empties the handle |
| TimerService.Service.ReleaseHandle | include/socketpp/event/timer.hpp:132-138 | returns the identifier and keeps the timer |
| TimerService.Service.MoveHandle | include/socketpp/event/timer.hpp:87-99 | cancels the target's timer and transfers, unless it is the same handle |
| TimerService.Service.BeginCallback | src/event/iocp.cpp:656-673 | looks the expiration up and starts it, or drops it |
| TimerService.Service.FinishCallback | src/event/iocp.cpp:673-681 | gives a one-shot back |
| TimerService.Service.CloseAll | src/event/iocp.cpp:126-140 | the destructor's loop gives every timer back once |
| SmallVector.RunAll | include/socketpp/socket/options.hpp:83-269 | any program of constructions, pushes, copies, moves, assignments and destructions over any vectors, inline or spilled, computes what it computes on plain sequences |
| SmallVector.RunDestroy | include/socketpp/socket/options.hpp:88-91 | a destroyed vector leaves nothing constructed and the others untouched |
| SmallVector.Vector.PushBack | include/socketpp/socket/options.hpp:175-191 | appends; spills exactly when the inline slots are full |
| SmallVector.Vector.Spill | include/socketpp/socket/options.hpp:257-268 | the contents stay, and every inline slot is destroyed |
| SmallVector.Vector.Clear | include/socketpp/socket/options.hpp:242-255 | empties and destroys exactly the slots in use |
| SmallVector.Vector.Finish | include/socketpp/socket/options.hpp:88-91 | the destructor leaves nothing constructed |
| SmallVector.Vector.Copy | include/socketpp/socket/options.hpp:93-104 | equal contents, the other unchanged |
| SmallVector.Vector.Move | include/socketpp/socket/options.hpp:128-145 | takes the contents, leaves the other empty and nothing constructed in it |
| SmallVector.Vector.Assign | include/socketpp/socket/options.hpp:106-126 | equal contents, also when assigned to itself |
| SmallVector.Vector.MoveAssign | include/socketpp/socket/options.hpp:147-173 | takes the contents and empties the other, or nothing when assigned to itself |
| SmallVector.Vector.ToSeq | include/socketpp/socket/options.hpp:203-211 | iteration yields the contents |
| AcceptLoop.BackOffLaw | src/socket/tcp_accept_loop.cpp:50-88 | in every run the handler calls and the delays are those the answers of accept determine; at most one timer is outstanding, and none while the listener is watched |
| AcceptLoop.TimerWatches | src/socket/tcp_accept_loop.cpp:74-78 | in every run a timer that fires has the listener watched again and is used up |
| AcceptLoop.StrandsIff | src/socket/tcp_accept_loop.cpp:65-82 | a step leaves the listener unwatched without a timer exactly if it is a readable event whose last answer is the descriptor limit and the timer could not be made |
| AcceptLoop.StrandedIff | src/socket/tcp_accept_loop.cpp:65-82 | a run leaves it so exactly if at some point that happened; otherwise the listener is unwatched exactly while one timer is outstanding |
| AcceptLoop.StrandedForever | src/socket/tcp_accept_loop.cpp:65-82 | from there no continuation watches the listener, takes an answer or calls the handler |
| AcceptLoop.ListenerLost | src/socket/tcp_accept_loop.cpp:65-82 | a first event that does this, whatever follows |
| AcceptLoop.Acceptor.OnEvent | src/socket/tcp_accept_loop.cpp:50-88 | the state is that of the protocol's event step, whether or not a timer could be made |
| AcceptLoop.Acceptor.StopWatching | src/socket/tcp_accept_loop.cpp:65-82 | stops watching, asks for one timer with the current delay and tells the handler |
| AcceptLoop.Acceptor.WatchAgain | src/socket/tcp_accept_loop.cpp:74-78 | the timer is used up and the listener watched |
| AcceptLoop.StreakSinceSuccess | src/socket/tcp_accept_loop.cpp:65-88 | the delay depends on the number of descriptor-limit errors since the last connection |
| AcceptLoop.DelayGrowsToCap | src/socket/tcp_accept_loop.cpp:71-72 | delays never shrink and are 5000 ms exactly from the seventh error on |
| DnsName.EncodeDnsName | examples/udp_dns_query.cpp:46-60 | the result is the encoding of the name's labels |
| DnsName.LabelsOfJoin | examples/udp_dns_query.cpp:46-60 | splitting joined labels gives them back exactly if the last is not empty |
| DnsName.JoinOfLabels | examples/udp_dns_query.cpp:46-60 | joining the split name loses a final dot and nothing else |
| DnsName.SkipDnsName | examples/udp_dns_query.cpp:108-129 | ends at most 191 bytes past the packet, on any input |
| DnsName.SkipLandsAfterIff | examples/udp_dns_query.cpp:108-129 | skipping an encoded name anywhere in a packet whose labels' length bytes tell what happens (no label of 256 bytes or more has a length byte of 1 to 191) lands exactly after it if and only if every label has 1 to 191 bytes |
| DnsName.LongLabelIsRead | examples/udp_dns_query.cpp:46-129 | a label of 256 bytes or more whose length byte is 1 to 191 sends the skip into its own payload |
| DnsMessage.BuildDnsQuery | examples/udp_dns_query.cpp:63-100 | the twelve header bytes, the encoded name, and type A, class IN |
| DnsTheorems.QueryReadsBack | examples/udp_dns_query.cpp:63-100 | a built query reads back: identifier, recursion desired, one question, no records, and the labels exactly if each has 1 to 255 bytes |
| DnsTheorems.LabelsReadBackIff | examples/udp_dns_query.cpp:46-60 | encoded labels read back as they were exactly if every length fits a byte and is not zero |
| DnsMessage.QuerySkipsToType | examples/udp_dns_query.cpp:63-129 | skipping the name of a built query lands on its type, with only type and class after it, exactly if every label has 1 to 191 bytes; under the same restriction on its labels |
| DnsMessage.ParseDnsResponse | examples/udp_dns_query.cpp:140-208 | the loops compute the parse that the theorems are about; nothing is returned of a short packet, another identifier or an error code |
| DnsTheorems.ParseOfResponse | examples/udp_dns_query.cpp:140-208 | parsing any encoded response gives exactly its answers, with compressed names, several questions and trailing sections |
| DnsTheorems.AnswersAreSlices | examples/udp_dns_query.cpp:173-205 | on any input the answers' data are disjoint increasing slices of the packet |
| DnsTheorems.TruncationGivesPrefix | examples/udp_dns_query.cpp:140-208 | a response cut short gives a prefix of the whole one's answers |

## Left out

- Socket creation, address conversion, socket options and the other thin wrappers of system calls.
- Byte layouts of system structures, and integer widths of sizes and timer identifiers.
- Memory order: sections under a lock and single atomic operations are atomic and seen by all.
- Fairness of the spin lock and of the scheduler; liveness is stated as bounds on steps.
- The connection map of the stream server, its limits, and pausing of its listener.
- Callbacks posted after a stop; run may leave without calling them.
- The epoll dispatcher, and its timers, which are descriptors of the kernel.
- Listeners, accept polling and immediate failures of overlapped calls in the IOCP dispatcher.
- IocpDispatcher.Dispatcher.AddSocket: a descriptor is not added again while completions of an earlier registration are outstanding, because the source tells those by the addresses of their overlapped structures, which the model does not have.
- IocpDispatcher.Dispatcher.TryAdd: passes over such an add, for the same reason.
- Prompt delivery of datagrams that the IOCP dispatcher buffered while reading was off.
- The receive path of a peer with its own connected socket, and the UDP multiplexer.
- What a write past the end of the batch buffers does: the model stops there.
- DgramReceive.HandleReadable: one of the two data callbacks is set, since with neither the batch is discarded; `reported` says that there is an error to report, which the source does only if an error callback is set.
- The translation of kernel events into readiness masks in the kqueue dispatcher's poll.
- Kernel calls of the kqueue dispatcher that fail for reasons other than a missing filter.
- TimerService.Service.CancelTimer: is not called on kqueue by the callback of the timer it cancels, because the source keeps an iterator to that entry across the callback and the model looks the table up by identifier.
- TimerService.Service.CancelHandle: the same holds of the handle of that timer.
- TimerService.Service.MoveHandle: and of moving another handle over it.
- Asynchronous connect and receive helpers, which add no invariant of their own.
- DnsName.SkipLandsAfterIff: a label of 256 bytes or more whose length byte is 1 to 191 is not covered, because the outcome depends on its payload; LongLabelIsRead says where the skip goes on.
- DnsMessage.QuerySkipsToType: the same labels are not covered, for the same reason.
- DnsName.EncodeDnsName: the name is a sequence of bytes; characters outside that range do not occur.
- TcpConnection.Connection.StartReading: is called once per connection, by the code that accepts or connects it; a second call is not modelled.
- SmallVector.Vector.MoveAssign: a heap vector that was moved from is taken to be empty, which the C++ standard only promises for construction.
