# libxv: a verified model

libxv is an event-loop and TCP-service library. This project models its core in Dafny and
proves what its threads, buffers, tables and connections keep over every run.

| file | part of the system |
|---|---|
| `ByteBuffer.dfy` | the growable, compacting byte buffer: operations on views, class `Buffer` over an array, byte-queue refinement, exact capacity bound |
| `LinkedQueue.dfy` | the linked queue, with the uninitialised `next` field of the tail as an arbitrary value |
| `EventLoop.dfy` | watchers, the loop's table, the kernel's interest set, dispatch of a fired batch |
| `Mailbox.dfy` | the cross-thread mailbox as a state machine: producers, eventfd, drain loop, start flag |
| `WorkerThread.dfy` | the worker's code, statement by statement, under arbitrary interference, as runs of the mailbox |
| `WorkerPool.dfy` | several mailboxes and the routing of work to them |
| `Connection.dfy` | the callbacks of one connection: byte streams in both directions, write interest, reference counts, reclamation |
| `Service.dfy` | the connection table and the callbacks in place, without a worker pool |
| `ServiceFlow.dfy` | io threads with their two eventfds, the pool, connections and messages between them, closing and freeing: all interleavings, and where everything is |
| `FlowWakeups.dfy` | no lost wakeup for the queues of the io threads and the workers |
| `FlowOrder.dfy` | conservation and order of messages |
| `FlowOwnership.dfy` | which io thread owns which connection |
| `FlowLifetime.dfy` | reference counts across threads, and the closes after which freed memory is used |
| `FlowHistory.dfy` | the histories of a service against the steps taken; which steps close, free and reclaim |
| `FlowProgress.dfy` | whole runs of a service: safety, termination of the threads' own work, its outcome |

How the parts fit: `Worker` uses `Queue`, and its executions are runs of `Mailbox`; `Service` runs
the callbacks of `Connection`, whose buffers are the views that `Buffer` implements. The mutex of
the concurrent queue makes each push, pop and size query one atomic step; flags are
sequentially consistent because of the barriers in the code. Results of `read`, `write`,
`accept`, `epoll_wait`, what user callbacks do, and the steps of other threads are arguments, so
every theorem holds for all of them. `decode` may only consume from the read buffer and `encode`
may only append to the write buffer, by any sequence of buffer operations. `ServiceFlow` takes
the callbacks of a connection as single steps of its io thread.

## Results that differ from what one might expect

- Buffer growth: with at most C unread bytes at each growth check and requests of at most V, the
  capacity never exceeds max(initial, 2047 + C + 2V, 2C + 3V - 2), and for every C, V >= 1 some
  run reaches that growth bound exactly. For a connection's read buffer it is 2C + 12286.
- Clearing the start flag without the signal that `xv_worker_thread_destroy` sends can leave a
  worker asleep for good (`Mailbox.StopAloneCanStrandWorker`); it exits exactly when it was not
  parked in the loop with a zero counter (`Mailbox.WorkerExits`).
- Work pushed and signalled before the stop can be left unrun
  (`Mailbox.TaskBeforeStopCanBeLost`). If the flag is cleared while the worker is about to read it,
  nothing more is run; otherwise everything pushed by then is, whatever the interleaving and
  whatever is pushed meanwhile (`Mailbox.StopLosesExactly`).
- An error or hang-up alone on a descriptor watched for reading only is turned into WRITE and
  reaches nobody; no other report on a registered descriptor goes unheard
  (`EventLoop.UnheardReports`).
- Without a pool, a close that comes from writing a reply is deferred by the message's own
  reference and never taken up again, so the connection, its descriptor and its table entry are
  kept for good (`Connection.SyncLeakRun`, `Connection.DeferredCloseLeaks`). A close reclaims exactly
  when it does not come from a reply and leaves the user no reference (`Connection.SyncLifetime`).
- `decode` is called once per read, so of two complete requests in one read the second waits until
  a read brings more bytes (`Connection.LeftoverWaits`, `Connection.SecondRequestWaits`).
- Every message that returns to a closed connection frees it, without the reference check, the
  table removal or the close of the descriptor that `xv_connection_close` performs. A connection is
  freed at most once exactly when its close leaves behind at most one of messages and senders past
  their status test, and none where it reclaims (`Connection.FreedAtMostOnce`,
  `Connection.PooledExactly`, `Connection.PooledDanglingRun`, `Connection.SenderFreesAgain`).
- `xv_service_send_message` tests the status before it takes its reference. Across threads, some
  thread comes to use a freed connection if and only if a connection was closed early: with two or
  more messages outstanding and senders in that window, or with one such sender where nothing else
  refers to the connection. Without such a close every message goes home, and all work ends with
  every message destroyed (`FlowProgress.FaultsExactly`, `FlowProgress.WorkGetsDone`,
  `FlowProgress.SenderCloseRun`). A caller keeps senders out of the window by a mutex shared by
  sending and on_disconnect, as tests/xv_service_room_test.c does.
- `xv_service_send_message` on a connection that was accepted and not yet adopted by its io thread,
  as from another thread once on_connect has published it, finds a NULL `io_thread`
  (`FlowProgress.NullExactly`, `FlowProgress.HomelessRun`).
- A hold of the user does not keep a closed connection: one message or sender left behind frees it
  all the same (`FlowProgress.HeldFreedExactly`, `FlowProgress.HoldLostRun`).
- `process_read_buffer` passes the comparison `address > 16`, not a shift, as hash code. All
  requests of a service therefore go to worker 1 % n, which makes them run in one global order
  and keeps the responses of each connection in request order (`WorkerPool.ServiceTotalOrder`,
  `FlowProgress.RequestsStayInOrder`).
- The mirror between the loop's table and the kernel, and dispatch safety, hold even when two
  watchers compete for a slot; only the success of `xv_io_stop` needs one watcher per descriptor
  and direction (`EventLoop.Loop.IoStop`).

## Model

| member | source | states |
|---|---|---|
| `ByteBuffer.RefinesByteQueue` | src/xv_buffer.c:47-132 | every run of the buffer, through growth, reset and compaction, leaves the same unread bytes and hands out the same bytes as a plain byte queue without capacity or indices, and keeps 0 <= read_idx <= write_idx <= size |
| `ByteBuffer.Taken` | src/xv_buffer.c:97-122 | the reference queue gives a read as many bytes as it asks for, or all there are, and nothing to a write |
| `ByteBuffer.BytesConserved` | src/xv_buffer.c:97-132 | over every run, initial content followed by bytes written equals bytes removed followed by bytes unread |
| `ByteBuffer.StepKeepsShape` | src/xv_buffer.c:47-63 | each operation keeps the index order and read_idx <= max(size/2, 2048), and never shrinks the buffer |
| `ByteBuffer.GrowthStaysUnderCeiling` | src/xv_buffer.c:75-85 | a step that grows the buffer ends at or below the ceiling for the unread bytes and the request seen at its check |
| `ByteBuffer.CapacityBound` | src/xv_buffer.c:75-85 | over every run with at most C unread bytes and requests of at most V at each growth check, size <= max(initial, 2047 + C + 2V, 2C + 3V - 2) |
| `ByteBuffer.GrowthFits` | src/xv_buffer.c:77-84 | when that bound is within an int limit, so are size and every size + valid_size the code computes |
| `ByteBuffer.CapacityBoundAttained` | src/xv_buffer.c:54-84 | for every C, V >= 1 a legal run from a smaller buffer ends exactly at the growth bound, so it cannot be improved |
| `ByteBuffer.Buffer.constructor` | src/xv_buffer.c:24-33 | a new buffer is empty with the given capacity |
| `ByteBuffer.Buffer.Clear` | src/xv_buffer.c:41-45 | drops all unread bytes and keeps the capacity |
| `ByteBuffer.Buffer.TryMove` | src/xv_buffer.c:47-63 | the read index goes back to 0 exactly when the buffer is empty or the dead prefix exceeds half the size and 2048; the unread bytes are unchanged |
| `ByteBuffer.Buffer.ReadableSize` | src/xv_buffer.c:65-68 | the number of unread bytes |
| `ByteBuffer.Buffer.WriteableSize` | src/xv_buffer.c:70-73 | the room after the write index |
| `ByteBuffer.Buffer.EnsureWriteableSize` | src/xv_buffer.c:75-85 | afterwards the requested room is there, content is kept, and size grew by the request exactly when room was missing |
| `ByteBuffer.Buffer.Store` | src/xv_buffer.c:92-95 | bytes stored through the write address change nothing observable until the write index moves |
| `ByteBuffer.Buffer.IncrReadIndex` | src/xv_buffer.c:97-102 | consumes n bytes from the front, then compacts |
| `ByteBuffer.Buffer.IncrWriteIndex` | src/xv_buffer.c:104-108 | appends the n bytes found at the write address |
| `ByteBuffer.Buffer.ReadData` | src/xv_buffer.c:110-122 | the bytes returned followed by the unread ones are the former unread bytes; at most len are returned, and fewer only when nothing is left |
| `ByteBuffer.Buffer.WriteData` | src/xv_buffer.c:124-132 | appends exactly the given bytes, growing when needed |
| `LinkedQueue.Queue.Push` | src/xv_queue.c:56-67 | appends one element to the contents, whatever value the new tail's next field holds |
| `LinkedQueue.Queue.Pop` | src/xv_queue.c:69-86 | removes and returns the oldest element; an empty queue returns nothing and stays empty |
| `LinkedQueue.Queue.Size` | src/xv_queue.c:88-91 | the number of elements pushed and not popped |
| `LinkedQueue.Queue.constructor` | src/xv_queue.c:33-40 | a new queue is empty |
| `EventLoop.MaskRoundTrip` | src/xv_epoll.c:69-92 | the mask registered with the kernel translates back to itself; hang-up and error bits add the write direction only |
| `EventLoop.ToEpoll` | src/xv_epoll.c:76-83 | EPOLLIN is registered exactly for READ, EPOLLOUT exactly for WRITE, and nothing else |
| `EventLoop.FromEpoll` | src/xv_epoll.c:131-144 | READ exactly for EPOLLIN, WRITE exactly for EPOLLOUT, EPOLLHUP or EPOLLERR, and nothing else |
| `EventLoop.Epoll.Ctl` | src/xv_epoll.c:85-91 | the kernel accepts ADD exactly for an unregistered and MOD or DEL exactly for a registered descriptor, and changes only that one |
| `EventLoop.Epoll.AddEvent` | src/xv_epoll.c:94-105 | the operation chosen from a true cached mask is always legal and the registration becomes old mask plus event |
| `EventLoop.Epoll.DelEvent` | src/xv_epoll.c:107-119 | refused exactly when nothing was registered; the registration becomes old mask minus event |
| `EventLoop.Epoll.Poll` | src/xv_epoll.c:121-153 | one fired entry per reported one, in order and for its descriptor; readable exactly for input, writable exactly for output, hang-up or error |
| `EventLoop.Loop.IoStart` | src/xv.c:143-173 | keeps the table equal to the interest set, bits equal to pointers and slots pointing to started watchers only; registers exactly when the watcher was stopped and its event valid, and sets start even when the event is invalid |
| `EventLoop.Loop.IoStop` | src/xv.c:175-198 | keeps the same; succeeds exactly when the watcher was started, valid, in range and its entry not empty, hence always under one watcher per descriptor and direction |
| `EventLoop.Loop.IoDestroy` | src/xv.c:258-269 | frees exactly a stopped watcher, so no slot ever reaches a freed one |
| `EventLoop.Loop.NewIo` | src/xv.c:219-233 | a new watcher is stopped and in no slot |
| `EventLoop.Loop.RunCallback` | src/xv.c:219-269 | any sequence of create, start, stop and destroy calls by a callback, on watchers it makes or finds, keeps the table true and leaves it as these calls, one after the other, make it |
| `EventLoop.Loop.Fire` | src/xv.c:79-90 | the watcher called is the one in the slot at that moment, started, not freed, of that descriptor and direction, and its callback is run in full; there is none exactly when the cached mask lacks the direction |
| `EventLoop.Loop.FireEntry` | src/xv.c:76-91 | one entry dispatches its fired directions, read before write, re-reading the slot in between; undisturbed, it calls the read and then the write watcher of its slot where fired |
| `EventLoop.Loop.Poll` | src/xv.c:73-92 | for anything epoll_wait reports and any callbacks, also ones that create and start watchers, each report in turn looks up the read watcher of its descriptor for EPOLLIN, then the write watcher for EPOLLOUT, EPOLLHUP or EPOLLERR, and every watcher called is live at its call; callbacks that leave the loop alone see exactly these watchers called, in this order |
| `EventLoop.UnheardReports` | src/xv_epoll.c:132-144 | a report on a registered descriptor calls no watcher if and only if it is an error or hang-up alone and the descriptor is watched for reading only |
| `Mailbox.NoLostWakeup` | src/xv_th_pool.c:39-58 | in every reachable state a non-empty queue has a positive counter, a producer between push and send, or a worker that has not yet seen the queue empty, also when eventfd writes fail on a full counter |
| `Mailbox.PushedExactly` | src/xv_th_pool.c:140-151 | over every run the tasks pushed are those of the push steps taken, in order: none is dropped or changed |
| `Mailbox.ExactlyOnceInOrder` | src/xv_th_pool.c:44-53 | in every reachable state the tasks of the push steps are those popped followed by those queued, what ran is what was popped and left the hand and has a callback, in push order, and a pop after a positive size check is never empty |
| `Mailbox.BlockedMeansDone` | src/xv_th_pool.c:44-58 | a worker asleep while no producer is mid-way has run every task of the push steps, in order |
| `Mailbox.StopHandshake` | src/xv_th_pool.c:86-96 | after stop and its signal the worker is gone, leaving, has yet to read the cleared flag, or has a wakeup waiting |
| `Mailbox.ExitAccounting` | src/xv_th_pool.c:54-70 | at exit the tasks of the push steps are those popped followed by the leftover; through the loop break the leftover is exactly what was pushed after the last empty observation, otherwise nothing ran |
| `Mailbox.WorkStepFacts` | src/xv_th_pool.c:39-70 | each action of the worker keeps the invariant, decreases a measure linear in the queue, and leaves the others' state alone |
| `Mailbox.SettleIsARun` | src/xv_th_pool.c:39-70 | the worker alone comes to rest within that measure, by a legal run of its own steps |
| `Mailbox.SettleOutcome` | src/xv_th_pool.c:54-70 | where the worker rests: exited exactly when the flag was clear and it was not parked |
| `Mailbox.WorkerDrainsQueue` | src/xv_th_pool.c:39-58 | from every reachable running state with all sends completed, the worker's own steps run every pushed task and then sleep |
| `Mailbox.WorkerExits` | src/xv_th_pool.c:86-96 | once the flag is clear the worker's own steps exit exactly when it was not parked; after the signal always, so the join returns |
| `Mailbox.StopAloneCanStrandWorker` | src/xv_th_pool.c:130-138 | a run in which the flag is cleared without a signal and the worker can never move again |
| `Mailbox.TaskBeforeStopCanBeLost` | src/xv_th_pool.c:54-57 | a run in which a task pushed and signalled before the stop is never executed |
| `Mailbox.StopLosesExactly` | src/xv_th_pool.c:54-70 | for every continuation that ends in the exit, producers pushing on: if the worker was starting or about to read the flag when it was cleared, nothing more is popped; otherwise everything pushed by then is; what was popped has run, in order |
| `Mailbox.QuietStopLosesExactly` | src/xv_th_pool.c:54-70 | without further pushes: all that was queued when the flag was cleared is lost in the first case, and nothing in the second |
| `Mailbox.StopOutcome` | src/xv_th_pool.c:86-96 | after stop and signal the worker alone does exit, leaving exactly that behind |
| `WorkerThread.Worker.constructor` | src/xv_th_pool.c:72-84 | the initial memory is the initial protocol state |
| `WorkerThread.Worker.Others` | src/xv_th_pool.c:140-151 | every step of another thread in the script that it can take at its turn is taken, in order, and no other |
| `WorkerThread.Worker.Yield` | src/xv_th_pool.c:39-70 | between two actions of the worker the next entry of the script is played in full |
| `WorkerThread.Worker.Start` | src/xv_th_pool.c:105-128 | fails exactly when already started; otherwise sets the flag, lets the others take the steps they can, and creates the thread, whose flag is still set exactly when nobody stopped it |
| `WorkerThread.Worker.Stop` | src/xv_th_pool.c:130-138 | clears the flag and does nothing else |
| `WorkerThread.Worker.PushTask` | src/xv_th_pool.c:140-151 | a push step, whatever the others can do meanwhile, and a send step, after which the counter is positive |
| `WorkerThread.Worker.AsyncSend` | src/xv_async.c:118-133 | one protocol send: one more on the counter, or none when the write fails because it is full; it ends positive |
| `WorkerThread.Worker.WorkerAsyncCb` | src/xv_th_pool.c:39-58 | under any interference the drain loop and flag check are a run of the protocol, terminate when the others stop moving, and return to the loop test |
| `WorkerThread.Worker.ReadEventfd` | src/xv_async.c:51-69 | reading the eventfd zeroes the counter before the queue is looked at |
| `WorkerThread.Worker.LoopRun` | src/xv.c:94-99 | under any interference and any interruptions of epoll_wait, returns when the loop was broken, or is asleep with nothing left to happen |
| `WorkerThread.Worker.WorkerEntry` | src/xv_th_pool.c:60-70 | whatever the other threads do, the thread exits, or sleeps when they have stopped; asleep with all sends completed it has run every pushed task; after a signalled stop it has exited |
| `WorkerPool.PushedExactly` | src/xv_th_pool.c:218-223 | over every run the tasks pushed to the pool are those of the push steps taken, in order |
| `WorkerPool.PushedTaskArrives` | src/xv_th_pool.c:218-223 | the tasks pushed for a hash code are, in order, in the history of worker key % n, which has them queued or popped |
| `WorkerPool.PerKeyOrder` | src/xv_th_pool.c:218-223 | for any number of workers and all interleavings, what ran of one hash code is a prefix of what the push steps handed over for it |
| `WorkerPool.QuiescentPoolIsDone` | src/xv_th_pool.c:140-151 | when all workers sleep and no producer is mid-way, the tasks the push steps handed over for each hash code have all run, in that order |
| `WorkerPool.ServiceTotalOrder` | src/xv_service.c:446-459 | the tasks of the service's push steps are, in order, the history of worker 1 % n and run in one global order; the other workers never receive one |
| `Connection.WireStream` | src/xv_service.c:401-428 | for every pattern of write results, the bytes those results report as accepted, out of what was offered to each write, followed by unread output equal the responses in processing order; an open connection without write watcher has sent all of it |
| `Connection.WireStep` | src/xv_service.c:418-426 | for every event, replies and write callback alike, the socket gets exactly the first n bytes of the unread and newly encoded output when write(2) accepts n, and nothing otherwise |
| `Connection.ClosesExactly` | src/xv_service.c:401-523 | an open connection is closed exactly by end of stream or a failed read, malformed input, a failed write, or a write of 0 bytes in the write callback; EAGAIN, EINTR and an incomplete request never close |
| `Connection.WatchersExactly` | src/xv_service.c:401-523 | while open the read watcher is on; the write watcher is on after a write callback exactly when output is left, is turned on by a reply that leaves output, and stays as it was otherwise |
| `Connection.MessagesExactly` | src/xv_service.c:364-466 | each request for the pool and each send makes one message, each return ends one |
| `Connection.UserRefsExactly` | src/xv_service.c:108-116 | the user's references change exactly by what decode and process take for a request, by on_disconnect when the event closes, and by the user's own calls |
| `Connection.InputStream` | src/xv_service.c:430-497 | over every run, the bytes read from the socket are the bytes taken by decode (or dropped where there is no decoder) followed by the bytes still unread, in order |
| `Connection.LeftoverWaits` | src/xv_service.c:438-440 | over every run there are at most as many requests as reads that got bytes, and until such a read comes the bytes left over by decode stay as they are |
| `Connection.SecondRequestWaits` | src/xv_service.c:438-440 | of two requests in one read the second stays unread in every continuation without a further read |
| `Connection.WriteKeepsInv` | src/xv_service.c:499-523 | after the write callback an open connection's write watcher is on exactly when output is pending |
| `Connection.AtRest` | src/xv_service.c:499-523 | between callbacks an open connection has its read watcher started, and its write watcher while output is pending; ref_count is 1 + live messages + user references; on_disconnect and reclamation happen at most once, and nothing is freed while open |
| `Connection.ClosedIsFinal` | src/xv_service.c:341-350 | from a closed connection no run restarts a watcher, sends a byte or calls on_disconnect again; messages are created only by senders that were past their status test |
| `Connection.EventKeepsInv` | src/xv_service.c:401-523 | every callback keeps the wire equation, write interest, reference counts, one on_disconnect and one reclamation |
| `Connection.ProcessMessageKeepsInv` | src/xv_service.c:401-428 | during process_message the live message keeps its connection from being freed, whatever the write returns |
| `Connection.SyncReclamation` | src/xv_service.c:341-362 | without a pool no message is alive between callbacks and a connection is freed at most once, only by its own close, with no reference left |
| `Connection.SyncLifetime` | src/xv_service.c:341-362 | over the whole life of a connection without a pool, whatever comes before and after the event that closes it, it is reclaimed if and only if user references before it, plus those taken if it decoded a request, plus those on_disconnect changes, are zero, and it is not the write of a reply |
| `Connection.CloseReclaims` | src/xv_service.c:341-362 | with or without a pool, a closing event reclaims exactly when no message is out, it leaves the user no reference, and it is not the write of a reply |
| `Connection.SyncCloseReclaims` | src/xv_service.c:343-361 | the same without a pool, on the state and the event before it |
| `Connection.SyncLeakRun` | src/xv_service.c:413-416 | a failed write of a reply leaves the connection closed, with no message and no user reference, and neither reclaimed nor freed |
| `Connection.DeferredCloseLeaks` | src/xv_service.c:352-355 | a close deferred with no message outstanding is never followed by a reclamation, and by at most as many frees as senders were past their status test |
| `Connection.PooledReturn` | src/xv_service.c:261-282 | each message returning to a closed connection frees it without giving back table entry and descriptor; another message or sender dangles if and only if there were two, a user reference if and only if there was one |
| `Connection.PooledOutcome` | src/xv_service.c:261-282 | for every continuation after a close: no further reclamation, and one free for each message that came back, whether out at the close or created by a sender past its status test |
| `Connection.PooledExactly` | src/xv_service.c:261-282 | after a close some continuation frees the connection k more times if and only if messages out and senders past their test are at least k; where the close did not free it, one of them comes to refer to freed memory if and only if they are at least two |
| `Connection.FreedAtMostOnce` | src/xv_service.c:261-282 | over the whole life of a connection, every continuation of the closing event frees it at most once if and only if that event leaves behind at most one of messages and senders past their test, and none where it reclaims |
| `Connection.SenderFreesAgain` | src/xv_service.c:364-380 | a run in which a close leaves one message only and a sender past its test makes a second free possible |
| `Connection.PooledDanglingRun` | src/xv_service.c:273-279 | a run with two requests in flight and a hang-up, after which a message comes to refer to a freed connection and the connection to be freed twice |
| `Connection.ReadBufferBound` | src/xv_service.c:478-495 | a connection whose decoder leaves at most C bytes behind keeps its read buffer within 2C + 12286 bytes for its whole life |
| `Service.Service.Close` | src/xv_service.c:341-362 | the close of one connection in place, and the table slot and count given up exactly when it is reclaimed |
| `Service.Service.DelConnection` | src/xv_service.c:696-710 | clears the slot and decrements the count; refuses a descriptor outside the table |
| `Service.Service.ProcessMessage` | src/xv_service.c:401-428 | encode, one write and its outcome, in place |
| `Service.Service.ProcessReadBuffer` | src/xv_service.c:430-466 | decode and the whole life of a synchronous message, in place |
| `Service.Service.OnConnectionRead` | src/xv_service.c:468-497 | the read callback keeps conn_count equal to the occupied slots and every unreclaimed connection, and no other, in its slot |
| `Service.Service.OnConnectionWrite` | src/xv_service.c:499-523 | the write callback keeps the same |
| `Service.Service.ChangeRef` | src/xv_service.c:108-116 | user reference changes keep the same |
| `Service.Service.OnNewConnection` | src/xv_service.c:526-567 | a new connection finds its slot empty and occupies it; descriptors not above zero or without working socket options are ignored |
| `ServiceFlow.StepPlaced` | src/xv_service.c:238-282 | every step, closing and freeing included, keeps connections, messages and io_thread fields at the connection's home thread and all but one worker unused |
| `FlowWakeups.StepAwake` | src/xv_service.c:238-282 | every step keeps a wakeup on its way for each non-empty connection, message and task queue: a positive counter, a sender between push and signal, or a callback that has not yet seen the queue empty |
| `FlowOrder.StepFlows` | src/xv_service.c:261-282 | every step keeps, per connection and origin, the messages that entered a pipeline equal to those finished followed by those still in it, in order |
| `FlowOwnership.StepOwned` | src/xv_service.c:238-257 | every step keeps the accepted connections of each thread equal to those adopted, in its hand, in its queue and in the leader's hand, in accept order |
| `FlowOwnership.EachFollowerOnce` | src/xv_service.c:569-569 | of any n - 1 consecutive descriptors exactly one goes to each follower |
| `FlowLifetime.StepPlaces` | src/xv_service.c:364-380 | every step keeps each message created in a pipeline's history or in its sender's hand, once |
| `FlowLifetime.StepCounted` | src/xv_service.c:169-197 | every step keeps ref_count equal to one plus the messages created and not destroyed plus the user's holds |
| `FlowLifetime.StepDoomed` | src/xv_service.c:341-362 | a step brings a connection past rescue if and only if it closes one early: leaving two or more messages outstanding and senders past their status test, or one where it frees at once; no step rescues it |
| `FlowLifetime.FaultIsDoomed` | src/xv_service.c:370-394 | a thread of the service or a sender about to use a freed connection is in such a state |
| `FlowHistory.HistoryIsSteps` | src/xv_service.c:364-572 | over every run, what was accepted, created, entered, is being sent and is held is what the steps taken say, read off them alone |
| `FlowHistory.StepLedger` | src/xv_service.c:261-362 | a step closes exactly by a callback or a reply that cannot be written; reclaims exactly by a callback's close with no message out and no hold; frees exactly by reclaiming or by processing a message of a closed connection |
| `FlowProgress.RequestsStayInOrder` | src/xv_service.c:386-399 | for any number of io threads and workers, also none, and all interleavings: per connection the requests of the decode steps, and the messages of the push steps, are the finished ones followed by those in its io thread's pipeline, so requests finish in decode order and sends in push order |
| `FlowProgress.ExactlyOnePlace` | src/xv_service.c:261-282 | every message a step of the run created was destroyed once, is in exactly one place of its pipeline, or is in its sender's hand |
| `FlowProgress.RefsCountMessages` | src/xv_service.c:169-197 | ref_count is one plus the connection's messages in its thread's pipeline and in senders' hands plus the user's holds |
| `FlowProgress.ConnectionOwnership` | src/xv_service.c:561-572 | the connections of the accept steps with fd % (n - 1) + 1 == i go, in accept order, through the leader's hand, one queue and one hand to thread i, and no other does; with n > 1 the leader owns none; with or without a pool |
| `FlowProgress.SameThreadExactly` | src/xv_service.c:569-569 | two connections have the same io thread if and only if their descriptors agree modulo n - 1 |
| `FlowProgress.EndsExactly` | src/xv_service.c:261-362 | over every run, which connections are closed, freed and reclaimed is exactly what the steps that close, free and reclaim say |
| `FlowProgress.AsleepMeansEmpty` | src/xv_service.c:238-282 | an io thread asleep with a counter at zero and no sender mid-way has nothing in the queue of that counter, for each of its two |
| `FlowProgress.WorkerAsleepMeansEmpty` | src/xv_th_pool.c:39-58 | the same for a worker inside the service |
| `FlowProgress.ReturnsHome` | src/xv_service.c:386-399 | only worker 1 % w is ever used; the message it holds goes to the io thread of its connection, which is a fault exactly when the connection was freed meanwhile, and never without an early close |
| `FlowProgress.FaultsExactly` | src/xv_service.c:261-282 | after any run, the threads' and senders' own steps can come to use a freed connection if and only if some connection was closed early: with two or more messages outstanding and senders past their status test, or with such a sender where the close frees at once |
| `FlowProgress.NullExactly` | src/xv_service.c:373-376 | after any run, a sender can come to use a NULL io_thread if and only if one is past its status test for a connection that no io thread has adopted yet |
| `FlowProgress.NoEarlyCloseNoFault` | src/xv_service.c:364-399 | in any run without an early close no thread of the service and no sender is ever about to use a freed connection; only the user giving back a hold can be, where the hold was lost; a NULL io_thread is met only by a sender ahead of the adoption |
| `FlowProgress.HeldFreedExactly` | src/xv_service.c:261-282 | in a run without an early close, a connection the user holds comes to be freed if and only if it is closed and was freed before or leaves a message or sender behind |
| `FlowProgress.HoldLostRun` | src/xv_service.c:108-116 | a run with one hold and one message in which a close that is not early loses the hold |
| `FlowProgress.HomelessRun` | src/xv_service.c:373-376 | a run in which a sender is past its test before the connection has an io thread |
| `FlowProgress.EarlyCloseIsFatal` | src/xv_service.c:273-279 | from every reachable state, an early close leads to the use of freed memory |
| `FlowProgress.EarlyCloseRun` | src/xv_service.c:364-380 | a run, for any pool size, in which two messages sent by the user make a hang-up an early close |
| `FlowProgress.SenderCloseRun` | src/xv_service.c:366-370 | a run, for any pool size, in which one message and one sender past its status test do |
| `FlowProgress.StepMeasure` | src/xv_service.c:238-282 | every step a thread takes by itself decreases a measure of queues, counters and phases |
| `FlowProgress.InternalRunsEnd` | src/xv_service.c:238-282 | by themselves the threads take at most that many steps, in any interleaving |
| `FlowProgress.RestIsReached` | src/xv_service.c:238-282 | from every state some run of their own steps brings the threads to rest |
| `FlowProgress.WorkGetsDone` | src/xv_service.c:238-282 | after any run without an early close, however the threads interleave, they come to rest within the measure, and at rest every send is complete, every message created by the run's steps was destroyed, every connection accepted by them is with its thread and every ref_count is one plus the user's holds |

## Left out

- EventLoop.Loop.IoStart: for descriptors below the set size only; the growth in src/xv.c:121-141 reallocates `events` where `fired_events` is meant and doubles only once.
- Service.Service.OnNewConnection: for descriptors below the table size and one io thread; the growth in src/xv_service.c:680-687 has an off-by-one comparison and does not clear the new part, and the hand-over to other io threads is in `ServiceFlow`.
- WorkerThread.Worker.Start: for a worker not yet started or already running; after a stop, `xv_async_start` fails because its watcher is still started.
- Failures of `epoll_ctl` other than an illegal operation, allocation failures and pthread errors.
- `xv_queue_destroy` and the teardown of threads and services (src/xv_service.c:304-321, src/xv_service.c:756-835): the walk follows the uninitialised `next` field of the tail.
- `xv_thread_pool_start`, `_stop` and `_task_count`: loops over the workers that add nothing to the per-worker results.
- Negative hash codes, for which C's `%` yields a negative index.
- `ServiceFlow` and the modules on it: the start flags and stopping (they are in `Mailbox`); a report by epoll_wait and the read of that eventfd are one step, between which the counter only grows; a close is one step, at its test of the reference count, so what on_disconnect does comes before it; a user takes a hold only of a connection not yet freed.
- Service.Service.OnConnectionRead: the connection's buffers are values there, so the update of their arrays in place is covered by `ByteBuffer.Buffer` alone.
- Sockets, options, listening and logging (src/xv_socket.c, src/xv_log.c): no state of their own.
- src/xv_select.c, src/xv_timer.c and src/xv_signal.c: stubs.
- Integer width: sizes are unbounded, and `GrowthFits` says when the code's computations stay within a limit.
- Weak memory: all steps are sequentially consistent.
