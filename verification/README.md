# Penduo

Penduo is a small reactor in the style of muduo: one `EventLoop` per thread polls descriptors, dispatches
`Channel` callbacks, runs timers and runs functors that any thread may queue. This project models the parts
of it that must stay in agreement while callbacks re-enter it and other threads produce work for it, and the
parts of its vendored logger, easylogging++, that keep compressed or bounded data.

| file | models |
|---|---|
| `EventLoop.dfy` | the loop's cross-thread protocol: an interleaving machine over atomic steps, and the object whose every execution is one of its runs |
| `Poller.dfy` | `Channel` and `Poller` on the heap, refining a map from descriptor to interest |
| `TcpServer.dfy` | `Acceptor`, `TcpServer` and `TcpConnection` on the heap |
| `ServerRuns.dfy` | whole runs of a server on one loop, as a machine in which a failing assert is an outcome |
| `ServerRefinement.dfy` | the heap objects carry out that machine |
| `Timestamps.dfy`, `TimerSets.dfy`, `TimerBooks.dfy`, `TimerQueue.dfy` | durations and rounding, the ordered set, where every timer is, and `TimerQueue` over a `Timerfd` |
| `OneShots.dfy`, `TimerThread.dfy`, `TimerRefinement.dfy` | the one-shot timer with sticky ticks, the helper thread that simulates it, and that `TimerQueue`'s `Timerfd` can follow any run of that thread |
| `Decimals.dfy` | decimal numerals |
| `WildCard.dfy`, `DateFormat.dfy` | easylogging++'s glob matcher and bounded date formatting |
| `ConfigurationTables.dfy`, `TypedTables.dfy`, `Configurations.dfy` | its per-level configuration list, the compressed tables built from it, and the objects |

**Environment.** The build has asserts enabled: two of the erases are inside `assert`. `poll` gives negative
descriptors no revents and returns the number of entries with nonzero revents. `accept` returns a descriptor
that is not registered. Pipes are unbounded counters. User callbacks may queue functors and add timers, any
number of them; other threads may take their steps between any two atomic steps of the loop thread. A read is
an outcome: data, end of file, or an error.

**How objects and machines meet.** Interleavings and whole runs are machines on values, about which the
for-all statements are proved. The classes are proved to run them: `EventLoop` keeps a trace and its fields
are what the trace leads to, and `ServerRefinement.Serve` keeps the server's objects representing the state its
run has reached; `ServerRefinement.Launch` starts it from the constructors. `TimerQueue`'s methods are proved directly, against the book of where every timer is.

**Where the code falls short of its comments or of the obvious expectation.**

- A functor queued by the loop thread before `loop()` gets no wakeup and may wait for the poll timeout, and a
  `quit()` before `loop()`, or between its first two stores, is overwritten; `EventLoopProtocol.EnteringLoop`
  and `EventLoopProtocol.QuitWhileStartingIsLost` say exactly when.
- A read error is stored in an unsigned variable and takes the data branch
  (`TcpServing.TcpConnection.HandleRead`).
- The helper thread computes its timeout under the mutex and waits after releasing it, so a delay in between
  adds to the wait; `TimerThreads.HelperWakesInTime` gives the bound with the delay in it.
- A formatted time of thirty characters or more leaves its buffer without a terminator
  (`DateFormat.TimevalToBuffer`).
- `setValue` drops a value equal to Global's even when the level has another (`TypedTables.StoredLookup`);
  `build` never meets that case when keys are unique.
- The simulated timerfd takes timestamp zero for "never set"; `TimerThreads.ResetKeepsOneEntryExactly` says
  exactly when that leaves a stale entry.
- A configuration that was not started from the defaults can lose a change on the way to the typed tables;
  `TypedTables.AgreementExactly` says exactly when.

## Model

| member | source | states |
|---|---|---|
| `EventLoopProtocol.NoLostWakeup` | src/net/EventLoop.cpp:63-129 | In every interleaving with any number of producers in which the loop thread queues only inside loop(): in poll with functors queued, a token is unread or some producer is between its push and its pipe write. |
| `EventLoopProtocol.EnteringLoop` | src/net/EventLoop.cpp:57-65 | Exactly when the proviso matters: entering loop() from any reachable state sleeps on queued work if and only if the loop thread itself queued outside loop() and no token is there or coming; a quit() before loop() is lost. |
| `EventLoopProtocol.SleepsOnEarlyWork` | src/net/EventLoop.cpp:87-96 | One such state: a functor queued before loop(), after which entering loop() sleeps on it. |
| `EventLoopProtocol.QuitWhileStartingIsLost` | src/net/EventLoop.cpp:60-63 | A quit_ stored between looping_ = true and quit_ = false is lost: the loop polls. |
| `EventLoopProtocol.FunctorConservation` | src/net/EventLoop.cpp:87-119 | In every reachable state the functors pushed, in the order of the pushes and each once, are exactly those executed, then the rest of the running batch, then the queue; and as many have been executed as functors were called. |
| `EventLoopProtocol.OrderIsPushed` | src/net/EventLoop.cpp:87-96 | The lock order is the sequence of the functors of all queue_in_loop calls, computed from the calls alone. |
| `EventLoopProtocol.TokensAreConserved` | src/net/EventLoop.cpp:121-129 | The unread tokens are the pipe writes less the pipe reads of the run. |
| `EventLoopProtocol.QuitIsAsked` | src/net/EventLoop.cpp:57-137 | quit_ is set exactly if a quit() has come since loop() last cleared it. |
| `EventLoopProtocol.PushesInFlight` | src/net/EventLoop.cpp:87-96 | A thread is between its two steps exactly if its latest step is the push. |
| `EventLoopProtocol.QuitRequestedEndsTheLoop` | src/net/EventLoop.cpp:57-75 | In a run in which quit() was called and not cleared, however it goes on in this call of loop(), poll is not entered again and the queue is swapped out once more at most, exactly once if it was in poll. |
| `EventLoopProtocol.ReportedTokenIsRead` | src/net/EventLoop.cpp:63-71 | A token that is there when poll returns is read before the iteration drains. |
| `EventLoopProtocol.LoopIsNeverStuck` | src/net/EventLoop.cpp:57-129 | In every reachable state the loop thread has a step it can take. |
| `EventLoopProtocol.CallersAreNeverStuck` | src/net/EventLoop.cpp:87-137 | Any other thread can begin a call or finish the one it is in; user code on the loop thread can queue and quit. |
| `EventLoopProtocol.DrainRunsWhatWasQueued` | src/net/EventLoop.cpp:107-119 | Outside a drain exactly the functors queued before the last swap have been executed, and the queue is exactly what was queued after it. |
| `EventLoopProtocol.DrainIsBounded` | src/net/EventLoop.cpp:107-119 | A drain makes exactly the calls of its batch, in order, however many functors are queued meanwhile, so it ends. |
| `EventLoopProtocol.NextDrainExecutes` | src/net/EventLoop.cpp:87-119 | Whatever had been pushed at some moment has been executed, once and in order, when a later drain has ended. |
| `EventLoopProtocol.DrainDone` | src/net/EventLoop.cpp:107-119 | From the end of dispatch to the end of the iteration everything queued before is executed and nothing queued after the swap is. |
| `EventLoopProtocol.SwapsOnTheWay` | src/net/EventLoop.cpp:63-71 | No run gets from dispatch to the next test of the loop condition without swapping the queue out. |
| `EventLoopProtocol.QuitIsNeverSleptThrough` | src/net/EventLoop.cpp:131-137 | In poll after a quit() that loop() has not cleared, a token is unread or the quitter has yet to write it. |
| `EventLoopProtocol.QuitEndsTheLoop` | src/net/EventLoop.cpp:57-75 | Once quit_ is set inside loop() no continuation of that call polls again; it swaps out the queue exactly once more if it had not in this iteration, and leaves. |
| `EventLoopProtocol.WakeupReadNeverBlocks` | src/net/EventLoop.cpp:126-129 | The blocking read of the wakeup pipe is only reached with a token in it. |
| `EventLoopProtocol.Reachable` | src/net/EventLoop.cpp:57-137 | The protocol invariant (order, flags, tokens) holds after every interleaving of atomic steps. |
| `EventLoopProtocol.StepKeepsWakeups` | src/net/EventLoop.cpp:57-137 | Each step of each thread keeps: queued work or a quit request seen by a sleeping loop has a token unread or on its way. |
| `EventLoopProtocol.StepKeepsOrder` | src/net/EventLoop.cpp:87-119 | Each step of each thread keeps the lock order and the cut made by the last swap. |
| `EventLoopProtocol.EventLoop.QueueInLoop` | src/net/EventLoop.cpp:87-96 | On the loop thread: while functors are being run, the push and then a token write, others interleaved; otherwise the push alone. |
| `EventLoopProtocol.EventLoop.CallFunctor` | src/net/EventLoop.cpp:115-117 | One step of the drain executes the functor it is given, which is the next of the batch, and no other. |
| `EventLoopProtocol.EventLoop.DoPendingFunctors` | src/net/EventLoop.cpp:107-119 | The object's drain, under interference at every step: all functors queued before it have run, none queued after its swap, which are still queued in order. |
| `EventLoopProtocol.EventLoop.Iterate` | src/net/EventLoop.cpp:63-71 | One iteration of the object's loop is a run of the protocol machine and ends at the loop condition. |
| `EventLoopProtocol.EventLoop.Loop` | src/net/EventLoop.cpp:57-75 | Any prefix of loop() under any interference is a run of the machine; it returns only with quit_ set and looping_ cleared. |
| `EventLoopProtocol.EventLoop.TestQuit` | src/net/EventLoop.cpp:63-63 | The loop condition: leaves with looping_ cleared exactly if quit_ is set, else polls. |
| `EventLoopProtocol.EventLoop.PollIsSafe` | src/net/EventLoop.cpp:65-65 | Whenever the object is in poll, queued work (or quit_) with no thread between its two steps means a readable pipe. |
| `EventLoopProtocol.EventLoop.WakeupHandleRead` | src/net/EventLoop.cpp:126-129 | The read consumes a token that is there. |
| `Polling.AppendEntry` | src/net/Poller.cpp:54-61 | Pushing an entry keeps the bijection and is an insertion into the map from descriptor to interest. |
| `Polling.ReplaceEntry` | src/net/Poller.cpp:62-74 | Overwriting an entry, complemented when its mask is empty, keeps the bijection and updates one key of the map. |
| `Polling.RemoveEntry` | src/net/Poller.cpp:84-95 | Swap with last and pop, with the moved channel reindexed, keeps the bijection and removes exactly one key from the map. |
| `Polling.UpdatedMeaning` | src/net/Poller.cpp:54-74 | One key changes: it is watched unless its mask is empty and it was registered before; all other keys stay. |
| `Polling.ComplementIsMirror` | src/net/Poller.cpp:69-72 | The complement of a descriptor is its bitwise inverse, negative exactly for a descriptor, and undone by itself. |
| `Polling.Poller.UpdateChannel` | src/net/Poller.cpp:50-75 | The object still is a bijection of vector, map and back-indices, and refines the map update; the asserts hold. |
| `Polling.Poller.RemoveChannel` | src/net/Poller.cpp:77-96 | The object refines removal of one key; the removed channel keeps a stale index with which update_channel would refuse it. |
| `Polling.Poller.UpdatableEntry` | src/net/Poller.cpp:64-69 | What update_channel asserts of a registered channel's entry follows from the invariant. |
| `Polling.Poller.RemovableEntry` | src/net/Poller.cpp:81-87 | What remove_channel asserts follows from the invariant and the channel being disabled. |
| `Polling.Poller.FillActiveChannels` | src/net/Poller.cpp:33-48 | With the early exit, appends exactly the channels with positive revents, in vector order, with their revents stored. |
| `Polling.EarlyExit` | src/net/Poller.cpp:44-46 | Once as many positive entries have been seen as poll() reported, no later entry has any revents. |
| `Polling.ReadyIsExact` | src/net/Poller.cpp:33-48 | The active list has exactly the channels of entries with positive revents, each once. |
| `Polling.ReadyIsOrdered` | src/net/Poller.cpp:34-43 | Of two ready channels the one whose entry comes first in the vector comes first. |
| `Polling.ReportedIsACount` | src/net/Poller.cpp:22-25 | The value poll returns is the number of entries with nonzero revents. |
| `Polling.PositiveIsAboveZero` | src/net/Poller.cpp:36-36 | The mask test is the comparison of the sixteen-bit number with zero. |
| `Polling.Poller.Poll` | src/net/Poller.cpp:21-31 | Given the contract of poll(): the active channels are distinct, registered and watched, are exactly those reported, hold the reported revents, and registrations are unchanged. |
| `Polling.FilledKeepsTable` | src/net/Poller.cpp:21-22 | Writing revents changes neither the bijection nor the map. |
| `Polling.Channel.EnableReading` | src/net/Channel.h:41-41 | Adds the read bits, registers or updates, and changes one key of the map. |
| `Polling.Channel.DisableAll` | src/net/Channel.h:42-42 | Clears the mask; the key stays registered, unwatched. |
| `Polling.Channel.Remove` | src/net/Channel.cpp:35-41 | The key is gone, added_to_loop_ is cleared and the index is left stale. |
| `Polling.Channel.HandleEvent` | src/net/Channel.cpp:50-82 | Over the bits of revents: the close callback is called if set and on a hang-up without input, the error one on an error or invalid descriptor, the read one on input or urgent input, the write one on output; each once, in that order. |
| `Polling.ReadEventsAreRead` | src/net/Channel.cpp:14-16 | The bits watched for reading are exactly those on which the read callback is due, and for them alone no other is. |
| `Polling.WatchedReadIsCalled` | src/net/Channel.cpp:50-82 | Whenever a bit that a channel is watched for reading on is reported, its read callback is called, whatever else is reported. |
| `TcpServing.NamesAreInjective` | src/net/TcpServer.cpp:38-38 | Different connection numbers give different keys of connections_. |
| `TcpServing.NameIsReadable` | src/net/TcpServer.cpp:38-38 | The name is the server's, a hash sign, and the number in decimal without leading zeros. |
| `TcpServing.TcpConnection.ConnectEstablish` | src/net/TcpConnection.cpp:30-38 | Connected, read-enabled in the poller, the callback called once, in the state Connected. |
| `TcpServing.TcpConnection.ConnectDestroyed` | src/net/TcpConnection.cpp:40-49 | DisConnected, the callback called once more in that state, and the descriptor gone from the poller. |
| `TcpServing.TcpConnection.HandleRead` | src/net/TcpConnection.cpp:51-63 | End of file closes; data, and an error, which is a huge unsigned count, call the message callback once and change nothing but the functor queue. |
| `TcpServing.TcpConnection.HandleClose` | src/net/TcpConnection.cpp:65-76 | The descriptor unwatched but registered, the entry erased, one destroy functor queued last. |
| `TcpServing.TcpServer.NewConnection` | src/net/TcpServer.cpp:35-51 | Number, name, map entry and read-enabled registration of a fresh connection. |
| `TcpServing.TcpServer.RemoveConnection` | src/net/TcpServer.cpp:53-58 | Erases exactly the named entry and queues the destruction. |
| `TcpServing.TcpServer.Start` | src/net/TcpServer.cpp:29-33 | Registers the acceptor for reading; a second call leaves every table as it was. |
| `TcpServing.Acceptor.Listen` | src/net/Acceptor.cpp:22-27 | listening_ set and the channel registered for reading. |
| `TcpServing.Acceptor.HandleRead` | src/net/Acceptor.cpp:29-42 | A negative accept changes nothing; any other result becomes one new connection under the next number. |
| `ServerRuns.WholeRunAgreement` | src/net/TcpServer.cpp:35-58 | In every run, when the loop evaluates its condition: the poller watches for reading exactly the system channels and one distinct descriptor per entry of connections_, and no destruction is queued. |
| `ServerRuns.NoAssertFails` | src/net/TcpConnection.cpp:30-76 | In no run does an assert of the life cycle, of channel registration or of the map erase fail. |
| `ServerRuns.ConnectionLifeCycle` | src/net/TcpConnection.cpp:30-76 | At every moment of every run a connection is open, closing (closed once, destruction queued) or gone, with exactly the callbacks of its transitions, and is in connections_ exactly while open. |
| `ServerRuns.LifeFieldByField` | src/net/TcpConnection.cpp:30-76 | The same in the fields: named in the map, connected, called back once and watched for POLLIN and POLLPRI; or closed once, still connected, its destruction queued or in the batch, registered and not watched; or disconnected and called back twice. |
| `ServerRuns.RunCounts` | src/net/TcpServer.cpp:35-58 | In every run the objects, the map and the poller have grown by the accepts, less the ends of file for the map and the destructions for the poller. |
| `ServerRuns.OneWholeLife` | src/net/TcpServer.cpp:35-58 | From any start with an acceptor, a run of two iterations in which a connection is accepted, read to its end and destroyed, after which the map and the poller are as before. |
| `ServerRuns.ConnectionsOnlyAge` | src/net/TcpConnection.cpp:30-76 | Between any two moments of a run every connection only moves forward: its descriptor stays, its callback history and closes only grow, and once disconnected nothing about it changes. |
| `ServerRuns.DispatchIsSafe` | src/net/EventLoop.cpp:63-71 | During a pass, whatever earlier handlers accepted or closed, each channel still to be handled occurs once, is registered and watched, and its connection is open, so closing it erases exactly one entry. |
| `ServerRuns.StepKeepsInv` | src/net/TcpServer.cpp:35-58 | Every event from a good state passes its asserts and leads to a good state. |
| `ServerRuns.CloseKeepsCore` | src/net/TcpConnection.cpp:65-76 | Closing an open connection passes its asserts and moves only that connection. |
| `ServerRuns.DestroyKeepsCore` | src/net/TcpConnection.cpp:40-49 | Running a queued destruction passes its asserts and removes exactly that registration. |
| `ServerRuns.AcceptKeepsCore` | src/net/TcpServer.cpp:35-51 | Accepting a descriptor that is not open adds one open connection and disturbs no other. |
| `ServerRuns.FreshNumber` | src/net/TcpServer.cpp:38-46 | The next number and its name are unused, so the map assignment inserts. |
| `ServerRefinement.Serve` | src/net/EventLoop.cpp:63-71 | The objects of a started server, driven by any reports of poll and any events the loop allows, always hold the state the machine has reached by a run without a failed assert; each Channel still to be handled is the one registered for its descriptor; every object in connections_ is connected, under its own name, and watched for reading through its own channel; at the loop condition the poller's map is the initial one plus the open connections' descriptors. |
| `ServerRefinement.Launch` | src/net/TcpServer.cpp:14-58 | The same from the constructors on: a loop with timer and wakeup channels, a server on it, start, and then anything. |
| `ServerRefinement.PollOnce` | src/net/Poller.cpp:21-31 | The list that the object's poll fills is a report the machine allows: distinct, registered and watched, whatever revents the system gives. |
| `ServerRefinement.HandleNext` | src/net/EventLoop.cpp:67-69 | The handler of the next active Channel, run on the objects, does what the machine's event does and removes no registration. |
| `ServerRefinement.ReaderObject` | src/net/TcpConnection.cpp:51-63 | A connection's handler runs on the connection whose own channel is being handled, and that connection is open. |
| `ServerRefinement.Perform` | src/net/EventLoop.cpp:107-119 | Queueing, the swap and the running of functors, on the objects, end in the machine's next state. |
| `ServerRefinement.ReadEndOfFile` | src/net/TcpConnection.cpp:65-76 | handle_close may be called whenever a connection's channel is handled, and does on the objects what Close does. |
| `ServerRefinement.ReadData` | src/net/TcpConnection.cpp:51-55 | A read of data, or an error, changes only the functor queue. |
| `ServerRefinement.AcceptConnection` | src/net/TcpServer.cpp:35-51 | new_connection on the objects does what Accept does, then queues only user functors. |
| `ServerRefinement.RunDestroyFunctor` | src/net/TcpConnection.cpp:40-49 | A queued destruction may be run, and does on the objects what RunDestroy does. |
| `ServerRefinement.CloseMatches` | src/net/TcpConnection.cpp:65-76 | On what the tables hold, closing corresponds to the machine's Close. |
| `ServerRefinement.AcceptMatches` | src/net/TcpServer.cpp:35-51 | On what the tables hold, accepting corresponds to the machine's Accept. |
| `ServerRefinement.DestroyMatches` | src/net/TcpConnection.cpp:40-49 | On what the tables hold, destruction corresponds to the machine's RunDestroy. |
| `ServerRefinement.HandlingAfter` | src/net/EventLoop.cpp:67-69 | Whatever an event does, the channels still to be handled stay registered as themselves. |
| `ServerRefinement.StartedIsInitial` | src/net/TcpServer.cpp:14-33 | A started server without connections is a starting point of these runs. |
| `ServerRefinement.ObjectsAgree` | src/net/TcpServer.cpp:35-58 | Whole-run agreement, read off the objects. |
| `ServerRefinement.ConnectionsAreOpen` | src/net/TcpServer.cpp:35-58 | At every moment every object in connections_ is connected, called back once, not closed, and watched for POLLIN and POLLPRI. |
| `Timestamps.TimeSpecIsNormalised` | src/base/timerfd/Timerfd.cpp:9-17 | The timespec is normalised, whole microseconds, at least 100 of them; the timer fires less than 1 microsecond before its deadline at the earliest and not later than the deadline or the floor. |
| `Timestamps.EarlyBy` | src/base/timerfd/Timerfd.cpp:9-17 | Exactly how early: by the nanoseconds the truncation drops. |
| `Timestamps.ShortTimersAreNotEarly` | src/base/timerfd/Timerfd.cpp:12-12 | With at most 100 microseconds left the timer is never early. |
| `Timestamps.DifferOfAdd` | src/base/Timestamp.h:55-66 | differ undoes add, in every unit. |
| `Timestamps.TruncationIsTowardZero` | src/base/Timestamp.h:62-67 | The cast drops less than one unit, toward zero, for negative differences too. |
| `Timestamps.UnitsAgree` | src/base/Timestamp.h:55-60 | Adding a second, a thousand milliseconds, a million microseconds or a thousand million nanoseconds is the same. |
| `TimerSets.InsertIsSorted` | src/net/TimerQueue.cpp:47-53 | Insertion into the ordered set keeps it strictly ordered, adds exactly the element, and says what becomes the head. |
| `TimerSets.EraseIsSorted` | src/base/timerfd/TimerfdThreadSimulation.cpp:62-64 | Erasing keeps the order and removes exactly the element. |
| `TimerSets.HeadIsEarliest` | src/net/TimerQueue.cpp:60-61 | No element has an earlier deadline than the head. |
| `TimerBooks.EarlierDeadlineRunsFirst` | src/net/TimerQueue.cpp:57-84 | Of two timers that were in timer_list_ together the one with the earlier deadline has run before the other. |
| `TimerBooks.FiresAtMostOnce` | src/net/TimerQueue.cpp:57-84 | Each timer runs at most once, only if added, never before its deadline. |
| `TimerBooks.AddingAddsOne` | src/net/TimerQueue.cpp:28-41 | A new timer enters the list, or the queue, exactly once, and the history of added timers. |
| `TimerBooks.QueuedMovesOne` | src/net/TimerQueue.cpp:35-41 | Running a queued add moves that timer from the queue to the list and nothing else. |
| `TimerBooks.AddDirectKeepsGood` | src/net/TimerQueue.cpp:28-41 | A direct add keeps: every added timer is in exactly one place, none early, order as above. |
| `TimerBooks.AddQueuedKeepsGood` | src/net/TimerQueue.cpp:28-41 | Running a queued add keeps the same. |
| `TimerBooks.ExpireKeepsGood` | src/net/TimerQueue.cpp:57-69 | Moving the head to the expired batch keeps the same. |
| `TimerBooks.RunFirstKeepsGood` | src/net/TimerQueue.cpp:79-81 | Running the first of the batch keeps the same. |
| `TimerQueues.TimerQueue.AnyRun` | src/net/TimerQueue.cpp:28-94 | In any run, with timers added from handlers, functors, callbacks and other threads and the timerfd expiring at any time, during callbacks too: outside handle_read the book of timers is good, a waiting timer means the timerfd was last set to the head deadline and is armed for it or has an unread tick, and at most one kernel tick has run nothing since the head deadline last changed. |
| `TimerQueues.TimerQueue.HandleRead` | src/net/TimerQueue.cpp:71-84 | Runs, in order, exactly a prefix of the list that has every timer due before the call and none not due after it, at times in between; the rest stays listed; afterwards the queue is live again; a kernel tick that runs nothing though a timer waits is the first for that head deadline and came less than 1 microsecond before it. |
| `TimerQueues.TimerQueue.Finish` | src/net/TimerQueue.cpp:79-83 | After an empty batch the timerfd, set again within 100 microseconds of the head deadline, cannot fire before it. |
| `TimerQueues.TimerQueue.Elapse` | src/base/timerfd/Timerfd.cpp:9-17 | Letting time pass and the timerfd expire keeps liveness and the bound on empty ticks. |
| `TimerQueues.TimerQueue.GetExpired` | src/net/TimerQueue.cpp:57-69 | Splits the list: the expired prefix is exactly what is due. |
| `TimerQueues.TimerQueue.RunBatch` | src/net/TimerQueue.cpp:79-81 | Runs the whole batch in order although callbacks add timers and take time, in which the timerfd may expire. |
| `TimerQueues.TimerQueue.AddTimer` | src/net/TimerQueue.cpp:28-41 | The list is what it was and this timer, once; liveness and the bound on empty ticks are kept; the timerfd is set again, for this timer, exactly when the head deadline changed, and is otherwise untouched. |
| `TimerQueues.TimerQueue.RunPending` | src/net/TimerQueue.cpp:35-41 | The first queued timer, and it alone, moves to the list; the rest as for AddTimer. |
| `TimerQueues.TimerQueue.AddTimerFromOutside` | src/net/TimerQueue.cpp:28-33 | From another thread the timer is queued last and nothing else changes. |
| `TimerQueues.TimerQueue.InsertTimer` | src/net/TimerQueue.cpp:43-55 | Reports a change exactly when the list was empty or the head deadline changed, and then the new timer is the head. |
| `TimerQueues.Timerfd.Reset` | src/base/timerfd/TimerfdNaive.cpp:35-46 | Arming discards an unread kernel tick and bounds the earliest firing time on both sides: less than 1 microsecond before the deadline, and not after the deadline or the 100 microsecond floor. |
| `TimerQueues.Timerfd.Read` | src/base/timerfd/TimerfdNaive.cpp:25-33 | The kernel timer's read takes all expirations, the simulated one's a single tick. |
| `TimerRefinement.FollowThread` | src/base/timerfd/TimerfdThreadSimulation.cpp:60-144 | In any run of the helper thread with nonzero timestamps, the timer that TimerQueue is proved over can do what each owner sees: it ends armed and with the ticks that the run gives. |
| `TimerRefinement.Follow` | src/base/timerfd/TimerfdThreadSimulation.cpp:134-144 | Each event of a one-shot timer is a method of that timer. |
| `OneShots.HistoryComesTo` | src/base/timerfd/TimerfdThreadSimulation.cpp:60-144 | In a legal history each arming fires at most once and not before its expiration, each firing leaves one tick and each reading takes one. |
| `TimerThreads.HelperMissesNoReset` | src/base/timerfd/TimerfdThreadSimulation.cpp:60-115 | In every interleaving with nonzero timestamps: one entry per timer, equal to its expiration_ts_; unread wake bytes are 8 per reset less 4 per read, so at most two wake reads per reset; in poll the set is the one the timeout came from or the pipe is readable. |
| `TimerThreads.RunRefines` | src/base/timerfd/TimerfdThreadSimulation.cpp:60-144 | Each timer's history in any interleaving is a legal history of a one-shot timer with sticky ticks that never fires early. |
| `TimerThreads.StepRefines` | src/base/timerfd/TimerfdThreadSimulation.cpp:60-144 | One step is one event of the abstract timer or invisible to it. |
| `TimerThreads.EventsAreTheOwners` | src/base/timerfd/TimerfdThreadSimulation.cpp:60-144 | That history is armed by the owner's resets, in order, and consumed by the owner's reads, and by nothing else. |
| `TimerThreads.TimerComesTo` | src/base/timerfd/TimerfdThreadSimulation.cpp:60-144 | In any run from the start a timer has at most as many ticks, read or unread, as it was set, and is in the set only for what it was last set to. |
| `TimerThreads.ViewIsWhatIsThere` | src/base/timerfd/TimerfdThreadSimulation.cpp:60-115 | What an owner can know is its entry in the set and the ticks in its pipe or being written. |
| `TimerThreads.ReadableIsRead` | src/base/timerfd/TimerfdThreadSimulation.cpp:93-101 | A poll that finds the wake pipe readable leads to four bytes fewer in it. |
| `TimerThreads.NobodyIsStuck` | src/base/timerfd/TimerfdThreadSimulation.cpp:70-121 | The helper can always take its next step, in poll when its time is up, and owners can always set and read. |
| `TimerThreads.IdleHelperWaits` | src/base/timerfd/TimerfdThreadSimulation.cpp:81-93 | With no timer set the helper polls for ten seconds. |
| `TimerThreads.ArmedIsNeverLost` | src/base/timerfd/TimerfdThreadSimulation.cpp:60-115 | Until its owner reads, a set expiration is in the set, about to be written, or a tick in the pipe. |
| `TimerThreads.HelperWakesInTime` | src/base/timerfd/TimerfdThreadSimulation.cpp:80-93 | Asleep with nothing to read, the helper wakes by itself at the earliest deadline or the minimum millisecond, rounded down to a millisecond, plus exactly the delay between taking the time and entering poll. |
| `TimerThreads.HelperCanOversleep` | src/base/timerfd/TimerfdThreadSimulation.cpp:82-93 | The delay is real: for every delay there is a continuation that sleeps past the deadline by it, less rounding, with an empty pipe. |
| `TimerThreads.ZeroLeavesAStaleEntry` | src/base/timerfd/TimerfdThreadSimulation.cpp:60-65 | A timer set to timestamp zero and then to another is in the set twice. |
| `TimerThreads.ResetKeepsOneEntryExactly` | src/base/timerfd/TimerfdThreadSimulation.cpp:60-65 | Exactly when a reset keeps one entry per timer: unless the timer is waiting for timestamp zero, which reset takes for never set, and is given another. |
| `TimerThreads.StepKeepsInv` | src/base/timerfd/TimerfdThreadSimulation.cpp:60-115 | Every step keeps the invariant behind these, given that condition. |
| `TimerThreads.TimerThread.TakeExpired` | src/base/timerfd/TimerfdThreadSimulation.cpp:103-110 | The loop takes exactly the entries that are due, in order. |
| `TimerThreads.TimerThread.Reset` | src/base/timerfd/TimerfdThreadSimulation.cpp:60-68 | The set afterwards, exactly, and eight more bytes in the pipe. |
| `TimerThreads.TimerfdThreadSimulation.Reset` | src/base/timerfd/TimerfdThreadSimulation.cpp:134-138 | The owner's expiration_ts_ and the shared set move together. |
| `TimerThreads.DueAndRest` | src/base/timerfd/TimerfdThreadSimulation.cpp:106-109 | The taken entries are those with a deadline at or before now, the rest are the others. |
| `WildCard.WildCardMatch` | src/base/logging/easyloggingpp/easylogging++.cc:862-884 | Terminates, and is true exactly when the string splits into pieces, one per pattern character, that fit. |
| `WildCard.Star` | src/base/logging/easyloggingpp/easylogging++.cc:871-876 | The two recursive calls cover exactly the ways a star can match. |
| `WildCard.OneCharacter` | src/base/logging/easyloggingpp/easylogging++.cc:865-880 | A question mark or plain character takes exactly one character. |
| `DateFormat.ParseFormat` | src/base/logging/easyloggingpp/easylogging++.cc:1255-1317 | Writes exactly the first bufSz characters of the unbounded expansion, or all of it if shorter; the character after it is kept or, below the limit, a terminator, and nothing else changes. |
| `DateFormat.TimevalToBuffer` | src/base/logging/easyloggingpp/easylogging++.cc:1187-1195 | The caller's zeroed buffer of 30 holds the expansion as a terminated string if and only if the expansion is shorter than 30; otherwise it holds no terminator. |
| `DateFormat.SomeTextsDoNotFit` | src/base/logging/easyloggingpp/easylogging++.cc:1187-1195 | A format whose expansion is too long for it. |
| `DateFormat.ExpansionHasNoTerminator` | src/base/logging/easyloggingpp/easylogging++.cc:1255-1317 | No field or text puts a terminator into an expansion. |
| `DateFormat.ConvertAndAddToBuff` | src/base/logging/easyloggingpp/easylogging++.cc:989-1002 | Writes the field's text cut off at the limit, for every number and width. |
| `DateFormat.DigitsOf` | src/base/logging/easyloggingpp/easylogging++.cc:989-1002 | The two digit loops yield the zero-padded field, at most eight characters. |
| `DateFormat.AddToBuff` | src/base/logging/easyloggingpp/easylogging++.cc:1004-1008 | Writes as much of the string as fits, and a terminator only below the limit. |
| `DateFormat.AddField` | src/base/logging/easyloggingpp/easylogging++.cc:1259-1311 | Each specifier writes what it stands for; unknown ones nothing. |
| `DateFormat.DefaultFormatReads` | src/base/logging/easyloggingpp/easylogging++.cc:1255-1317 | Round trip: for the default format the pieces at their places read back as year, month, day, hour, minute, second and subsecond part, and the text fits the caller's buffer. |
| `DateFormat.DatesRead` | src/base/logging/easyloggingpp/easylogging++.cc:1267-1288 | The day, month and year specifiers read back as day, month from one, and the year modulo 100 and 10000. |
| `DateFormat.TimesRead` | src/base/logging/easyloggingpp/easylogging++.cc:1289-1300 | The hour, minute and second specifiers read back, the hour also modulo 12. |
| `DateFormat.RestReads` | src/base/logging/easyloggingpp/easylogging++.cc:1301-1308 | AM before twelve and PM from twelve on; the subsecond part reads back to its width. |
| `DateFormat.NamesRead` | src/base/logging/easyloggingpp/easylogging++.cc:1269-1282 | The short names by the index's place in the week and the year, each a prefix of the long one. |
| `DateFormat.OtherSpecifiers` | src/base/logging/easyloggingpp/easylogging++.cc:1261-1311 | Two percent signs give one, one at the end stays, and anything else gives nothing. |
| `DateFormat.TextIsDecimal` | src/base/logging/easyloggingpp/easylogging++.cc:989-1002 | A field of positive width w is the min(w, 8)-digit decimal of n modulo that power of ten. |
| `DateFormat.TwoDigitsRead` | src/base/logging/easyloggingpp/easylogging++.cc:1267-1304 | Two-digit fields read as the value modulo 100. |
| `DateFormat.ExpandConcat` | src/base/logging/easyloggingpp/easylogging++.cc:1258-1315 | A format that does not end inside a specifier expands independently of what follows. |
| `DateFormat.EscapedExpandsToItself` | src/base/logging/easyloggingpp/easylogging++.cc:1259-1262 | Doubling every percent sign round-trips any text. |
| `Decimals.PaddedIsDecimal` | src/base/logging/easyloggingpp/easylogging++.cc:993-1001 | Zero-padded digits denote n modulo ten to the width. |
| `Decimals.DigitsDenote` | src/net/TcpServer.cpp:38-38 | The decimal form of a connection's number denotes it, so no two numbers share one. |
| `Decimals.DigitsAreShort` | src/net/TcpServer.cpp:38-38 | It consists of digits and has no leading zero. |
| `Decimals.DigitsAreTheTen` | src/base/logging/easyloggingpp/easylogging++.cc:993-1001 | The ten digits mean zero to nine, and a further digit ten times as much and itself. |
| `ConfigurationTables.ConfiguredHoldsWhatWasAsked` | src/base/logging/easyloggingpp/easylogging++.cc:349-386 | After setToDefault and any set calls: keys unique, Global's entry first of each kind, and each key bound to the last call that covers it, else the default. |
| `ConfigurationTables.DefaultsMeaning` | src/base/logging/easyloggingpp/easylogging++.cc:364-386 | What setToDefault binds every level and kind to, on a fresh list. |
| `ConfigurationTables.DefaultsInFull` | src/base/logging/easyloggingpp/easylogging++.cc:364-374 | The eight settings, spelled out, at each of the eight levels. |
| `ConfigurationTables.FormatsInFull` | src/base/logging/easyloggingpp/easylogging++.cc:376-385 | The formats, spelled out, level by level. |
| `ConfigurationTables.OneMoreChange` | src/base/logging/easyloggingpp/easylogging++.cc:349-355 | One more set reaches its own level, and from Global all eight, and nothing else. |
| `ConfigurationTables.LevelNumbers` | src/base/logging/easyloggingpp/easylogging++.h:575-597 | The levels' numbers. |
| `ConfigurationTables.SetMeaning` | src/base/logging/easyloggingpp/easylogging++.cc:349-355 | Set binds its key, and at Global every valid level too, and changes nothing else. |
| `ConfigurationTables.SetGloballyMeaning` | src/base/logging/easyloggingpp/easylogging++.cc:559-569 | The same for setGlobally. |
| `ConfigurationTables.SetKeeps` | src/base/logging/easyloggingpp/easylogging++.cc:547-557 | Set keeps keys unique and keeps Global first. |
| `ConfigurationTables.PutMeaning` | src/base/logging/easyloggingpp/easylogging++.cc:547-553 | Updating in place or appending changes one binding only. |
| `ConfigurationTables.VisitedIsValid` | src/base/logging/easyloggingpp/easylogging++.cc:174-182 | Doubling from the least valid level visits exactly the valid levels. |
| `TypedTables.LookupIsWhatWasAsked` | src/base/logging/easyloggingpp/easylogging++.h:1968-2023 | After build, looking up any level gives the parsed value last asked for at that level, or globally if none was; the table holds only exceptions to Global's value. |
| `TypedTables.DefaultsAreOn` | src/base/logging/easyloggingpp/easylogging++.cc:364-374 | After setToDefault and build, all three flags look up as on and both limits as zero at each of the eight levels. |
| `TypedTables.SwitchingWorks` | src/base/logging/easyloggingpp/easylogging++.cc:1674-1709 | After one more set, whatever came before, the flag looks up as on at that level, or from Global at all eight, exactly if the word is TRUE, true or 1 with any white space around it; every other lookup is as before. |
| `TypedTables.FlagWords` | src/base/logging/easyloggingpp/easylogging++.cc:1676-1679 | A flag's value is true exactly for those three words, white space at the ends aside. |
| `TypedTables.NumbersRead` | src/base/logging/easyloggingpp/easylogging++.cc:1728-1741 | A number is read from its decimal form with white space around it; anything else is zero. |
| `TypedTables.PrecisionsRead` | src/base/logging/easyloggingpp/easylogging++.cc:1408-1412 | A width outside one to six is three. |
| `TypedTables.SpacesAre` | src/base/logging/easyloggingpp/easylogging++.cc:886-902 | White space is the six characters of the C locale. |
| `TypedTables.StoredLookup` | src/base/logging/easyloggingpp/easylogging++.h:1968-2023 | What lookups return after setValue: the value at its level, except exactly when it is Global's value and the level has another of its own, which stays; at Global, the value for every level without its own; all other lookups are unchanged, but the first value of all goes everywhere. |
| `TypedTables.LastDecides` | src/base/logging/easyloggingpp/easylogging++.cc:1699-1704 | For SubsecondPrecision and PerformanceTracking the last entry in the list decides for every level. |
| `TypedTables.AgreementExactly` | src/base/logging/easyloggingpp/easylogging++.h:1968-2023 | For any list with unique keys: lookups agree with the list if and only if Global's value, if present, equals that of the first entry of its kind. |
| `TypedTables.WithoutDefaultsAChangeIsLost` | src/base/logging/easyloggingpp/easylogging++.h:2002-2023 | The failing family without setToDefault: set a level, then Global, then the level again, and the level still looks up Global's value. |
| `TypedTables.InfoStaysOff` | src/base/logging/easyloggingpp/easylogging++.h:2002-2023 | An instance: Info enabled again stays disabled. |
| `TypedTables.BuiltAgrees` | src/base/logging/easyloggingpp/easylogging++.cc:1674-1709 | Building keeps agreement entry by entry, and the table compressed. |
| `LoggerConfigurations.Configure` | src/base/logging/easyloggingpp/easylogging++.cc:364-386 | The objects, from constructor through setToDefault and any set calls to build: every level of Enabled, ToFile, ToStandardOutput, MaxLogFileSize and LogFlushThreshold looks up what is in force. |
| `LoggerConfigurations.Configurations.Set` | src/base/logging/easyloggingpp/easylogging++.cc:349-355 | The list of objects changes as the table function says. |
| `LoggerConfigurations.Configurations.UnsafeSet` | src/base/logging/easyloggingpp/easylogging++.cc:547-557 | Update in place or append, and at Global over all levels. |
| `LoggerConfigurations.Configurations.UnsafeSetGlobally` | src/base/logging/easyloggingpp/easylogging++.cc:571-581 | The walk over the levels. |
| `LoggerConfigurations.Configurations.SetGlobally` | src/base/logging/easyloggingpp/easylogging++.cc:559-569 | The public walk, with or without Global itself. |
| `LoggerConfigurations.Configurations.SetToDefault` | src/base/logging/easyloggingpp/easylogging++.cc:364-386 | The whole default sequence. |
| `LoggerConfigurations.Configurations.Get` | src/base/logging/easyloggingpp/easylogging++.h:1519-1526 | Finds the first entry with the key, or none. |
| `LoggerConfigurations.TypedConfigurations.Build` | src/base/logging/easyloggingpp/easylogging++.cc:1674-1709 | Its seven tables without file names and formats are those built from the list, entry by entry. |

## Left out

- Socket calls, addresses, endianness and `Buffer`: foreign calls and a string append; a read is an outcome and accept a descriptor.
- `run_in_loop`, thread identity checks and `EventLoopThread`: either a direct call or `queue_in_loop`, and a one-shot handshake.
- Pipe capacity: pipes are unbounded counters, so a full pipe that blocks a writer is not modelled.
- The poll timeout of ten seconds: it is a return of poll with nothing to read, and no liveness is claimed from it.
- EventLoopProtocol.EventLoop.Loop: states a prefix of at most `rounds` iterations, because the loop need not end; every prefix is covered.
- Polling.Channel.HandleEvent: lists the callbacks in order; what they do is modelled where they are (TcpServing, TimerQueues, EventLoopProtocol).
- Threads in `TcpServing` and `TimerQueues`: other threads appear as functors queued between steps; the atomicity of the queue itself is EventLoopProtocol's.
- ServerRefinement.Serve: a handler that changes no connection and is not a connection's (the wakeup pipe's, the timer's) is a step without a method here, and a connection's handler is called directly, as `Polling.Channel.HandleEvent` with only a read callback set would call it.
- LoggerConfigurations.TypedConfigurations.Build: the Filename tables, and the ToFile values that are turned off when a file cannot be created, depend on the file system, and the Format table compares parsed formats.
- TimerQueues.TimerQueue.AddTimer: over the simulated timerfd, deadlines are not timestamp zero, which that timerfd takes for "never set".
- `start()` from another thread: `TcpServer.h` calls it thread safe, but the code asserts the loop thread.
- Destructors, shared ownership and closing of descriptors: `close_callback_` keeps its connection alive, so nothing is claimed about destruction; a descriptor counts as open while it is registered.
- Callbacks that throw, that call `connect_establish` or `connect_destoryed` themselves, or that run the loop recursively.
- Repeating and cancelled timers: `TimerQueue.h` mentions them, but the code stores the interval and never uses it.
- Overflow of 64-bit nanoseconds, of `next_connect_id_`, of the cast of the helper's wait to `int`, of `atol` and of tm_year + 1900: numbers are unbounded, except that integers passed as `size_t` wrap.
- Timers with equal deadlines: ordered by an identity, as the code orders them by pointer; no claim about which of them is first.
- `TimerThread` construction and shutdown: the model starts with the helper running.
- `convertAndAddToBuff` without zero padding: every date field uses padding.
- The calendar: the broken-down time is an input, with `tm_wday` and `tm_mon` in the ranges that index the name tables.
- The internal error that an invalid number prints: the value is zero, as in a build in which that assertion does not abort.
- Parsing of configuration files, `setRemainingToDefault`, `Logger`, writers, file rolling, crash handling and `Daytime`: easy members or platform plumbing.
