# Verified models of the iocp kernel

The repository adds *concurrency management groups* to Linux 3.14.3: a group limits how many of its
tasks are runnable at once, and makes tasks that want events from an epoll set or an AIO context wait
until there is an opening. This project models that code, the epoll, AIO and tasklet machinery it is built on, and the
real-time and deadline budgets of the scheduler it hooks into, and proves their central properties.

Run `dafny verify dfyconfig.toml` to check everything.

| module | what it models |
|---|---|
| `CmModel` | one group, any number of tasks, its tasklet, epoll and AIO objects, as an interleaving machine: every atomic operation, lock operation and pointer update is one step |
| `CmInv`, `CmProof`, `CmLocal`, `CmSpecial`, `CmObjects`, `CmTasklet` | the inductive invariant and its preservation, program counter by program counter |
| `CmTheorems` | what the invariant gives in every reachable state |
| `CmRequests`, `CmLeftBehind` | how long an epoll request lives, and a run in which one is lost |
| `CmProgress` | an owed wakeup is delivered within a bounded number of steps |
| `CmWaits`, `CmDecisions` | when a task is held back and let go, how the wait queues are ordered, what each decision leads to |
| `CmAccounting` | run-queue hooks, flag words and moves of tasks across several groups, as in-place updates |
| `EpollLoop`, `EpollPaths` | the nested-epoll search, with other tasks deleting items meanwhile, and the wakeup-path counter, with their recursion through `ep_call_nested` |
| `EpollCtl` | both checks together, on the two lists that hold each item |
| `EpollReady` | ready-list transfer against concurrent callbacks, and its linked representation |
| `AioSizing`, `AioRing`, `AioAdmission`, `AioPaged` | sizes and page layout of the completion ring, the ring with its per-CPU slot credits as an interleaving machine, what a refusal means, and the chunked read |
| `Tasklets` | tasklet scheduling on any number of CPUs, as an interleaving machine |
| `RtRuntime` | borrowing and reclaiming of real-time budget |
| `DlTime`, `DlBudget`, `DlQueue` | wrapping time stamps, the constant bandwidth server, the earliest-deadline-first tree |
| `SeqSums`, `Lists`, `Arith` | sums and lists and facts about quotients, shared by the proofs |

The machines assume sequentially consistent atomics. A lock is a step that is enabled while the lock is free.
What depends on users, timers, signals or memory (a copy that faults, a wakeup by a signal, a failing allocation) is a
free choice of the machine or a parameter.

## Model

| member | source | states |
|---|---|---|
| `CmTheorems.RunKeeps` | src/linux-3.14.3-iocp/fs/cmgroup.c:276-811 | any interleaving of blocking, waking, waiting, limit changes, association, attach, detach, tasklet runs and foreign groups keeps the invariant |
| `CmTheorems.StepKeeps` | src/linux-3.14.3-iocp/fs/cmgroup.c:419-514 | the same for one step of any task, the tasklet or the environment |
| `CmTheorems.NoLostWakeup` | src/linux-3.14.3-iocp/fs/cmgroup.c:341-399 | with an opening and a sleeper on the local queue, a tasklet run is active, about to be fired, or between clearing its flag and its recheck |
| `CmTheorems.NoLostRequest` | src/linux-3.14.3-iocp/fs/eventpoll.c:591-609 | a pending epoll request and an opening never coexist unless a tasklet run is owed in the same sense |
| `CmRequests.RequestSurvives` | src/linux-3.14.3-iocp/fs/eventpoll.c:1782-1828 | a pending request survives a step if and only if the step is not the tasklet serving it, a waiter leaving its sleep, or the detach |
| `CmRequests.PendingExactly` | src/linux-3.14.3-iocp/fs/eventpoll.c:1796-1815 | the same over whole runs: it stays pending exactly along the runs without such a step |
| `CmRequests.RequesterIsCovered` | src/linux-3.14.3-iocp/fs/eventpoll.c:596-605 | from the moment a task makes its request, along every such run, an opening means that a tasklet run that will see the request is owed |
| `CmLeftBehind.WaiterLeftBehind` | src/linux-3.14.3-iocp/fs/eventpoll.c:1815-1820 | a reachable state with an opening, a waiter asleep that asked for one, and nothing in flight: another waiter, woken by a signal, had reset the shared action |
| `CmProgress.WakeupDelivered` | src/linux-3.14.3-iocp/fs/cmgroup.c:419-514 | from every reachable state with an opening and a local sleeper, at most 300 steps of the tasklet, the claimant of its flag and the lock holder wake a sleeper, unless the opening or the last sleeper is gone |
| `CmWaits.LeavesOnlyWithRoom` | src/linux-3.14.3-iocp/fs/cmgroup.c:645-660 | over every run: a task that waits, in either wait function, and is neither signalled nor timed out, stays in the wait until it has itself found `available` not negative at a check of that function |
| `CmWaits.QueuedOnlyWhenFull` | src/linux-3.14.3-iocp/fs/cmgroup.c:695-702 | over every run: a task comes onto the group's own queue only after finding `available` negative under the lock |
| `CmWaits.QueueOrder` | src/linux-3.14.3-iocp/fs/cmgroup.c:701-702 | every step keeps the order of every wait queue; newcomers go to the tail of the group's own queue and to the head of an epoll set's |
| `CmWaits.WakesOnlyIntoRoom` | src/linux-3.14.3-iocp/fs/cmgroup.c:433-490 | over every run: the tasklet comes to a wakeup only by way of a check that saw an opening |
| `CmWaits.TaskletNeedsRoom` | src/linux-3.14.3-iocp/fs/cmgroup.c:433-490 | each step of the tasklet changes a task only at its two wakeups, which are entered only with an opening |
| `CmWaits.CallbackNeedsRoom` | src/linux-3.14.3-iocp/fs/eventpoll.c:591-609 | a callback wakes a waiter of a bound set exactly with an opening, otherwise it leaves a request |
| `CmDecisions.FastCheck` | src/linux-3.14.3-iocp/fs/cmgroup.c:651-653 | the fast check lets a task go exactly when `available` is not negative |
| `CmDecisions.LockedCheck` | src/linux-3.14.3-iocp/fs/cmgroup.c:695-700 | with room the check under the lock ends the wait, lock released, in two steps |
| `CmDecisions.EpollCheck` | src/linux-3.14.3-iocp/fs/eventpoll.c:1794-1797 | with room the epoll waiter leaves, without it requests an opening |
| `CmDecisions.WaiterBlocks` | src/linux-3.14.3-iocp/fs/cmgroup.c:701-728 | a member that decided to wait ends up queued last, off its run queue, uncharged, the lock free and `available` one higher |
| `CmDecisions.RequesterBlocks` | src/linux-3.14.3-iocp/fs/eventpoll.c:1805-1815 | the same in the epoll wait, with the request pending |
| `CmDecisions.CallbackWakes` | src/linux-3.14.3-iocp/fs/eventpoll.c:606-608 | a callback that wakes makes the first sleeper of the queue runnable |
| `CmDecisions.AttachWakesWaiters` | src/linux-3.14.3-iocp/fs/eventpoll.c:2130-2167 | attaching an epoll set wakes everybody who waits on it |
| `CmDecisions.FivePasses` | src/linux-3.14.3-iocp/fs/cmgroup.c:452-461 | in every reachable state the running tasklet has made at most five passes |
| `CmDecisions.PassStep` | src/linux-3.14.3-iocp/fs/cmgroup.c:452-461 | each pass counts one, and only the fifth leads to a handover |
| `CmDecisions.LegalLimits` | src/linux-3.14.3-iocp/fs/cmgroup.c:889-900 | a group created with a legal limit keeps one between 1 and 1048576 along every run |
| `CmProgress.ReachableOwner` | src/linux-3.14.3-iocp/fs/cmgroup.c:109-143 | whoever owns the group's own lock is at a place that gives it back |
| `CmTheorems.QuietMeansServed` | src/linux-3.14.3-iocp/fs/cmgroup.c:680-760 | once no group code is in flight, an opening means that no request is pending and no local waiter is asleep |
| `CmTheorems.TaskletWakesFirst` | src/linux-3.14.3-iocp/fs/cmgroup.c:419-514 | a scheduled tasklet that gets the lock wakes exactly the longest-waiting sleeper, takes it off the queue and keeps its flag |
| `CmTheorems.ActiveHasOneClaimant` | src/linux-3.14.3-iocp/fs/cmgroup.c:276-308 | `tasklet_active` is set exactly while one party claims it: a firing task, a scheduled or running tasklet, or a lockout |
| `CmTheorems.ScheduleNeverMerges` | src/linux-3.14.3-iocp/fs/cmgroup.c:452-514 | `tasklet_schedule` never finds the tasklet already scheduled, so the reference handed over is never lost |
| `CmTheorems.PointersHeldStill` | src/linux-3.14.3-iocp/fs/cmgroup.c:736-811 | while the tasklet owns its flag or holds the lock, no step of anybody changes `lock`, `wq` or the attachment |
| `CmTheorems.UnlocksMatch` | src/linux-3.14.3-iocp/fs/cmgroup.c:109-143 | every unlock through `cmgroup->lock` releases the lock that was taken, still held by the releaser |
| `CmTheorems.OneToOne` | src/linux-3.14.3-iocp/include/linux/cmgroup.h:224-287 | group and epoll or AIO object name each other, never both kinds; `lock` and `wq` are remote exactly when attached to epoll |
| `CmTheorems.WaitNeverRemote` | src/linux-3.14.3-iocp/fs/cmgroup.c:680-735 | a waiter for an AIO context always finds the group's own queue and lock |
| `CmTheorems.DetachQueueEmpty` | src/linux-3.14.3-iocp/fs/cmgroup.c:766-811 | detaching finds the wait queue empty, so its wait loop never iterates |
| `CmTheorems.RefsConserved` | src/linux-3.14.3-iocp/fs/cmgroup.c:521-550 | `kref` equals open file + associations + attachment + tasklet ownership + references held by running calls; at zero no holder is left |
| `CmTheorems.NoUseAfterFree` | src/linux-3.14.3-iocp/fs/cmgroup.c:452-514 | group code in progress implies a live reference |
| `CmTheorems.FreedOnce` | src/linux-3.14.3-iocp/fs/cmgroup.c:195-213 | once the count is zero no step raises it again |
| `CmTheorems.Accounting` | src/linux-3.14.3-iocp/include/linux/cmgroup.h:77-95 | at quiescent points `available` is the limit minus the group's runnable tasks, and charged means on a run queue |
| `CmTheorems.AccountingInFlight` | src/linux-3.14.3-iocp/fs/cmgroup.c:321-399 | in every reachable state the difference is exactly the charges and limit changes still in flight |
| `CmAccounting.Accounts.Enqueue` | src/linux-3.14.3-iocp/kernel/sched/core.c:762-768 | keeps `available == limit - runnable` for every group; charges a group exactly when its task was off every run queue |
| `CmAccounting.Accounts.Dequeue` | src/linux-3.14.3-iocp/kernel/sched/core.c:770-776 | the same for a dequeue; the tasklet is fired exactly on a crossing to one opening |
| `CmAccounting.Accounts.Associate` | src/linux-3.14.3-iocp/fs/cmgroup.c:521-535 | moves one charge from the old group to the new one and keeps every group's balance |
| `CmAccounting.Accounts.Dissociate` | src/linux-3.14.3-iocp/fs/cmgroup.c:540-550 | returns the charge, fires exactly on a crossing |
| `CmAccounting.Accounts.SetLimit` | src/linux-3.14.3-iocp/fs/cmgroup.c:889-920 | accepts exactly the legal values, shifts `available` by the change, fires exactly on a crossing |
| `CmAccounting.Accounts.Fork` | src/linux-3.14.3-iocp/kernel/fork.c:313-317 | a new task disturbs no group, whatever its stale charge field holds |
| `CmAccounting.SuppressedEnqueue` | src/linux-3.14.3-iocp/include/linux/cmgroup.h:201-212 | suppressing an enqueue keeps the charge right if and only if the matching dequeue was suppressed |
| `CmAccounting.HasIsTheBit` | src/linux-3.14.3-iocp/kernel/sched/sched.h:1104-1116 | a flag word has the bit exactly if it is set, whatever the bits below and above |
| `EpollLoop.AddKeepsAcyclic` | src/linux-3.14.3-iocp/fs/eventpoll.c:2052-2074 | adding a link to an acyclic graph keeps it acyclic if and only if the parent was not reachable from the target |
| `EpollLoop.RunsStayAcyclic` | src/linux-3.14.3-iocp/fs/eventpoll.c:2052-2105 | every run of accepted additions and deletions stays acyclic, even with deletions between search and insertion |
| `EpollLoop.Nesting.CallNested` | src/linux-3.14.3-iocp/fs/eventpoll.c:409-455 | refuses a repeated cookie or too many levels, restores the call list, covers what is reachable, marks only sets within the depth limit, even while others delete items |
| `EpollLoop.Nesting.LoopCheckProc` | src/linux-3.14.3-iocp/fs/eventpoll.c:1847-1887 | the marking search terminates and closes the marked region unless it reports an error |
| `EpollLoop.Nesting.LoopCheck` | src/linux-3.14.3-iocp/fs/eventpoll.c:1900-1914 | zero only if the parent is unreachable in the graph left at the end; then every reachable set is within the depth limit by some chain and every reachable file is listed; an error only for a real path or a chain over the limit; exact when no set is reached by chains of two lengths; all marks cleared |
| `EpollLoop.DepthDependsOnOrder` | src/linux-3.14.3-iocp/fs/eventpoll.c:1889-1899 | the same links in two orders, a chain over the depth limit in both: one is accepted, the other refused |
| `EpollLoop.Nesting.CtlAdd` | src/linux-3.14.3-iocp/fs/eventpoll.c:2052-2090 | keeps the graph acyclic although others delete items during and after the search; a success is a legal step of `RunsStayAcyclic`; without interference refuses every addition that would close a cycle |
| `EpollLoop.Nesting.CtlDel` | src/linux-3.14.3-iocp/fs/eventpoll.c:2091-2096 | removes exactly one link and keeps the graph acyclic |
| `EpollCtl.Control.CtlAdd` | src/linux-3.14.3-iocp/fs/eventpoll.c:2052-2090 | the exact answer in terms of the state before: a loop error exactly if the search refuses, "exists" exactly for an accepted item already there, success exactly for a new accepted item whose affected files stay within the limits where the full check is made; keeps every ordinary file within the limits; a refusal leaves both item lists as they were |
| `EpollCtl.Control.CtlDel` | src/linux-3.14.3-iocp/fs/eventpoll.c:2091-2096 | a deletion keeps the limits if what was watched is a file or still watched; otherwise exactly if the paths that then end there fit too |
| `EpollCtl.CheckedIsEnough` | src/linux-3.14.3-iocp/fs/eventpoll.c:1372-1375 | checking the listed files is enough: no other file's paths change |
| `EpollCtl.LastDropKeepsLimits` | src/linux-3.14.3-iocp/fs/eventpoll.c:1171-1183 | the exact condition for deleting a last watch, counted before the deletion |
| `EpollCtl.DeletionBreaksLimits` | src/linux-3.14.3-iocp/fs/eventpoll.c:1171-1183 | a graph within the limits that a deletion pushes over one |
| `EpollPaths.LimitsInNumbers` | src/linux-3.14.3-iocp/fs/eventpoll.c:1183-1195 | the limits as numbers: 500, 100, 50 and 10 paths of two to five links, none longer, any number of one link |
| `EpollPaths.PathsCounts` | src/linux-3.14.3-iocp/fs/eventpoll.c:1171-1185 | the recursive count is the number of distinct maximal upward paths of that length |
| `EpollPaths.PathCheck.Proc` | src/linux-3.14.3-iocp/fs/eventpoll.c:1205-1243 | on success the counters grew by exactly the path counts; it fails exactly when a limit or the depth is exceeded; every index is in bounds |
| `EpollPaths.PathCheck.Check` | src/linux-3.14.3-iocp/fs/eventpoll.c:1250-1265 | zero if and only if every file has no upward chain that is too long and no length with too many maximal paths |
| `EpollReady.NoEventLost` | src/linux-3.14.3-iocp/fs/eventpoll.c:631-718 | over every interleaving, from an accepted callback, readiness when added, a level-triggered report, a report that faulted or a read that found it ready, an item stays on a list or in hand until it is polled again or removed |
| `EpollReady.ListedExactly` | src/linux-3.14.3-iocp/fs/eventpoll.c:1043-1125 | an item is listed after a step exactly if it was and the step does not drop it, or the step is one of those causes |
| `EpollReady.OffUntilCause` | src/linux-3.14.3-iocp/fs/eventpoll.c:1525-1582 | over every run an item that is off the lists stays off until there is a cause |
| `EpollReady.RequeuedOnlyByCallback` | src/linux-3.14.3-iocp/fs/eventpoll.c:1555-1578 | an edge-triggered or one-shot item that was reported, and any item found idle, is ready after the transfer if and only if a callback for it was accepted during the transfer |
| `EpollReady.EarlyCallbackRequeues` | src/linux-3.14.3-iocp/fs/eventpoll.c:1082-1098 | a callback accepted before the poll of the same transfer is enough for that |
| `EpollReady.ListsAreSound` | src/linux-3.14.3-iocp/fs/eventpoll.c:645-696 | in every run no item is linked twice, and between transfers the private and overflow lists are empty |
| `EpollReady.AtMostMaxEvents` | src/linux-3.14.3-iocp/fs/eventpoll.c:1525-1527 | a transfer reports at most maxevents events |
| `EpollReady.FillsTheBuffer` | src/linux-3.14.3-iocp/fs/eventpoll.c:1525-1527 | without faults it stops only when the list is empty or exactly maxevents were reported |
| `EpollReady.ReadableExactly` | src/linux-3.14.3-iocp/fs/eventpoll.c:843-874 | polling the set finds it readable exactly if an armed item on the list is ready, otherwise everything idle is taken off; nothing is reported |
| `EpollReady.FaultedIsNext` | src/linux-3.14.3-iocp/fs/eventpoll.c:1556-1561 | an item whose report faulted is first on the ready list afterwards |
| `EpollReady.NoOvertaking` | src/linux-3.14.3-iocp/fs/eventpoll.c:667-696 | the ready list grows at its tail only, and leftovers go in front of it |
| `EpollReady.NeverStuck` | src/linux-3.14.3-iocp/fs/eventpoll.c:1525-1582 | in every state of a transfer it has a step to take, and a measure bounds how many |
| `EpollReady.RemovedIsGone` | src/linux-3.14.3-iocp/fs/eventpoll.c:730-765 | a removed item is never listed again before it is added anew, whatever callbacks come |
| `EpollReady.RunKeeps` | src/linux-3.14.3-iocp/fs/eventpoll.c:1507-1585 | the list invariant holds along every run from any state that has it |
| `EpollReady.NoStarvation` | src/linux-3.14.3-iocp/fs/eventpoll.c:667-696 | an item at position p of the ready list is polled by the time p / maxevents + 1 transfers have completed |
| `EpollReady.OneShotReportsOnce` | src/linux-3.14.3-iocp/fs/eventpoll.c:1562-1565 | after a one-shot item was reported nothing reports it again before it is armed anew, even with callbacks under way |
| `EpollReady.UnpolledBoundsScans` | src/linux-3.14.3-iocp/fs/eventpoll.c:1525-1582 | as long as an item stays unpolled, completed transfers times maxevents cannot exceed its position |
| `EpollReady.EventPoll.Callback` | src/linux-3.14.3-iocp/fs/eventpoll.c:1043-1125 | on the linked representation, does what the abstract callback does; the link word alone tells whether the item is chained |
| `EpollReady.EventPoll.ScanBegin` | src/linux-3.14.3-iocp/fs/eventpoll.c:645-660 | steals the ready list and opens the overflow list, as in the abstract machine |
| `EpollReady.EventPoll.ScanEnd` | src/linux-3.14.3-iocp/fs/eventpoll.c:664-696 | walks the chain, requeues as in the abstract machine, and leaves every `next` link inactive |
| `AioSizing.PlacesAreSound` | src/linux-3.14.3-iocp/fs/aio.c:457-459 | whenever the event size divides the page size, each index has its own slot, inside the pages, not across a page end, clear of the header |
| `AioSizing.RingFillsPages` | src/linux-3.14.3-iocp/fs/aio.c:388-391 | ring size plus offset is exactly the slot count of the allocated pages |
| `AioSizing.RingIsBigEnough` | src/linux-3.14.3-iocp/fs/aio.c:363-391 | the ring always holds the two extra entries asked for |
| `AioSizing.AcceptedExactly` | src/linux-3.14.3-iocp/fs/aio.c:629-641 | which requests are accepted, in numbers, for every request and CPU count, and which error the others get |
| `AioSizing.OrdinaryRequest` | src/linux-3.14.3-iocp/fs/aio.c:614-641 | a request for 128 events on four CPUs is accepted |
| `AioSizing.SizesAreTight` | src/linux-3.14.3-iocp/fs/aio.c:375-391 | the ring is the request rounded up by less than a page, the batch the largest quarter share per CPU |
| `AioSizing.UnwrappedSizes` | src/linux-3.14.3-iocp/fs/aio.c:614-671 | without wrap-around the context has more than twice the requested slots and batches of at most a quarter per CPU |
| `AioSizing.WrappedSizes` | src/linux-3.14.3-iocp/fs/aio.c:630-641 | when the 32-bit doubling wraps and the call still succeeds, the ring is smaller than the request |
| `AioSizing.WrappingRequestExists` | src/linux-3.14.3-iocp/fs/aio.c:630-641 | a concrete request for which that happens |
| `AioRing.RunKeeps` | src/linux-3.14.3-iocp/fs/aio.c:810-854 | every interleaving of credit takers, completions and readers keeps the invariant |
| `AioRing.Conservation` | src/linux-3.14.3-iocp/fs/aio.c:810-878 | credits (global, per CPU, in transit) + in flight + unread + freed is always `nr_events - 1`; what was delivered followed by what is queued is the completion order |
| `AioRing.NeverOverwrites` | src/linux-3.14.3-iocp/fs/aio.c:919-983 | a completion never stores over an unread event |
| `AioRing.RefinesBoundedQueue` | src/linux-3.14.3-iocp/fs/aio.c:919-1088 | each step is an enqueue with room, a dequeue of a prefix, or nothing, on a bounded first-in first-out queue |
| `AioRing.ReadsExactly` | src/linux-3.14.3-iocp/fs/aio.c:1042-1083 | a read ends exactly with what was asked for or was queued when it began, whichever is less, can always copy the next event until then, and a fault takes nothing |
| `AioRing.ReadBegins` | src/linux-3.14.3-iocp/fs/aio.c:1032-1041 | a read has in view the events queued when it begins, and does nothing on an empty ring |
| `AioAdmission.ReturningIsPut` | src/linux-3.14.3-iocp/fs/aio.c:810-824 | what put calls in progress still have to hand on is at most what they were asked to put back |
| `AioRing.PerCpuBound` | src/linux-3.14.3-iocp/fs/aio.c:810-824 | outside a put, a CPU holds less than two batches; a put that moves a batch on leaves the CPU another |
| `AioAdmission.RefusalMeansHalfUsed` | src/linux-3.14.3-iocp/fs/aio.c:826-854 | a refusal happens only with at least half the slots in use or being given back |
| `AioAdmission.AdmissionGuarantee` | src/linux-3.14.3-iocp/fs/aio.c:614-671 | a context sized for n requests refuses only with n slots busy or on their way back, if and only if doubling n fits in 32 bits |
| `AioAdmission.SettledAdmission` | src/linux-3.14.3-iocp/fs/aio.c:614-671 | when nothing is on its way back, it refuses only with n slots holding a request or an unread event, under the same exact condition |
| `AioAdmission.RefusalWithNothingInUse` | src/linux-3.14.3-iocp/fs/aio.c:1075-1083 | whatever the sizes, a run ends in a refusal with nothing in flight and nothing unread: a reader has not yet put its slots back |
| `AioAdmission.StrictFails` | src/linux-3.14.3-iocp/fs/aio.c:614-671 | without that condition the strict guarantee holds of no context, unless nothing was asked for |
| `AioPaged.ChunkStays` | src/linux-3.14.3-iocp/fs/aio.c:1049-1060 | a chunk is never empty and never crosses the tail, the wrap point or a page end |
| `AioPaged.Kioctx.Complete` | src/linux-3.14.3-iocp/fs/aio.c:952-983 | appends exactly one event to the queue read off the pages |
| `AioPaged.Kioctx.ReadEvents` | src/linux-3.14.3-iocp/fs/aio.c:1024-1088 | delivers exactly the first min(nr, queued) events into the caller's buffer and drops them, or on a fault leaves the queue unchanged |
| `Tasklets.RunKeeps` | src/linux-3.14.3-iocp/kernel/softirq.c:451-540 | every interleaving of schedulers, softirqs and disables on any number of CPUs keeps the invariant |
| `Tasklets.OnExactlyOneList` | src/linux-3.14.3-iocp/kernel/softirq.c:451-480 | a set SCHED bit means exactly one place on a list, in a hand, or about to be linked; a clear one means none |
| `Tasklets.NeverRunsTwice` | src/linux-3.14.3-iocp/include/linux/interrupt.h:414-424 | a tasklet never runs on two CPUs at once |
| `Tasklets.OneRunPerSetting` | src/linux-3.14.3-iocp/include/linux/interrupt.h:414-424 | settings of SCHED and runs are equal in number, up to the one setting outstanding |
| `Tasklets.NeverBug` | src/linux-3.14.3-iocp/kernel/softirq.c:506-540 | the BUG in `tasklet_action` is unreachable |
| `Tasklets.ListsAreServed` | src/linux-3.14.3-iocp/kernel/softirq.c:243-292 | a list that is not empty has its softirq pending, or taken and about to be handled |
| `Tasklets.ScheduledWillBeSeen` | src/linux-3.14.3-iocp/include/linux/interrupt.h:414-424 | a scheduled tasklet is about to be linked, or waits at a CPU that will still get to it |
| `Tasklets.Delivered` | src/linux-3.14.3-iocp/kernel/softirq.c:506-540 | from every reachable state, an enabled tasklet on a pending CPU's list, not running elsewhere, is run once by that CPU within five steps for each listed tasklet |
| `Tasklets.PassOne` | src/linux-3.14.3-iocp/kernel/softirq.c:515-539 | the head of the drained list is run exactly once if enabled and not running elsewhere, otherwise put back with the softirq raised and not run |
| `Tasklets.SoftirqServesAll` | src/linux-3.14.3-iocp/kernel/softirq.c:243-292 | a softirq that finds only enabled tasklets runs each once and leaves nothing listed and nothing pending |
| `Tasklets.DisableThenEnable` | src/linux-3.14.3-iocp/include/linux/interrupt.h:508-525 | disable and enable undo each other; disabling an idle tasklet takes hold at once |
| `Tasklets.DisabledMeansIdle` | src/linux-3.14.3-iocp/include/linux/interrupt.h:508-525 | from the return of `tasklet_disable` to the matching enable the function runs nowhere |
| `RtRuntime.RtBandwidth.Conservation` | src/linux-3.14.3-iocp/kernel/sched/rt.c:553-709 | the enabled queues together hold the group's runtime once each |
| `RtRuntime.RtBandwidth.DoBalance` | src/linux-3.14.3-iocp/kernel/sched/rt.c:553-605 | it reports `more` exactly when some neighbour has time to spare, each lender asked gives one n-th of its unused time, borrowing stops early only at the period, the borrower is never lifted above the period, totals are kept and nobody goes into debt |
| `RtRuntime.RtBandwidth.Balance` | src/linux-3.14.3-iocp/kernel/sched/rt.c:711-725 | borrowing happens exactly when the queue is over its budget |
| `RtRuntime.RtBandwidth.Reclaim` | src/linux-3.14.3-iocp/kernel/sched/rt.c:639-674 | the greedy reclaim always ends with nothing wanted, taking only from enabled neighbours |
| `RtRuntime.RtBandwidth.Disable` | src/linux-3.14.3-iocp/kernel/sched/rt.c:608-685 | `BUG_ON(want)` is never hit and the remaining queues stay balanced |
| `RtRuntime.RtBandwidth.Enable` | src/linux-3.14.3-iocp/kernel/sched/rt.c:687-709 | a disabled queue comes back with a full budget and the balance is kept |
| `RtRuntime.EnableConserves` | src/linux-3.14.3-iocp/kernel/sched/rt.c:687-709 | the reset keeps the balance if and only if the queue was disabled or level with the group |
| `DlTime.BeforeIsLess` | src/linux-3.14.3-iocp/kernel/sched/sched.h:118-121 | times less than 2^63 apart compare as their wrapped stamps do |
| `DlTime.Transitive` | src/linux-3.14.3-iocp/kernel/sched/sched.h:118-130 | inside a window shorter than 2^63 the comparison is a strict total order |
| `DlTime.CircleWithoutWindow` | src/linux-3.14.3-iocp/kernel/sched/sched.h:118-121 | outside one it is not: three stamps can precede each other in a circle |
| `DlBudget.DlEntity.UpdateCurr` | src/linux-3.14.3-iocp/kernel/sched/deadline.c:543-610 | charges exactly the execution, on a miss forfeits the rest and charges the lateness, reports exhaustion or a miss exactly, and stays on the budget line |
| `DlBudget.DlEntity.Replenish` | src/linux-3.14.3-iocp/kernel/sched/deadline.c:290-337 | terminates, grants the least number of budgets that ends the debt with one period each, leaves a budget between 1 and `dl_runtime`, stays on the line, and resets exactly when still late |
| `DlBudget.DlEntity.Update` | src/linux-3.14.3-iocp/kernel/sched/deadline.c:402-422 | a woken entity is not late; one that keeps its budget is within its bandwidth; one that is reset is so if and only if its deadline is no shorter than its period |
| `DlBudget.FreshBudget` | src/linux-3.14.3-iocp/kernel/sched/deadline.c:418-421 | the exact condition for a fresh budget to fit the bandwidth it is tested against |
| `DlBudget.ConstrainedDeadline` | src/linux-3.14.3-iocp/kernel/sched/deadline.c:354-361 | parameters whose fresh budget does not |
| `DlBudget.GrantStaysOnLine` | src/linux-3.14.3-iocp/kernel/sched/deadline.c:307-316 | granting any number of budgets preserves (deadline - d0) * dl_runtime == (runtime + charged - r0) * dl_period |
| `DlBudget.ConsumptionIsBounded` | src/linux-3.14.3-iocp/kernel/sched/deadline.c:273-289 | an entity without debt has consumed at most its bandwidth up to its deadline plus its initial budget |
| `DlBudget.LeastGrantIsLeast` | src/linux-3.14.3-iocp/kernel/sched/deadline.c:307-316 | no smaller number of periods would have ended the debt |
| `DlBudget.OverflowMeans` | src/linux-3.14.3-iocp/kernel/sched/deadline.c:363-391 | the 64-bit test compares the two bandwidth products as integers while they differ by less than 2^63 |
| `DlQueue.DlRq.Enqueue` | src/linux-3.14.3-iocp/kernel/sched/deadline.c:740-768 | puts the entity behind all that are not after it and ahead of the rest; order and leftmost node stay right, and a right cached deadline stays right if and only if it is not a zero that stands for a deadline not after the newcomer's |
| `DlQueue.DlRq.Descend` | src/linux-3.14.3-iocp/kernel/sched/deadline.c:750-759 | the descent finds that place, and "leftmost" is exactly "nothing before it" |
| `DlQueue.DlRq.Dequeue` | src/linux-3.14.3-iocp/kernel/sched/deadline.c:770-788 | cuts exactly that entity out, leaves an entity not queued alone, and recomputes both caches |
| `DlQueue.DlRq.Rebalance` | src/linux-3.14.3-iocp/kernel/sched/deadline.c:764-765 | a rotation anywhere changes nothing visible |
| `DlQueue.RotateBack` | src/linux-3.14.3-iocp/kernel/sched/deadline.c:764-765 | a rotation that does something is undone by the opposite one at the same place |
| `DlQueue.DlRq.Pick` | src/linux-3.14.3-iocp/kernel/sched/deadline.c:980-989 | the picked entity precedes every other one, ties going to the earlier arrival |
| `DlQueue.ZeroDeadlineBreaksCache` | src/linux-3.14.3-iocp/kernel/sched/deadline.c:655-681 | two enqueues after which the cached earliest deadline is not the first entity's |

## Where the code and its comments differ

- The comment on `path_limits` says that 1000 paths of length 1 are allowed; `path_count_inc` returns early for that length, so there is no such limit. The model follows the code.
- The comment on `struct aio_ring` speaks of 128 bytes; the structure is eight 32-bit words. The model uses 32 bytes.
- The comment on `path_limits` also says that a deletion cannot add paths. It can: when the last watch of a set goes, paths through that set become shorter ones and count against another limit. `EpollCtl.DeletionBreaksLimits` is a case, `LastDropKeepsLimits` the exact condition.
- The comment above `ep_loop_check` says that it excludes chains that are too deep. It bounds the shortest chain to each set, not the longest; `DepthDependsOnOrder` shows a deeper chain accepted.
- The comments in `ep_wake_wq` and `ep_cmgroup_wait_available` say that the tasklet will process "our request". All waiters share one action word, and a waiter that leaves its sleep resets it; `WaiterLeftBehind` is a run in which another waiter's request is lost this way, `RequestSurvives` and `PendingExactly` say exactly when a request lives on.
- The comment in `ioctx_alloc` says that doubling lets users see what they expected. This fails for requests of 2^31 and more that pass the size test after wrapping; `AdmissionGuarantee` gives the exact condition.
- The comment above `dl_entity_overflow` tests against the period; an entity whose deadline is shorter than its period is over that bandwidth even with a fresh budget (`FreshBudget`).
- A queued deadline that is the number zero is taken for "no deadline" by `inc_dl_deadline`; `DlRq.Enqueue` gives the exact condition.

## Left out

- Weak memory ordering, interrupt flags, lockdep and RCU grace periods: only the mutual exclusion of the locks is kept.
- The machine of `CmModel` has one group in full; other groups take and free objects and tasks as an environment. `CmAccounting` covers the accounting of several groups.
- The charge flag and the atomic update of `available` that follows it are one step in `CmModel`.
- `ep_poll` associates its caller with the group in `CmModel` only while it does not hold `ep->lock`.
- Return codes of `cmgroup_wait` and `ep_poll`, timeouts and signals: they appear as free choices to stop waiting.
- What `tasklet_action` does with a group's tasklet after its function returned: the reference count covers the group functions only.
- AioAdmission.AdmissionGuarantee: slots that a reader has freed, or that a put call has yet to hand on, count as in use; `SettledAdmission` and `StrictFails` say what holds without them.
- `AioRing` copies event by event, which allows more interleavings than the chunks; the chunks themselves are in `AioPaged`, without concurrent completions.
- User writes to the ring header and events reaped directly from user space: the kernel trusts that header, and so does the model.
- The quota of all AIO contexts together (`aio_nr`), allocation failures, page migration and mapping of the ring.
- The high-priority tasklet list, `tasklet_hi_schedule_first` and `tasklet_kill`: they follow other rules. The intrusive `next` links of tasklets are sequences here.
- The 64-bit overflow of RT budgets and of the remaining DL runtime: both are unbounded integers here.
- RT reconfiguration through sysctl and cgroups, unlimited groups, CPUs of a root domain that were never online, and the period timer.
- Boosted deadline entities, which borrow the parameters of another one, and the timer that throttles an exhausted one.
- The colours of the red-black trees: rebalancing is any number of rotations. `earliest_dl.next`, push and pull of tasks, and admission control of deadline bandwidth.
- EPOLLWAKEUP sources and the wakeups that epoll sends to its own pollers.
- EpollLoop.Nesting.LoopCheck: which answer it gives when a set is reached by chains of two lengths is stated only as the search function `Search`, since it depends on the order of the items.
- Additions during the search: an ordinary file can be added to a set that nobody watches yet without taking `epmutex`; only deletions interfere in `EpollLoop`, and nobody in `EpollCtl`.
- System-call plumbing, file descriptors, `/proc` output and the tests of the repository.
