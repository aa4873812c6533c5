# async_coro: a verified model of the coroutine runtime

async_coro runs coroutines on one manager thread and serves their blocking calls on W background
workers. The threads share two intrusive queues (`todo_queue`, `doing_queue`), one counting
semaphore and W pipes. This project models that runtime in Dafny and proves, for every number of
workers and every interleaving, that results reach the coroutine that asked for them, that each
task record has one holder, that nothing is resumed before its context is saved, and that the
runtime stops only when every coroutine waits for something. It also proves the tail queue, the
socket transfer machines, and the ping-pong example built on two semaphores.

Run `dafny verify dfyconfig.toml` to check everything.

## How the pieces fit

| files | what they are |
|---|---|
| `Actions`, `Seqs` | action tags, requests, results and their passage through `int`; sums over sequences |
| `Scheduler` | the runtime as a transition system: state, events, one atomic step per event, runs |
| `Invariant`, `Frames`, `ManagerSteps`, `BirthSteps`, `ChoiceSteps`, `WorkerSteps`, `Runs` | the invariant and the proof that every step of every thread keeps it |
| `Ownership`, `Delivery`, `Touching`, `DirectCalls`, `Counting`, `Semaphores`, `Misuse`, `Deadlock`, `Order`, `Bounds`, `RoundRobin` | the theorems about all runs |
| `Handlers`, `Observed`, `SemCounts` | what the handlers do, action by action; results and semaphore values counted over the events of a run |
| `WholeCalls`, `WholeTurns` | the steps of one call, of one turn of the manager or of one request on a worker, taken together |
| `Paths`, `SecondWait` | what later runs may lead to, and when a second wait on a semaphore is harmless for ever |
| `Scripts` | arbitrary finite scripts of coroutines come to rest |
| `PingPong` | the master and slave of the semaphore example, for every number of rounds |
| `TailQueue` | the tail queue on the heap: links, last link, cached size |
| `Guards`, `Runtime` | the runtime on the heap: two list heads over the one link field of the task records, updated in place, refining the transition system |
| `Transfers`, `SocketTransfer`, `ByteChannel` | a socket transfer on values, its handlers in place, and a writer and a reader on one channel |
| `ChannelEvents` | the histories and results of transfers read off the events of a run |
| `EndToEnd` | the scheduler and the channel together: requests in, results out, bytes across |

An event of the transition system is one lock-protected queue operation, one semaphore or pipe
operation, one libev callback, or a stretch of code that touches only memory its thread owns.
Producers push first and announce afterwards; consumers take the announcement first and shift
afterwards; both gaps are states of the model. A suspending coroutine publishes its record before
it saves its context, and the states in between are reachable too. A token is not tied to a task:
a worker takes whatever is at the head of the queue. In `ByteChannel` the events are finer: one
system call of a retry loop is one event, so callbacks of two workers may overlap. All theorems about runs quantify over
`workers >= 1` and over every event sequence `es` with `Possible(Init(workers), es)`.

The history of each coroutine (`logs`) is kept beside its record: what it chose, which requests
it issued, which were executed with which result, what it read, how often it was announced and
freed. The `place` member of a record is bookkeeping that no step reads; the theorems are stated
with `Ownership.Holds`, which looks only at queues, threads, watchers and semaphores.

## What is assumed of callers and of the system

- A semaphore is initialised once, has one waiter at a time, stays within an `int`, and is not
  posted while the activation of its waiter is pending (`Scheduler.Disciplined`). The code checks
  none of this. For the single waiter `SecondWait.SecondWaiterIff`, and for the pending activation
  `Semaphores.PostSafeIff`, say exactly when breaking the rule does harm; `Misuse` gives runs.
- `crt_*` calls come from coroutines, except `crt_create`, which any thread may call.
- Pipes do not fill, `sem_post` and `write` to a pipe succeed, and a stopped watcher never fires.
- `sem_wait` on the manager's semaphore is not interrupted by a signal: its result is not checked
  (src/acoro.c:291), so an interrupted call would shift an empty queue. `Counting.TokensMatch` and
  `Ownership.NeverCrashes` rest on this.
- Background functions and system calls return; what they return, and what they leave in errno, is arbitrary.
- In `DirectCalls` and `Scripts` what a coroutine does next depends on its own operations and the
  results it read. Code that looks at bytes in its buffers, at the result of a background function,
  or at memory it shares with other coroutines is outside these two modules.
- A coroutine may return without `crt_exit`. Nothing else breaks then, but its record is never
  freed (`Ownership.ExclusiveOwnership`, `Deadlock.StuckMeansWaiting` name that case).
- Results are `ssize_t` and pass through `int`, in ev_sock_stop and when they are read: both
  passages are modelled (`Actions.AsInt`), and `Delivery.ValueExact` and `Transfers.IntHolds` say
  exactly which results survive.

Where the comments of the repository and its code disagree the code is followed:
`coroutine_get_retval` returns `int` although the calls built on it are documented as `ssize_t`;
`do_sock_read` and its like return 0 but `do_task` reports 1 for them; and `crt_sem_post` leaves
`task_ptr` set after queueing the waiter.

## Model

| member | source | states |
|---|---|---|
| Runs.RunInv | src/acoro.c:281-372 | in every state of every run, for any number of workers, the whole invariant holds |
| Runs.StepKeeps | src/acoro.c:1046-1079 | every allowed step of the manager, a coroutine, a worker, a callback or a creating thread keeps the invariant |
| Runs.MainKeeps | src/acoro.c:288-368 | each step of the manager loop, and of a coroutine inside a library call, keeps the invariant |
| Runs.ChooseKeeps | src/acoro.c:1535-1643 | each operation a coroutine may choose within the discipline keeps the invariant, including posts that find a waiter |
| Runs.WorkKeeps | src/acoro.c:980-1079 | each step of a worker between reading a token and posting to the manager keeps the invariant |
| Runs.FireKeeps | src/acoro.c:735-789 | a watcher callback keeps the invariant, whether or not it completes its request |
| Runs.TaskWaits | src/acoro.c:291-295 | a manager that has taken a unit finds a live task at the head of todo_queue |
| WholeCalls.CallSuspends | src/acoro.c:1205-1218 | from any reachable state, a blocking call changes this and nothing else: record at the end of doing_queue, a token to the next pipe in turn, suspended where it will read its result |
| WholeCalls.YieldSuspends | src/acoro.c:1350-1365 | crt_sched_yield: end of todo_queue, one unit posted, suspended in its own code |
| WholeCalls.WaitTakes | src/acoro.c:1584-1589 | crt_sem_wait with a unit takes it and goes on |
| WholeCalls.WaitSuspends | src/acoro.c:1591-1595 | crt_sem_wait without one suspends its caller, which only the semaphore knows |
| WholeCalls.PostWakes | src/acoro.c:1623-1636 | a post with a waiter: one unit more, the waiter marked and put at the end of todo_queue, or at its front if critical, one unit posted to the manager, the caller goes on |
| WholeCalls.CreateQueues | src/acoro.c:1312-1341 | crt_create in a coroutine: a new record at the end of todo_queue, announced |
| WholeCalls.ExitFrees | src/acoro.c:329-345 | crt_exit: the record is freed and counted, and the manager goes on |
| WholeTurns.ManagerTurn | src/acoro.c:288-362 | each unit of the manager's semaphore resumes the coroutine at the head of todo_queue, at its first instruction or where its context was saved, and nothing else |
| WholeTurns.ResultReturned | src/acoro.c:1106-1110 | a resumed caller reads the value in its record, through int |
| WholeTurns.WaiterReturns | src/acoro.c:1582-1595 | an activated waiter always finds its unit: its crt_sem_wait returns with the value back at 0 and no waiter recorded |
| WholeTurns.ServesAtOnce | src/acoro.c:1055-1069 | a worker, from the token to the announcement, for the five requests that are answered at once |
| WholeTurns.ConnectsAtOnce | src/acoro.c:864-866 | the same for a connection that need not wait: announced inside do_task, once |
| WholeTurns.StartsWatching | src/acoro.c:1055-1075 | for any other request the worker leaves its watchers behind and is idle again |
| WholeTurns.WatcherAnnounces | src/acoro.c:721-733 | a watcher that ends a request, to the announcement |
| WholeTurns.CreatorQueues | src/acoro.c:1312-1341 | crt_create in another thread |
| WorkerSteps.RequestWaits | src/acoro.c:1059-1063 | a worker that has read a token finds doing_queue non-empty |
| WorkerSteps.FireTouch | src/acoro.c:721-733 | the callback that completes a request leaves none of its watchers armed and touches only its own record |
| Handlers.TaskDone | src/acoro.c:980-1044 | do_task, action by action, in every reachable state: the file calls, the blocking connect and bg_run return 0 with one result stored; a connect that need not wait stores its result and announces it; the other five leave exactly their watchers and return 1; no other action reaches it |
| Handlers.CallbackDone | src/acoro.c:721-957 | a callback that ends a request, action by action: the result and the done action stored, all watchers gone, the worker about to announce |
| Handlers.WatchersAlwaysFit | src/acoro.c:857-861 | in every run the io watcher is armed unless the request sleeps, and the timer if it sleeps or gave a timeout to a call that takes one |
| Ownership.ExclusiveOwnership | src/acoro.c:213-229 | every live task has exactly one holder among the queues, workers, event loops, semaphores, the manager and its creator, and is queued at most once; only a coroutine that returned without crt_exit has none |
| Ownership.NeverCrashes | src/acoro.c:364-367 | in every run no thread reaches an abort, a failing assertion on a task or a queue, or a missing record |
| Ownership.SavedBeforeResumed | src/acoro.c:1205-1225 | a record that is published is either saved or its coroutine is still on the manager thread before the swap; the manager resumes a record only with a saved context, and at the point that was saved |
| Ownership.ActionsFit | src/acoro.c:298-368 | queued actions fit the switch that reads them, and the manager at its switch has a case for the task it took; it finds the finished action after a swap exactly when that coroutine called crt_exit |
| Ownership.FreedOnce | src/acoro.c:341-345 | a record is freed at most once, only after crt_exit, and is live until then |
| Ownership.FreedAlone | src/acoro.c:341-345 | the record freed is the one the manager took; no queue, watcher or semaphore has it, and no worker owns it |
| Delivery.ResultsDelivered | src/acoro.c:1106-1110 | the k-th result a coroutine reads is that of the k-th execution, which executed its k-th request; at most one request is outstanding, and each is executed and announced at most once |
| Observed.ReadsAreAnswers | src/acoro.c:1059-1110 | from event to event: the k-th result a coroutine reads is the answer of the kernel or of the background function to its k-th request, through int, with the error code that kind of request keeps; requests and answers are counted over the events of the run |
| Observed.RunAgrees | src/acoro.c:417-424 | in every run the requests and executions of a coroutine are those that the events of choice and completion say |
| Observed.RunShows | src/acoro.c:1356-1362 | in every run the trace of a coroutine is the operations it chose and the latest answers at the moments it read them |
| Delivery.ValueExact | src/acoro.c:1106-1110 | the value read equals the value stored if and only if it fits an int |
| Delivery.CompletedOnce | src/acoro.c:443-454 | while a watcher is armed its request is not yet answered; the callback that answers it removes every watcher of the request, and has not announced it before |
| Touching.RunTouchesHeld | src/acoro.c:281-389 | in every run each step writes to or frees only records in the hands of its thread: for the manager those it holds, the one being created, the waiter of the semaphore being posted, the task being shifted; for a worker its own or the one it shifts; for a callback and a creating thread their own; the one exception is the context that a coroutine saves after publishing its record |
| Touching.AnnouncedAlone | src/acoro.c:381-389 | after the push of coroutine_notify_manager todo_queue is the only holder of the task |
| Touching.HandsOff | src/acoro.c:1065-1069 | in every run no worker and no callback touches a task that is queued for the manager, taken by it, parked or new; so a worker leaves a task alone once it has announced it |
| DirectCalls.DirectIsSync | src/acoro.c:1432-1451 | a direct run whose answers are those of a function of the request is the synchronous run |
| DirectCalls.TraceAnswered | src/acoro.c:1448-1450 | reading a result extends the trace exactly as the direct run with one more answer does |
| DirectCalls.AsyncIsDirect | src/acoro.c:1432-1451 | for every interleaving, what a coroutine does and reads is what its program does on its own when its calls are answered with the same results at once |
| DirectCalls.AsyncIsSync | src/acoro.c:1432-1451 | when the world answers a request by a function of the request, every asynchronous run shows each coroutine the run with synchronous calls |
| DirectCalls.RunTraces | src/acoro.c:1356-1362 | the trace of every coroutine in every run is its direct run over the results read so far |
| Counting.TokensMatch | src/acoro.c:1214-1217 | the length of each queue is the tokens announced, plus consumers between taking and shifting, plus producers between pushing and announcing; so no shift meets an empty queue |
| Counting.IdsMatch | src/acoro.c:1312-1341 | the id counter is the coroutines freed, plus those started, plus those being created, modulo 2 to the 64 |
| Semaphores.SemSafety | src/acoro.c:1548-1599 | value = initial + posts - completed waits >= 0; a recorded waiter is parked with value 0, or its activation is under way with value 1 and it will test this semaphore again |
| SemCounts.ValueByEvents | src/acoro.c:1535-1599 | counted over the events of any run: value = initial value + posts made - calls of crt_sem_wait that returned >= 0; of the calls begun all have returned but the one of the coroutine inside, at most one |
| SemCounts.AllUnitsTaken | src/acoro.c:1548-1599 | no lost wake-up: when nothing can move, as many waits have returned as there were units for, or as were begun |
| Semaphores.PostSafeIff | src/acoro.c:1548-1567 | a post, normal or critical, leaves todo_queue free of duplicates if and only if no waiter is recorded or the value is 0 |
| Misuse.SecondPostQueuesTwice | src/acoro.c:1551-1564 | a state that a run within the discipline reaches, and in which a second post queues the same task twice |
| Misuse.SecondWaitLosesFirst | src/acoro.c:1591-1591 | a run within the discipline to a state in which a second wait drops the first waiter at once |
| Misuse.SecondWaitLosesLater | src/acoro.c:1584-1595 | a run within the discipline to a state with value 1 and a waiter, and one that goes on after a second wait and drops the second coroutine |
| SecondWait.SecondWaiterIff | src/acoro.c:1573-1595 | when a coroutine waits, no continuation within the discipline ever drops a coroutine if and only if no waiter is recorded; a positive value does not help |
| SecondWait.LosesAtOnce | src/acoro.c:1591-1591 | with a waiter and value 0 the waiter is dropped by the second wait itself |
| SecondWait.LosesLater | src/acoro.c:1584-1595 | with a waiter and a positive value, from every such state some run within the discipline drops the second coroutine |
| SecondWait.DriveToHead | src/acoro.c:288-368 | the manager can be brought to any task in todo_queue, whatever stands before it and whoever has yet to post |
| SecondWait.DisciplineExact | src/acoro.c:1573-1576 | in every run, below INT_MAX, the discipline forbids exactly the posts that queue a task twice and exactly the waits after which some continuation drops a coroutine |
| Deadlock.StuckMeansWaiting | src/acoro.c:288-293 | when no thread can take a step, both queues are empty and every live coroutine that did not return without crt_exit is parked in a semaphore of value 0 or has a watcher armed at an idle worker, all of whose armed watchers may fire and announce it |
| Deadlock.ArmedMayFire | src/acoro.c:1092-1094 | every armed watcher of an idle worker may fire, whatever it finds, and takes the worker to the announcement |
| Deadlock.QueuesEmpty | src/acoro.c:1057-1068 | a stuck runtime has empty queues |
| Deadlock.FreedAtTheEnd | src/acoro.c:337-345 | where nothing can move, a record has been freed, once, if and only if its coroutine called crt_exit |
| Order.StepQueues | src/acoro.c:69-71 | every step is at most one push, unshift or shift on one queue; what is inserted is in neither queue, and what is shifted is not empty |
| Order.QueueFollowsOps | src/acoro.c:69-71 | todo_queue at the end of a run is what its pushes, unshifts and shifts make of the queue before |
| Order.InLine | src/bsdqueue.h:85-91 | under any sequence of such operations an element stands at its index plus unshifts minus shifts until it is shifted out |
| Order.KeepsItsTurn | src/acoro.c:69-71 | a task at index i of todo_queue stands at i + unshifts - shifts until it is taken |
| Order.NeverSwap | src/acoro.c:69-71 | of two tasks in todo_queue the first stays ahead of the second until it is taken |
| Order.TakenInTurn | src/acoro.c:288-293 | the shift after i + u others, u unshifts having been made, hands the manager the task that stood at index i |
| Order.CriticalRunsNext | src/acoro.c:1623-1635 | a critically posted waiter is the next task the manager takes unless another critical post follows |
| Bounds.MainLowersInv | src/acoro.c:288-368 | every step of the manager thread lowers the measure |
| Bounds.StepCost | src/acoro.c:281-372 | every step but a choice, an external creation and an unready callback lowers a measure |
| Bounds.RunsAreFinite | src/acoro.c:288-368 | a run has at most 27 steps for each operation chosen, 16 for each external creation and 1 for each callback that found the kernel not ready; the calls inside a callback are bounded by Transfers.LoopEnds |
| Scripts.ScriptsGoOn | src/acoro.c:288-368 | for any scripts within the discipline, a run that is not stuck has a next step |
| Scripts.MaximalRunsRest | src/acoro.c:288-368 | a run that no step of the runtime or of a coroutine extends has both queues empty and every live coroutine at rest |
| Scripts.RunsToRest | src/acoro.c:288-368 | for finite scripts within the discipline, every run extends to one at rest, without another creation by main and without another callback |
| RoundRobin.TurnsAreShares | src/acoro.c:1215-1215 | counting turns one by one with a wrapping counter gives whole rounds of the counter plus the shares of the current one |
| RoundRobin.GivenExactly | src/acoro.c:1215-1217 | the tokens given to each pipe over any run, for any number of notifications, with the wrap of the 64-bit counter |
| RoundRobin.Balanced | src/acoro.c:1205-1218 | up to 2 to the 64 notifications, each pipe has been given floor(n / W) or ceil(n / W) tokens, the first n mod W pipes the larger share |
| RoundRobin.EvenForEver | src/acoro.c:1215-1215 | the turns stay even for all n if and only if W divides the range of the counter |
| PingPong.StepMove | example/sem_pingpong.c:20-54 | every enabled step of the game is allowed by the discipline and keeps the counts of rounds, posts and waits in step |
| PingPong.RestingGame | example/sem_pingpong.c:20-54 | when every player rests, N rounds are over and nobody waits in vain |
| PingPong.PingPongInStep | example/sem_pingpong.c:20-54 | in every game the two values are never negative and at most 1 in sum, and slave is at most one round ahead |
| PingPong.PingPongSafe | example/sem_pingpong.c:20-54 | for every N, every enabled step that follows the two programs keeps the discipline, so no post is made while an activation is pending |
| PingPong.PingPongEnds | example/sem_pingpong.c:20-54 | a game that can go no further has played N rounds on both sides, both values are 0 and both coroutines are freed |
| PingPong.PingPongGoesOn | example/sem_pingpong.c:20-54 | a game that is not stuck has a next step |
| PingPong.PingPongTerminates | example/sem_pingpong.c:20-54 | no game of N rounds takes more than 108 N + 151 steps |
| TailQueue.Head.InsertTail | src/bsdqueue.h:215-220 | appends; the list stays well formed with the last link and the size right |
| TailQueue.Head.InsertTailUnchecked | src/bsdqueue.h:215-220 | without the caller's care, the head still describes some list if and only if the item was not linked already |
| TailQueue.Head.InsertHead | src/bsdqueue.h:208-213 | prepends |
| TailQueue.Head.InsertAfter | src/bsdqueue.h:201-206 | inserts after the given item |
| TailQueue.Head.RemoveHead | src/bsdqueue.h:245-250 | drops the first item |
| TailQueue.Head.Shift | src/bsdqueue.h:88-91 | returns and drops the first item |
| TailQueue.Head.Predecessor | src/bsdqueue.h:235-237 | the search loop finds the item before the one to remove |
| TailQueue.Head.Remove | src/bsdqueue.h:230-243 | drops exactly the given item |
| TailQueue.Head.Last | src/bsdqueue.h:222-226 | the last item, or null |
| TailQueue.Head.Pop | src/bsdqueue.h:92-95 | returns and drops the last item |
| TailQueue.Head.Concat | src/bsdqueue.h:170-177 | moves all items of the second list behind those of the first |
| TailQueue.Head.Nth | src/bsdqueue.h:103-112 | the n-th item as list_addr computes it, through int, or undefined where its countdown overflows |
| TailQueue.NthExact | src/bsdqueue.h:103-112 | for every integer n and every list, list_addr gives the n-th item, or null where there is none, if and only if: on an empty list n does not go to INT_MIN; on another, when its test passes, n goes through int unchanged and not negative, and when its test fails, there is no such item |
| TailQueue.NthIntervals | src/bsdqueue.h:103-112 | the same as intervals, for n and lengths below 2^32 |
| TailQueue.NthWraps | src/bsdqueue.h:104-108 | list_addr gives the first item of a one-item list for n = 2^31 + 1, where there is none |
| TailQueue.NthOverflows | src/bsdqueue.h:109-109 | for n = 2^31 the countdown overflows int, for exactly the lists whose size is not 2^31 modulo 2^32 |
| TailQueue.Head.Clear | src/bsdqueue.h:140-144 | frees every item once, first to last |
| TailQueue.Spliced | src/bsdqueue.h:230-243 | taking one item out of, or into, a list of distinct items keeps them distinct exactly when it stood there once |
| Guards.IsReady | src/acoro.c:288-293 | in a state of the invariant, no enabled step meets a record that is gone, linked already, or of the wrong kind |
| Runtime.RunOf | src/acoro.c:257-258 | over every run, both heap lists stay well formed, share no record, and link the records of their abstract queues in order |
| Runtime.CoroutineEnv.Perform | src/acoro.c:281-389 | any event, performed in place by the method for that piece of code, is the step of the transition system, and keeps both lists well formed and disjoint |
| Runtime.CoroutineEnv.LinkTodo | src/acoro.c:70-70 | a push on the heap is a push on the sequence, and the other list is not disturbed |
| Runtime.CoroutineEnv.LinkTodoFront | src/acoro.c:71-71 | the same for unshift |
| Runtime.CoroutineEnv.LinkDoing | src/acoro.c:70-70 | the same for doing_queue |
| Runtime.CoroutineEnv.ShiftTodo | src/acoro.c:69-69 | a shift on the heap is a shift on the sequence |
| Runtime.CoroutineEnv.ShiftDoing | src/acoro.c:69-69 | the same for doing_queue |
| Transfers.Serve | src/acoro.c:510-548 | the retry loop, with the other side of the channel acting between its calls, keeps have_io + need_io = count and a sound channel |
| Transfers.LoopEnds | src/acoro.c:510-525 | the loop asks for no more answers than need_io and the interruptions among them |
| Transfers.CallsBounded | src/acoro.c:510-548 | over all its wake-ups a transfer makes at most one system call for each byte moved, one for each interruption or blocked call, and one that ends it |
| Transfers.ServeOk | src/acoro.c:510-548 | after the loop the state of the transfer is the one that the flat history of its system calls calls for, with the result narrowed to int |
| Transfers.WakeOk | src/acoro.c:456-477 | the same after any wake-up, by either watcher, with an error or without |
| Transfers.ServePlaced | src/acoro.c:600-638 | the loop moves bytes in stream order, whatever the other side does between its calls: the first have_io bytes of the buffer are those of the stream, the rest is untouched |
| Transfers.WakePlaced | src/acoro.c:456-638 | the same for any wake-up, by either watcher |
| Transfers.ServeCompletes | src/acoro.c:510-524 | short transfers and interruptions only delay: with enough room and enough answers that move something, one wake-up ends the transfer with count |
| Transfers.ResultMeans | src/acoro.c:443-477 | the result is -1 for an error or a timeout that found nothing moved, and otherwise have_io narrowed to int; up to INT_MAX bytes n >= 0 means exactly n bytes moved and -1 exactly such a failure; fewer than count are moved only after a zero-byte transfer, the timer or an error |
| Transfers.IntHolds | src/acoro.c:444-450 | a transfer that did not fail reports the number of bytes it moved if and only if that is at most INT_MAX |
| Transfers.LargeReadLooksNegative | src/acoro.c:444-450 | a read that moves 2^31 bytes in two calls, more arriving between them, returns -2^31 |
| Transfers.SchedulerAgrees | src/acoro.c:550-567 | the scheduler's watchers, done action and result of a socket request are those of the transfer |
| ByteChannel.WriteThenRead | src/acoro.c:510-638 | for every interleaving of single reads and writes over any number of calls, also within overlapping callbacks, bytes received followed by bytes in flight are the bytes taken; an empty channel, or equal counts, means equal data |
| ByteChannel.EveryTransfer | src/acoro.c:479-657 | in every run every transfer has have_io + need_io = count, holds its piece of the stream, and is as its history calls for |
| ByteChannel.TotalsTell | src/acoro.c:526-543 | the results add up to the bytes moved if and only if no call failed after moving some or moved more than INT_MAX; then equal totals mean equal data |
| ByteChannel.TransfersEnd | src/acoro.c:510-548 | every run is finite, the calls of the retry loops included: at most two events for each byte asked for and each interrupted or blocked call, three for each transfer, and two more |
| ChannelEvents.ResultsByEvents | src/acoro.c:479-657 | every transfer is one of the calls, in order; the latest has ended exactly when the replies, expiries and errors among the events of the run call for it, and with that result |
| ChannelEvents.NeverStuck | src/acoro.c:550-567 | in every run a side that is idle may call, an open transfer may be woken or fail, one with a timeout, and only such a one, may expire, and a system call in the loop may be answered in any way |
| EndToEnd.WritesArrive | src/acoro.c:1059-1110 | scheduler and channel together, for any number of workers and every interleaving of the scheduler with the pieces of callbacks: the reading and the writing coroutine have read the results of their transfers, in order and unchanged, all but at most the last; and bytes received followed by bytes in flight are the bytes taken |
| EndToEnd.JointProjects | src/acoro.c:1046-1079 | a run of the two together is a run of the scheduler and a run of the channel, so every theorem about either holds of it |
| EndToEnd.JointFits | src/acoro.c:550-567 | in every such run a coroutine has a transfer open exactly while the watchers of its socket request are armed, and the results stored for its socket requests are those of its transfers |
| EndToEnd.StartNotBlocked | src/acoro.c:1003-1011 | a worker can always start the transfer of the socket request it took |
| EndToEnd.FinishNotBlocked | src/acoro.c:456-548 | when a transfer can end, the scheduler's callback that stores its result is enabled once its worker is in its event loop |
| SocketTransfer.SockTask.constructor | src/acoro.c:550-567 | do_sock_read and do_sock_write arm the watchers with nothing moved |
| SocketTransfer.SockTask.StopAndNotify | src/acoro.c:443-454 | ev_sock_stop, with its int parameter, and the one notification |
| SocketTransfer.SockTask.OnTimeout | src/acoro.c:456-477 | ev_sock_timeout |
| SocketTransfer.SockTask.ReadOnce | src/acoro.c:510-548 | one pass from the label of ev_sock_read |
| SocketTransfer.SockTask.OnReadable | src/acoro.c:479-548 | ev_sock_read, for all answers of the kernel and all that the writer does between them, is the wake-up on values |
| SocketTransfer.SockTask.WriteOnce | src/acoro.c:600-638 | one pass from the label of ev_sock_write |
| SocketTransfer.SockTask.OnWritable | src/acoro.c:569-638 | ev_sock_write, for all answers of the kernel and all that the reader does between them, is the wake-up on values |

## Left out

- Threads: they are not Dafny threads. The runtime class performs one event at a time; interleaving is the order of events.
- Addresses: a task record is named by a number in the order of creation; `NewRecord` never reuses one, where malloc may hand out a freed address again.
- ucontext, stacks, makecontext and the argument splitting in call_wrapper: a coroutine is a sequence of chosen operations with a control point inside each call.
- libev, epoll, files, sockets and errno sources: oracles that choose which callback runs and what a system call returns.
- Ownership.NeverCrashes: the assertions on libev's event flags, on O_NONBLOCK and on the byte read from a pipe are not modelled.
- DirectCalls.AsyncIsSync: data in buffers and shared memory is not part of what a program may look at.
- EndToEnd.WritesArrive: one channel with one reading and one writing coroutine; while a callback is between two system calls the scheduler's model counts its worker as idle, which only adds interleavings.
- Runtime.CoroutineEnv.Callback: which readiness event woke the watcher is not modelled; EV_ERROR is one of the results a callback may store.
- Runtime.CoroutineEnv.Switch: the stack that is freed with a record is not modelled.
- Runtime.CoroutineEnv.RunHandler: the system calls inside the handlers are an arbitrary result; file descriptors that connect opens and closes, and the error codes it reads after close, are not modelled.
- The EV_ERROR branch of ev_tcp_accept, which uses an unset task pointer, is not modelled.
- Runtime.CoroutineEnv.SetRequest: the arguments of a request are one number and a timeout; argument unions per call are not modelled.
- crt_msleep with 0, which returns -1 without a request, and the errno side of the results in crt_get_err_code beyond the stored error code are not modelled.
- SocketTransfer.SockTask.OnReadable: the assertion that the descriptor is non-blocking is not modelled.
- SocketTransfer.SockTask.OnWritable: nor is it here.
- Transfers.Serve: need_io is unbounded, where the source converts a size_t to ssize_t; counts above 2^63 are not modelled.
- PingPong.PingPongTerminates: the pipe through which main waits for master is not modelled; main is the thread that creates master.
- STAILQ_REMOVE_HEAD_UNTIL, which does not maintain the size and is unused, list_destroy and the list mutexes are not modelled: each list operation is atomic.
- init_coroutine_env, destroy_coroutine_env, thread cancellation, allocation failure, crt_set_nonblock, crt_set_block, crt_tcp_prepare_sock, attribute setters and crt_sem_destroy are thin and would add only easy members.
- CRT_SEM_HIGH_PRIORITY, which aborts, and more than one manager thread are not modelled.
- Durations: a timer is an event that may fire while it is armed.
- The other example programs, the Makefile and the test scripts.
