# Verified model of the rskynet kernel

rskynet is an actor runtime: services with mailboxes, run by worker threads that steal work from one
another, plus a network layer and a cluster layer. This project models its lock-free protocols and
its single-owner structures in Dafny and proves what they promise.

Protocols that several threads take part in are transition systems with one step per shared access
and any number of threads. A theorem about them starts from `Reachable(s)`: some finite sequence of
steps, in any order, leads from the initial state to `s`. The modules named Progress say what the calls
come to: which way every step may take a value, an item or a message, over every run, and what a call that
runs alone leaves behind. Structures that one owner updates are classes proved against functions or ghost
state.

| files | subject |
|---|---|
| `BwosLayout`, `BwosSteps`, `BwosSafety`, `BwosConservation`, `BwosOrder`, `BwosTheorems`, `BwosProgress` | the block work-stealing queue, one owner against any number of thieves |
| `BwosQueue` | the same queue with whole operations taken one at a time, as a class that refines a bounded deque |
| `SchedulerSteps`, `SchedulerSafety`, `SchedulerTheorems`, `SchedulerProgress` | run queues, hand-off slots and the sleep protocol of the workers |
| `ServiceSteps`, `ServiceSafety`, `ServiceProof`, `ServiceBook`, `ServiceTheorems`, `ServiceProgress` | one shared service: mailbox state, execution, kill, cleanup, requests |
| `Exclusive`, `ExclusiveProgress` | a service with a thread of its own |
| `TaskWakers` | tasks of a service and the merging of their wake-ups |
| `AdmissionGate`, `GateProgress` | launching, quitting and aborting a node |
| `Fairness` | bounds on how long work of one kind holds up another |
| `Draining` | dispatching and draining the services left at shutdown |
| `HandleTable` | the handle table and the name index |
| `Monitor` | the worker monitor |
| `ClusterLinks`, `ClusterAgreement`, `ClusterProgress` | links between cluster nodes |
| `Wire` | framing of the cluster protocol |
| `WriteQueue`, `SendWait` | the write buffer of a socket and the callers waiting on it |
| `Crew`, `Arithmetic`, `Basics` | counting threads; remainders; shared types |

## What is assumed

- Atomics are sequentially consistent; fences and cache padding do not appear.
- `SegQueue` is an atomic bag or queue, `ArcSwap` an atomic cell, `park`/`unpark` a one-bit token with
  spurious returns, `Mutex` a lock; `Arc` is trusted.
- Handles, generations, versions and sequence numbers are unbounded except where the source itself
  checks for exhaustion. There the check and its panic are modelled.
- A task is anything: each poll may finish, pend, wake, send, spawn or exit.
- What one write to a socket takes, and when a network breaks, comes from outside.

## Where the source says more than it does

- The comment in `accept_hello` says the two ends never shut each other's choice. The exact condition, over
  every run, is `ShutExactlyByAHello`: an unbroken connection has been shut if and only if, since it was
  dialled, a hello was delivered that overruled it, its own at an end linked over one dialled by the same
  node or a smaller one, or that of a smaller dialler at an end that used it. Until then it is in good
  standing. So without a rival on record it survives (`SurvivesWithoutRivals`); for the smaller node's
  connection only others of its own dialling count (`SmallerDialSurvives`), and a connection alone on record
  stays whoever dialled it (`SoleConnectionSurvives`). `retry` does produce rivals. A redial is shut by an
  end that has not noticed the loss of the first connection (`RedialCanBeShut`). Two retries under way
  together can cost a node both connections (`TwoRetriesCanLoseBoth`).
- The comment in `finish` of the monitor says a poll that has returned is never reported. It can be, even
  after it has cleared its route (`ReturnedPollCanBeReported`). What holds is that the check saw the very poll
  it reports, with its route not yet cleared. The poll has returned when it is reported exactly if it had by
  then or did before the version was loaded again (`ReportsAreOfSeenPolls`).
- A socket that is being closed with data left to write refuses more data, but not for good: `peer_closed`
  overwrites the state with one that is writable (`SendAfterClose`). An open socket takes data if and only if
  the other end has closed after every close (`WritableExactlyAfterPeerGone`).
- How a stream is cut into pieces does not matter as long as the stream is right. On a wrong one, the good
  frames that arrive in the same piece as the problem are lost, and those before it are not
  (`WrongStreamsDependOnTheCut`). `FeedIsExact` says what is delivered. Two cuttings deliver the same if and
  only if no good frame ends between their last cuts before the place where the stream becomes wrong
  (`CutsAgreeExactly`).
- A message delivered to an exclusive service after its thread has gone stays in the mailbox for ever
  (`LateWorkIsStranded`). `StrandedExactlyWhenLate` says which ones: exactly those whose notify ended after
  the exit and which the thread had not taken before. An item whose notify ended earlier has been taken
  (`EarlyItemsAreTaken`).
- The comments of the block queue say that sequences only grow. `last_block` also steps back when the
  owner retreats; that thieves are nevertheless never misled is part of `StealIsSound`.

## Model

| member | source | states |
|---|---|---|
| BwosLayout.PackedWordsBehaveAsBoundaries | crates/rskynet-core/src/bwos.rs:86-102 | packed 64-bit words compare, step and wrap exactly as the pair of generation and slot, through the sentinel |
| BwosLayout.IdxGenAreRemainderAndQuotient | crates/rskynet-core/src/bwos.rs:377-387 | block index and generation of a sequence are its remainder and quotient by the number of blocks |
| BwosLayout.IdxIsMasked | crates/rskynet-core/src/bwos.rs:377-387 | for a power of two the index is what the bit mask leaves |
| BwosLayout.SequenceIsUnique | crates/rskynet-core/src/bwos.rs:371-387 | a physical block and a generation name one logical sequence |
| BwosConservation.WinHitsAFullSlot | crates/rskynet-core/src/bwos.rs:242-304 | a thief that wins its compare-exchange always takes a slot that holds a value |
| BwosTheorems.DropRangeIsLive | crates/rskynet-core/src/bwos.rs:353-368 | between owner calls the range Drop frees is exactly the live slots of every block, in all four phases |
| BwosTheorems.Conservation | crates/rskynet-core/src/bwos.rs:209-368 | in every interleaving the accepted values are the disjoint union of popped, stolen, held by thieves and freed by Drop; none is delivered twice |
| BwosTheorems.DropFreesOnce | crates/rskynet-core/src/bwos.rs:353-368 | Drop frees no value twice |
| BwosTheorems.SlotSafety | crates/rskynet-core/src/bwos.rs:209-304 | no slot is ever in the hands of two threads, and a thief reads the value it claimed |
| BwosTheorems.BoundaryCountsThieves | crates/rskynet-core/src/bwos.rs:242-342 | in every reachable state, for every block of the window and wherever the owner is, the boundary slot is the steal count plus the thieves between claim and count |
| BwosTheorems.ReclaimWaitsForThieves | crates/rskynet-core/src/bwos.rs:331-342 | the wait in reclaim ends exactly when the last thief of the block's earlier turn has finished reading |
| BwosTheorems.StealIsSound | crates/rskynet-core/src/bwos.rs:242-304 | no ABA: a successful steal is from the very sequence the thief set out for, granted in its generation, and takes the oldest value of the block |
| BwosTheorems.PopTakesTheNewest | crates/rskynet-core/src/bwos.rs:471-482 | pop_back takes the newest of all values in the queue, whatever thieves do |
| BwosTheorems.PopFailsOnlyWhenEmpty | crates/rskynet-core/src/bwos.rs:471-482 | pop_back returns nothing only when no slot holds a value |
| BwosTheorems.PushFailsExactlyWhenFull | crates/rskynet-core/src/bwos.rs:444-466 | push_back refuses exactly when its block is full, the window spans all blocks and the oldest is not emptied |
| BwosTheorems.OwnerFailsOnlyAtTheLastGeneration | crates/rskynet-core/src/bwos.rs:422-432 | the owner panics only when the 56-bit generations are used up |
| BwosProgress.RefusedOnlyWhenFull | crates/rskynet-core/src/bwos.rs:444-466 | over every step of anybody: a value becomes refused only when the owner's block is full, the window spans all blocks and the oldest holds a value |
| BwosProgress.PushMakesProgress | crates/rskynet-core/src/bwos.rs:444-543 | in every schedule a step of push_back is nearer to its end, waits for a thief, or ends: in the next slot, refused for want of room, or with the generations used up |
| BwosProgress.SoloPush | crates/rskynet-core/src/bwos.rs:444-543 | from every state between calls, a push with nobody in the way ends in a slot if and only if there is room, through grant and reclaim if need be, and moves nothing else |
| BwosProgress.PopMakesProgress | crates/rskynet-core/src/bwos.rs:471-516 | in every schedule a step of pop_back takes the top of its block, gives up at the oldest one, or is nearer to that |
| BwosProgress.SoloPop | crates/rskynet-core/src/bwos.rs:471-516 | from every state between calls, a pop with nobody in the way takes the newest value of the queue, and nothing exactly if there is none |
| BwosProgress.SoloSteal | crates/rskynet-core/src/bwos.rs:486-503 | from every state with the owner between calls, a steal with nobody in the way takes the oldest value of the queue if any lies outside the owner's block, and nothing otherwise |
| BwosProgress.ThievesGiveUpOnlyFor | crates/rskynet-core/src/bwos.rs:242-304 | in every schedule a thief comes back with nothing only for a block not of its generation, an empty one, or no block left before the owner's |
| BwosProgress.LosersLookAgain | crates/rskynet-core/src/bwos.rs:242-304 | a lost compare-exchange makes the thief look at the block again |
| BwosQueue.LifoQueue.constructor | crates/rskynet-core/src/bwos.rs:395-415 | a new queue is valid and empty |
| BwosQueue.LifoQueue.Put | crates/rskynet-core/src/bwos.rs:209-219 | appends to the contents unless the owner's block is full, and then changes nothing |
| BwosQueue.LifoQueue.EnterNext | crates/rskynet-core/src/bwos.rs:528-543 | granting a block and reclaiming the next keeps the contents and exposes all of them; reclaim has nobody to wait for |
| BwosQueue.LifoQueue.AdvancePut | crates/rskynet-core/src/bwos.rs:519-543 | moves on exactly when the next block is free or emptied, and keeps the contents |
| BwosQueue.LifoQueue.PushBack | crates/rskynet-core/src/bwos.rs:444-466 | accepted values go to the back; refusal and exhaustion each have their exact condition and change nothing; a grant exposes all earlier values |
| BwosQueue.LifoQueue.Get | crates/rskynet-core/src/bwos.rs:226-239 | takes the newest value of the owner's block, or nothing exactly when that block is empty |
| BwosQueue.LifoQueue.AdvanceGet | crates/rskynet-core/src/bwos.rs:506-516 | retreats one block with the contents unchanged, or there is nothing left |
| BwosQueue.LifoQueue.PopBack | crates/rskynet-core/src/bwos.rs:471-482 | removes the last element of the contents; nothing exactly when there is none |
| BwosQueue.LifoQueue.Steal | crates/rskynet-core/src/bwos.rs:242-304 | takes the front of the block of the thief's own generation |
| BwosQueue.LifoQueue.StealFront | crates/rskynet-core/src/bwos.rs:486-503 | removes the first element of the contents exactly when something lies outside the owner's block |
| SchedulerSafety.ActKeepsBase | crates/rskynet-core/src/mq.rs:512-649 | every step keeps the counters exact and the items in hand known |
| SchedulerSafety.ActKeepsDoze | crates/rskynet-core/src/mq.rs:749-826 | a dozing worker has its idle bit set, a wake-up waiting, or a claimer about to wake it |
| SchedulerTheorems.SleepsOnlyOnEmpty | crates/rskynet-core/src/mq.rs:617-642 | a worker passes its last look at a queue only when that queue is empty at that moment |
| SchedulerTheorems.NoLostWakeup | crates/rskynet-core/src/mq.rs:512-649 | with no push under way, whatever sits in the injector, a hand-off slot or a local queue has a worker able to take it that will look before it parks or holds a wake-up |
| SchedulerTheorems.LookedAfterUntilTaken | crates/rskynet-core/src/mq.rs:617-826 | an item with such a worker keeps one through every step until somebody takes it: no worker gives up before it has looked |
| SchedulerTheorems.InjectorIsNeverForgotten | crates/rskynet-core/src/mq.rs:533-582 | also during pushes: somebody is awake for the injector or a pusher is bound to wake somebody |
| SchedulerTheorems.EverybodySleepsOnlyOnNothing | crates/rskynet-core/src/mq.rs:749-797 | if all workers are parked without wake-ups and nobody is inside the scheduler, nothing is queued |
| SchedulerTheorems.CountersAreExact | crates/rskynet-core/src/mq.rs:517-522 | pending and searching are exact counts and never go below zero |
| SchedulerProgress.ItemsAreKept | crates/rskynet-core/src/mq.rs:512-649 | over every step of anybody: an item stays, is put where it waits by its pusher, is taken from there by a scan, or is given by that scan to its caller; nothing else |
| SchedulerProgress.EveryItemIsPoppedOnce | crates/rskynet-core/src/mq.rs:512-649 | over every run: an item pushed is queued or in hand if and only if it has not been popped, and it is popped at most once |
| SchedulerProgress.SoloPush | crates/rskynet-core/src/mq.rs:512-606 | a push alone leaves its item in the injector if somebody searches, else with the lowest idle worker, who is told, else in the thread's own place |
| SchedulerProgress.SoloPoke | crates/rskynet-core/src/mq.rs:829-844 | a poke alone wakes the lowest idle worker exactly if anything is pending and anybody is idle |
| SchedulerProgress.SoloScan | crates/rskynet-core/src/mq.rs:617-642 | a scan alone takes from the hand-off slot, else the own queue, else the injector, else another's queue |
| SchedulerProgress.SoloPop | crates/rskynet-core/src/mq.rs:611-642 | a pop alone takes what a scan comes to first; a thread that is no worker takes from the injector |
| SchedulerProgress.OutsidersMissOnlyTheInjector | crates/rskynet-core/src/mq.rs:617-620 | a thread that is no worker comes back with nothing when the injector is empty, and touches no queue of a worker |
| SchedulerProgress.SoloFind | crates/rskynet-core/src/mq.rs:749-797 | a worker that searches alone takes what it comes to first and is no longer counted as searching |
| SchedulerProgress.SoloPark | crates/rskynet-core/src/mq.rs:749-797 | a worker alone with nothing queued parks with its idle bit set and is no longer counted as searching |
| SchedulerProgress.SoloWake | crates/rskynet-core/src/mq.rs:749-797 | a parked worker that is told gets up, without its idle bit and with the token used up |
| SchedulerProgress.ParkedUntilTold | crates/rskynet-core/src/mq.rs:749-797 | a parked worker that is not told stays, unless park returns for no reason |
| SchedulerProgress.TicksFavourTheInjector | crates/rskynet-core/src/mq.rs:630-635 | every so often a scan takes from the injector before its own queue |
| SchedulerProgress.FullQueuesSpillOver | crates/rskynet-core/src/mq.rs:586-606 | an item that does not fit into the worker's own queue goes to the injector |
| ServiceTheorems.SingleExecutor | crates/rskynet-core/src/mq.rs:137-259 | one run token while the state is not IDLE, none while it is; two threads never run or clean up one service; no state panic |
| ServiceTheorems.NoLostWork | crates/rskynet-core/src/mq.rs:119-208 | in an idle service every message has its own sender still between putting it there and the end of its notify, and there are no more ready entries than wakers announcing one |
| ServiceTheorems.LenNeverUnderflows | crates/rskynet-core/src/mq.rs:212-223 | len is never below the queued messages, and every subtraction finds something to subtract |
| ServiceTheorems.KillIsNeverForgotten | crates/rskynet-core/src/server.rs:962-977 | from dead to destroyed there is a run token or a thread that has yet to see to it |
| ServiceTheorems.DestroyedOnce | crates/rskynet-core/src/server.rs:1018-1041 | total drops at most once and exactly once per ordinary service, however often cleanup repeats |
| ServiceTheorems.RequestsAreAccounted | crates/rskynet-core/src/server.rs:417-502 | every message is in exactly one place; a request is never discarded and gets one kernel ERROR if and only if it ends that way |
| ServiceTheorems.ReleaseLeavesNothing | crates/rskynet-core/src/server.rs:509-552 | a successful release leaves no task, no backlog, in the mailbox only messages each of whose own sender has yet to notify, and no more ready entries than wakers that have yet to |
| ServiceTheorems.ReleasedStaysEmpty | crates/rskynet-core/src/mq.rs:243-259 | after a release no task or backlog comes back and nobody executes the service |
| ServiceProgress.MessagesGoWhereTheyShould | crates/rskynet-core/src/server.rs:417-552 | over every step of anybody and every message: where it goes is TakenTo, and an ERROR is sent for exactly the requests the step fails |
| ServiceProgress.RequestsEndByPollOrError | crates/rskynet-core/src/server.rs:417-552 | a request comes to its end only by the poll that finishes its task or by one ERROR from a thread that cleans up or exits, and stays there |
| ServiceProgress.CleanupAnswersAll | crates/rskynet-core/src/server.rs:509-552 | over every run: each request in a task, the mailbox or the backlog when a cleanup begins has got exactly one ERROR when that cleanup comes to its release |
| ServiceProgress.SoloSend | crates/rskynet-core/src/server.rs:351-356 | a message sent alone is last in the mailbox, counted, and the service is queued if it was idle |
| ServiceProgress.SoloWake | crates/rskynet-core/src/server.rs:357-364 | a wake-up alone adds one ready entry, and the service is queued if it was idle |
| ServiceProgress.SoloKill | crates/rskynet-core/src/server.rs:962-977 | a kill alone takes the service out of the table, marks it dead and queues it if it was idle; a second one does nothing |
| ServiceProgress.SoloCreate | crates/rskynet-core/src/server.rs:754-861 | the creator alone leaves the service queued once, with its init task ready |
| ServiceProgress.SoloRun | crates/rskynet-core/src/server.rs:1126-1173 | a worker alone with a live service works off tasks, mailbox and backlog and leaves it idle |
| ServiceProgress.SoloDestroy | crates/rskynet-core/src/server.rs:1018-1041 | a worker alone with a dead service leaves nothing in it, releases it, and subtracts it from total exactly if it is ordinary and was not destroyed before |
| ServiceProgress.EntriesAreTaken | crates/rskynet-core/src/mq.rs:611-615 | a worker takes the service exactly if a run queue has it; flushing an entry keeps it one |
| ServiceProgress.GivenBack | crates/rskynet-core/src/server.rs:1098-1113 | a service that is yielded or given back is queued once more, with nothing else changed |
| ServiceProgress.ExitLeadsToCleanup | crates/rskynet-core/src/server.rs:962-977 | a poll that exits leaves the table, marks the service dead, fails its tasks, and the same worker goes on to clean up |
| ServiceProgress.InitialisedWorksOffTheBacklog | crates/rskynet-core/src/server.rs:1126-1145 | after initialisation everything that had to wait is handled before the worker lets go |
| Exclusive.NeverSleepsOnWork | crates/rskynet-core/src/exclusive.rs:120-146 | a blocked dedicated thread without a token has somebody about to interrupt it, or every item has its own bringer still announcing it and a death its killer; the blind stores never cause a panic |
| Exclusive.NoLostWork | crates/rskynet-core/src/exclusive.rs:120-146 | every item in an idle mailbox has its own bringer still announcing it, before and after the exit alike; only between a blind store and the next look is the claim void |
| Exclusive.StrandedExactlyWhenLate | crates/rskynet-core/src/exclusive.rs:120-146 | after the exit an item lies in the mailbox with nobody announcing it if and only if its notify ended after the exit and it had not been taken |
| Exclusive.EarlyItemsAreTaken | crates/rskynet-core/src/exclusive.rs:120-146 | an item whose notify ended before the exit has been taken when the thread is gone |
| Exclusive.EndingsAreRecorded | crates/rskynet-core/src/exclusive.rs:120-146 | when a notify ends, what the service was like at that very step is on record, and no later step changes it |
| Exclusive.ExitIsForGood | crates/rskynet-core/src/exclusive.rs:120-146 | in every later state of a run after the exit the thread is gone, nothing more has been taken, and what was left is still there |
| Exclusive.LateWorkIsStranded | crates/rskynet-core/src/exclusive.rs:120-146 | a reachable state in which a message waits for a thread that has exited, with nobody left to care |
| ExclusiveProgress.NothingIsLost | crates/rskynet-core/src/exclusive.rs:120-146 | in every reachable state every item brought is in the mailbox or has been taken, never both, and nothing else is |
| ExclusiveProgress.SoloServe | crates/rskynet-core/src/exclusive.rs:120-146 | the thread alone works off everything in a live service and blocks with the mailbox idle |
| ExclusiveProgress.SoloEnd | crates/rskynet-core/src/exclusive.rs:120-146 | the thread alone with a dead service still works off everything, and exits |
| ExclusiveProgress.DeathEndsService | crates/rskynet-core/src/exclusive.rs:120-146 | a thread that finds its service dead winds it up at once, wherever it looks |
| ExclusiveProgress.TokensUnblock | crates/rskynet-core/src/exclusive.rs:120-146 | a blocked thread with a token comes back to the service |
| ExclusiveProgress.BlockedUntilTold | crates/rskynet-core/src/exclusive.rs:120-146 | a blocked thread without a token stays, unless it comes back by itself |
| ExclusiveProgress.SoloBring | crates/rskynet-core/src/server.rs:351-364 | an item brought alone is in the mailbox, and a waiting thread gets its token |
| ExclusiveProgress.SoloKill | crates/rskynet-core/src/server.rs:962-977 | a kill alone marks the service dead, and a waiting thread gets its token |
| TaskWakers.OneWakeUpPerTask | crates/rskynet-core/src/task.rs:198-251 | a live task's flag is set exactly when one of ready entry, waker, creator or executor stands for a wake-up; never two |
| TaskWakers.WakesAreNotLost | crates/rskynet-core/src/task.rs:238-251 | after any wake of a live task, merged or not, a wake-up is under way |
| TaskWakers.WakeUpsLeadToAPoll | crates/rskynet-core/src/server.rs:460-475 | a wake-up under way stays until a poll of that task begins or its current poll completes it |
| TaskWakers.StaleIdsTakeNothing | crates/rskynet-core/src/task.rs:310-325 | the executor only ever holds a task whose generation is in its slot; an old id never takes a new one |
| TaskWakers.TheFutureIsThere | crates/rskynet-core/src/task.rs:310-339 | take never finds a live task without its future |
| TaskWakers.TasksLiveUntilDone | crates/rskynet-core/src/task.rs:277-352 | over every step: a task begins to live only when it is opened, with its future and one wake-up; it stops only when its own poll completes it |
| TaskWakers.PollsEnd | crates/rskynet-core/src/server.rs:471-475 | after a poll a task that is done is gone and its slot vacant, and any other is back with its future |
| TaskWakers.GoneIsGone | crates/rskynet-core/src/task.rs:342-352 | a task that is gone never lives again, though its slot may be used again |
| TaskWakers.ReadyTasksArePolled | crates/rskynet-core/src/server.rs:460-475 | the executor alone takes a ready entry of a live task, its future and its flag, and polls it |
| TaskWakers.StaleEntriesAreDropped | crates/rskynet-core/src/server.rs:460-464 | a ready entry of a task that is gone is dropped without effect |
| TaskWakers.WakersAlone | crates/rskynet-core/src/task.rs:238-251 | a wake alone adds one ready entry if the flag was clear, and nothing if it was set |
| TaskWakers.OpenedTasksAreReady | crates/rskynet-core/src/server.rs:365-381 | a task opened alone is in the ready queue with its flag set |
| AdmissionGate.TotalIsExact | crates/rskynet-core/src/server.rs:754-861 | outside the gate total is the number of ordinary services not yet accounted as destroyed; it is never negative |
| AdmissionGate.EmptyNodeQuits | crates/rskynet-core/src/server.rs:657-673 | outside the gate a booted node with total 0 is quitting |
| AdmissionGate.NoLaunchAfterQuit | crates/rskynet-core/src/server.rs:913-944 | quitting is for good and no handle is ever added after it |
| AdmissionGate.AbortLeavesNoOrdinaryService | crates/rskynet-core/src/server.rs:952-955 | when abort has returned no ordinary service is in the table |
| AdmissionGate.AbortIsForGood | crates/rskynet-core/src/server.rs:952-955 | and no step ever brings one back |
| AdmissionGate.SweepsEnd | crates/rskynet-core/src/server.rs:983-998 | one rank on the position of a retire_all: every step that gets it further lowers it, and no other step of anybody raises it |
| AdmissionGate.SweepsAreBounded | crates/rskynet-core/src/server.rs:983-998 | however threads move, a retire_all takes no more steps of its own than its rank |
| GateProgress.LaunchAddsExactlyOne | crates/rskynet-core/src/server.rs:754-861 | over every run: a launch adds exactly one service, published, and counted exactly if ordinary; or nothing, if and only if the node was quitting when it had the gate |
| GateProgress.SoloLaunch | crates/rskynet-core/src/server.rs:754-861 | a launch alone leaves the gate free and the table with one more service, or unchanged if the node is quitting |
| GateProgress.SoloQuit | crates/rskynet-core/src/server.rs:913-955 | a quit alone makes the node quit; that of an abort goes on to sweep |
| GateProgress.SoloBoot | crates/rskynet-core/src/server.rs:657-673 | marking a node as booted alone makes it quit exactly if it has no ordinary service |
| GateProgress.SoloDestroy | crates/rskynet-core/src/server.rs:1018-1041 | a destroy alone accounts once for an ordinary service, and the last one of a booted node makes it quit |
| GateProgress.SweepsSpareTheReserved | crates/rskynet-core/src/server.rs:983-998 | a sweep leaves exactly the reserved services in the table of those it comes to |
| GateProgress.RetiringRemoves | crates/rskynet-core/src/server.rs:962-965 | retiring takes the service out of the table and changes nothing else about it |
| Fairness.Mailbox.TakeWork | crates/rskynet-core/src/mq.rs:170-189 | takes what Take says, about which MessagesAreNotStarved is proved |
| Fairness.TakeInOrder | crates/rskynet-core/src/mq.rs:164-189 | ready tasks go first, oldest first, until a burst has passed a waiting message; nothing is taken exactly if there is nothing |
| Fairness.MessagesAreNotStarved | crates/rskynet-core/src/mq.rs:164-189 | a message with p ahead of it is taken within (p + 1) * 65 takes, whatever arrives meanwhile |
| Fairness.RunService | crates/rskynet-core/src/server.rs:1126-1173 | no item starts after somebody has waited through 64 of them; a service is handed back only after 64 items and while somebody waits |
| Draining.Node.Others | crates/rskynet-core/src/server.rs:962-977 | news and kills by others, in any number and order: each service stays queued at most once and exactly when its mailbox says so, and a dead one is queued, in hand or destroyed |
| Draining.Node.RunService | crates/rskynet-core/src/server.rs:1126-1173 | a dead service does not run; a run that ends in a yield is that of a service that was live when it began |
| Draining.Node.Pop | crates/rskynet-core/src/mq.rs:611-615 | takes the first of the queue into hand, nothing exactly when it is empty |
| Draining.Node.SettleDead | crates/rskynet-core/src/server.rs:1076-1082 | the dead are destroyed and their mailbox released, so that news that comes late queues them for another cleanup; the next is in hand |
| Draining.Node.SettleIdle | crates/rskynet-core/src/server.rs:1084-1096 | a service killed while it came to rest is queued once more, so nobody dead is left at rest |
| Draining.Node.SettleYielded | crates/rskynet-core/src/server.rs:1098-1113 | whoever was waiting goes before the service that yielded; it is kept in hand if nobody was |
| Draining.Node.DispatchStep | crates/rskynet-core/src/server.rs:1059-1115 | runs the service in hand or the first of the queue; the yield reported is that of the service that ran, never a dead one; hands are empty only if nobody waits |
| Draining.Node.Charge | crates/rskynet-core/src/start.rs:469-498 | the yield is counted for the service reported, which is retired when it has used up its budget |
| Draining.Node.Drain | crates/rskynet-core/src/start.rs:459-505 | for any behaviour of services and threads, no service yields more than 4096 times; drain retires exactly those that do; it goes on as long as it has a service in hand; when it ends the queue is empty, the dead are destroyed and everybody is at rest |
| Draining.AllYields | crates/rskynet-core/src/start.rs:439-452 | budgets of single services bound the yields of all, however they alternate |
| HandleTable.Hash | crates/rskynet-core/src/handle.rs:76 | the bit mask of a table whose length is a power of two gives the remainder by that length |
| HandleTable.MoveOne | crates/rskynet-core/src/handle.rs:109-113 | when the table doubles every entry finds its new slot empty |
| HandleTable.ProbedAll | crates/rskynet-core/src/handle.rs:75-91 | probing as many handles as there are slots visits every slot |
| HandleTable.HandleStorage.constructor | crates/rskynet-core/src/handle.rs:45-51 | an empty table, next handle 1 |
| HandleTable.HandleStorage.Probe | crates/rskynet-core/src/handle.rs:73-91 | finds the first handle from next on whose slot is free, or the table is full; handles run out exactly when the last one is among those tried and no earlier one falls into a free slot |
| HandleTable.HandleStorage.RegisterWith | crates/rskynet-core/src/handle.rs:66-95 | adds one service under a handle never given before, growing at most once and only when full; each of the two failures happens if and only if its condition on the live handles, the size and next holds, and adds nothing |
| HandleTable.HandleStorage.Grow | crates/rskynet-core/src/handle.rs:98-117 | twice the slots, the same map, and a free slot |
| HandleTable.HandleStorage.Grab | crates/rskynet-core/src/handle.rs:136-140 | lookup agrees with the plain map |
| HandleTable.HandleStorage.Retire | crates/rskynet-core/src/handle.rs:120-134 | removes the service and exactly its names; handles are not reused |
| HandleTable.HandleStorage.RegisterName | crates/rskynet-core/src/handle.rs:181-199 | succeeds exactly for a live handle and a free name |
| HandleTable.HandleStorage.FindName | crates/rskynet-core/src/handle.rs:173-175 | a name found leads to a live handle |
| HandleTable.HandleStorage.Handles | crates/rskynet-core/src/handle.rs:143-154 | lists every live handle once |
| Monitor.ReadRouteIsAtomic | crates/rskynet-core/src/monitor.rs:71-86 | read_route returns the pair in force at one moment; a route that leads somewhere belongs to the poll now running, which has not begun to clear it |
| Monitor.ReportsAreTrue | crates/rskynet-core/src/monitor.rs:53-68 | a report carries a poll's own route and version, and the check before it had seen the same poll |
| Monitor.ReportsAreOfSeenPolls | crates/rskynet-core/src/monitor.rs:42-68 | for every run and every report in it: earlier in the same check read_route had returned the route of the very poll reported, which had not begun to clear it; the version is still its own; and it has returned if and only if it had then or did before the second load of the version, else it is running |
| Monitor.ReturnedPollCanBeReported | crates/rskynet-core/src/monitor.rs:42-68 | for every route there is a run in which a poll that has returned and cleared its route is reported |
| Monitor.StuckPollsAreReported | crates/rskynet-core/src/monitor.rs:53-68 | a poll that stays is reported by the second check |
| Monitor.PollsAreAnnounced | crates/rskynet-core/src/monitor.rs:32-51 | the worker alone publishes each poll's route under a version of its own, then clears it and raises the version |
| ClusterLinks.HelloKeepsLinked | crates/rskynet-cluster/src/lib.rs:811-863 | whatever hello arrives, nodes[n] = s implies peers[s].node = n afterwards |
| ClusterLinks.CloseKeepsLinked | crates/rskynet-cluster/src/lib.rs:953-969 | the same after a close, and no link points at the closed socket |
| ClusterLinks.LostMeansUnlinked | crates/rskynet-cluster/src/lib.rs:953-969 | a node reported lost has no link any more, and every node that loses its link is reported |
| ClusterLinks.LinksYieldToSmallerDialers | crates/rskynet-cluster/src/lib.rs:834-862 | a link gives way exactly to a newly claimed connection of a strictly smaller dialler, and exactly the loser is shut |
| ClusterLinks.ClusterState.constructor | crates/rskynet-cluster/src/lib.rs:510-516 | no links and no peers |
| ClusterLinks.ClusterState.Add | crates/rskynet-cluster/src/lib.rs:658-672 | a new peer, nothing else changed, links still true |
| ClusterLinks.ClusterState.AcceptHello | crates/rskynet-cluster/src/lib.rs:811-863 | computes AfterHello: which socket is kept, which is shut, and keeps links true |
| ClusterLinks.ClusterState.Ask | crates/rskynet-cluster/src/lib.rs:623-634 | a request gets an id that no other pending request has |
| ClusterLinks.ClusterState.Disconnected | crates/rskynet-cluster/src/lib.rs:953-996 | computes AfterClose and keeps links true; reports the node to dial again; exactly the requests pending at that node fail |
| ClusterAgreement.LinksAreTrue | crates/rskynet-cluster/src/lib.rs:496-516 | in every state of any network each link points at a connection between exactly those two nodes |
| ClusterAgreement.OwnHello | crates/rskynet-cluster/src/lib.rs:834-862 | when its hello arrives a connection is shut exactly if the link there was dialled by the same node or a smaller one, and else gets the link |
| ClusterAgreement.OtherHello | crates/rskynet-cluster/src/lib.rs:834-862 | another hello shuts it exactly if it is the link there and the other was dialled by a smaller node, and else leaves it alone |
| ClusterAgreement.SurvivesWithoutRivals | crates/rskynet-cluster/src/lib.rs:658-863 | over every run of a network whose nodes dial their seeds and retry: an unbroken connection under the right name that has no rival on record is never shut, and each end uses it once it has heard its hello |
| ClusterAgreement.SmallerDialSurvives | crates/rskynet-cluster/src/lib.rs:834-862 | the smaller node's connection survives whatever the larger one dials, also as a redial, as long as no earlier one of the smaller node is on record at an end that has yet to hear of it |
| ClusterAgreement.SoleConnectionSurvives | crates/rskynet-cluster/src/lib.rs:834-862 | a connection alone on record at both ends survives whoever dialled it |
| ClusterAgreement.ShutExactlyWhenOverruled | crates/rskynet-cluster/src/lib.rs:811-863 | one step shuts a connection in good standing if and only if it delivers a hello that overrules it |
| ClusterAgreement.ShutExactlyByAHello | crates/rskynet-cluster/src/lib.rs:811-863 | over every run: an unbroken connection under the right name has been shut if and only if such a hello was delivered since it was dialled, and is in good standing as long as none was |
| ClusterAgreement.RedialCanBeShut | crates/rskynet-cluster/src/lib.rs:953-996 | for any two nodes, a redial after a loss only one end has noticed can be shut while it is the only connection that lives |
| ClusterAgreement.TwoRetriesCanLoseBoth | crates/rskynet-cluster/src/lib.rs:953-996 | for any two nodes, two retries under way together can end with both live connections shut |
| ClusterProgress.CallsOnlyTheUnlinked | crates/rskynet-cluster/src/lib.rs:658-681 | a call to a seed begins exactly when a Connect command is taken up without a link to it |
| ClusterProgress.CommandsComeFromLosses | crates/rskynet-cluster/src/lib.rs:676-680 | a new Connect command comes up exactly for a refused call or a seed that the end of a connection leaves out of touch |
| ClusterProgress.SeedsAreNeverForgotten | crates/rskynet-cluster/src/lib.rs:658-996 | in every reachable state a node is linked to each seed, has a connection it dialled to it on record, or is calling it or about to |
| ClusterProgress.OneCallLinksBoth | crates/rskynet-cluster/src/lib.rs:658-863 | from every reachable state, one call that goes through and is accepted and the two hellos link two nodes that were not linked |
| Wire.LengthOfPrefix | crates/rskynet-cluster/src/wire.rs:60-62 | the big-endian prefix reads back as the length |
| Wire.Frame | crates/rskynet-cluster/src/wire.rs:55-64 | an envelope is framed exactly when it fits both limits |
| Wire.Frames | crates/rskynet-cluster/src/wire.rs:66-87 | the loop computes Parse: envelopes and consumed bytes, or the problem and nothing consumed |
| Wire.Connection.Drain | crates/rskynet-cluster/src/wire.rs:66-87 | envelopes and leftover as Parse says; on a problem the buffer is untouched |
| Wire.Connection.Feed | crates/rskynet-cluster/src/lib.rs:752-765 | appends a piece and drains |
| Wire.ParseAppend | crates/rskynet-cluster/src/wire.rs:66-87 | reading a buffer and then its leftover with more bytes is reading everything |
| Wire.FeedIsExact | crates/rskynet-cluster/src/lib.rs:752-772 | for every stream and every cutting: a right stream is delivered as read whole; of a wrong one exactly what the pieces before the one that makes it wrong say |
| Wire.PartReads | crates/rskynet-cluster/src/wire.rs:66-87 | the first bytes of a stream are right if and only if it becomes wrong after them, and then say as many envelopes as frames end by then |
| Wire.LastCutExactly | crates/rskynet-cluster/src/lib.rs:752-772 | of a wrong stream exactly the frames are delivered that end by the last cut before the place where it becomes wrong |
| Wire.CutsAgreeExactly | crates/rskynet-cluster/src/lib.rs:752-772 | two cuttings of a stream deliver the same if and only if it is right or no good frame ends between their last cuts before that place |
| Wire.WrongStreamsLoseNothingExactly | crates/rskynet-cluster/src/lib.rs:752-772 | a wrong stream is delivered as far as it is good if and only if no good frame ends after that cut |
| Wire.WrongStreamsDependOnTheCut | crates/rskynet-cluster/src/lib.rs:752-772 | for every codec, limit and envelope: an envelope and an overlong prefix in one piece deliver nothing, in two pieces the envelope |
| Wire.StreamReadsBack | crates/rskynet-cluster/src/wire.rs:55-87 | framing then reading yields the same envelopes and nothing left |
| Wire.EveryCuttingDelivers | crates/rskynet-cluster/src/lib.rs:752-765 | for every list of envelopes and every cutting of their frames, exactly that list arrives and the buffer ends empty |
| Wire.LeftoverIsPartOfTheNext | crates/rskynet-cluster/src/wire.rs:66-87 | at any point the envelopes read are those whose frames are in, and the leftover is a proper prefix of the next frame |
| Wire.WrongFramesAreProblems | crates/rskynet-cluster/src/wire.rs:66-87 | a frame over the limit and one that does not decode are problems, whatever follows |
| WriteQueue.Queue.Push | crates/rskynet-net/src/buffer.rs:75-91 | the buffer becomes Pushed, with a warning exactly when Warns says; WarningsDouble and SizeIsUnwritten are about these |
| WriteQueue.Queue.NextChunk | crates/rskynet-net/src/buffer.rs:95-102 | a low chunk is raised only when no high one waits; ChunksLeaveWholeAndInOrder says what that is for |
| WriteQueue.Queue.Consume | crates/rskynet-net/src/buffer.rs:105-118 | the front chunk moves on and goes when it is done, and an empty buffer forgets its warnings; ChunksLeaveWholeAndInOrder builds on it |
| WriteQueue.SizeIsUnwritten | crates/rskynet-net/src/buffer.rs:75-118 | after any pushes and partial writes size is the number of unwritten bytes |
| WriteQueue.ChunksLeaveWholeAndInOrder | crates/rskynet-net/src/buffer.rs:75-118 | the bytes sent are whole chunks then part of one; each priority leaves in the order pushed; an empty buffer has sent everything |
| WriteQueue.WarningsDouble | crates/rskynet-net/src/buffer.rs:82-90 | with k warnings since the buffer was empty, a push warns exactly when size reaches threshold * 2^k |
| SendWait.Socket.constructor | crates/rskynet-net/src/config.rs:75-79 | an open socket with an empty buffer, for marks the configuration accepts |
| SendWait.Socket.Release | crates/rskynet-net/src/service.rs:988-1003 | at or below the low water mark every waiter is told Done, in order; above it nothing happens |
| SendWait.Socket.Close | crates/rskynet-net/src/service.rs:590-610 | every waiter is told Failed, in order |
| SendWait.Socket.Turn | crates/rskynet-net/src/service.rs:518-566 | one write: the buffer and the verdict that go with its outcome, and the waiters released, told or kept accordingly |
| SendWait.Socket.WriteOut | crates/rskynet-net/src/service.rs:518-566 | the loop computes FlushOf for any outcomes, and waiters remain only while size is above the low water mark |
| SendWait.Socket.FlushOut | crates/rskynet-net/src/service.rs:517-587 | as the loop, and a connected socket closes exactly when the connection is lost, a half-closed one exactly unless the connection blocks |
| SendWait.Socket.Flush | crates/rskynet-net/src/service.rs:517-587 | the same when the connection can be written again, and nothing on a closed socket |
| SendWait.Socket.DoSend | crates/rskynet-net/src/service.rs:930-960 | accepted exactly on an open writable socket or for no data; the buffer is the pushed and flushed one; the waiter promise is kept |
| SendWait.Socket.DoSendWait | crates/rskynet-net/src/service.rs:963-986 | queued exactly when accepted and the buffer is at the high water mark afterwards, else answered at once; everybody who waited is answered once, in order |
| SendWait.Socket.DoClose | crates/rskynet-net/src/service.rs:1063-1081 | the socket stays open exactly when the connection blocks with data left, and is not writable then; otherwise it is closed and the closer answered at once |
| SendWait.Socket.PeerClosed | crates/rskynet-net/src/service.rs:497-515 | closed at once exactly when nothing is left to write, and no waiter is told of a failure by that; else the state becomes HalfCloseRead whatever it was |
| SendWait.WritableExactlyAfterPeerGone | crates/rskynet-net/src/socket.rs:100-102 | a socket takes data if and only if every close that had to wait was followed by the other end closing |
| SendWait.SendAfterClose | crates/rskynet-net/src/service.rs:497-515 | on a socket whose close has to wait data is refused, and accepted once the other end has closed |
| SendWait.FlushEnds | crates/rskynet-net/src/service.rs:518-566 | a flush comes to an end, and has drained the buffer exactly if nothing is left in either queue |
| SendWait.FlushGoesByTheOutcomes | crates/rskynet-net/src/service.rs:518-566 | a broken connection or one that takes nothing ends a flush, a full one stops it, anything else goes on with what is left |
| SendWait.TellSays | crates/rskynet-net/src/service.rs:998-1003 | everybody who waited is told that very answer, in order |
| SendWait.WaitersAreMeasuredRight | crates/rskynet-net/src/service.rs:930-1003 | after any sends and flushes with any partial writes, the size compared with the marks is the number of unwritten bytes |
| SendWait.SocketIsMeasuredRight | crates/rskynet-net/src/service.rs:930-1003 | and so of every valid socket, whatever has been done to it |

## Left out

- Weak memory: only sequentially consistent interleavings are considered.
- The order inside the injector and the local queues of the scheduler, and the stealable bitmap, which is only a hint: a steal may fail at any time.
- `set_quit`, `flush_local` and `drain_service`: the sleep protocol is modelled for a node that is not quitting.
- BwosSteps: loads of words that only the loading thread writes are folded into the access that follows.
- BwosQueue.LifoQueue: the ring of a block is a sequence inside an array of blocks, so the slots of one block are not separate memory.
- HandleTable: readers that use an old snapshot of the table while a writer replaces it.
- TaskWakers: `drain` of all tasks at destruction; what happens to requests then is in `ServiceTheorems`.
- AdmissionGate: the list of handles in retire_all is read in one step.
- ClusterAgreement: the delay before a retry, a hello that cannot be sent, and which socket number a connection gets; a connection is attempted once per command.
- ClusterLinks.ClusterState: the time-out of a request and the response to it; request ids do not wrap around.
- Wire: the Protobuf encoding itself; any decoder that undoes the encoder will do.
- SendWait.Socket: the single `pending` reply of connect and close, socket events sent to the owner, UDP addressing.
- Draining.Node: retiring is atomic; no service is added, since launching is over (`NoLaunchAfterQuit`) and handles are not reused (`RegisterWith`); two services may keep each other busy without yielding, so nothing is said about when the drain ends.
- Session tables, payloads, module registry, timers, logging, configuration, HTTP, WebSocket, QUIC, TLS, DNS and plugins: they would only add easy members or drive code that is not part of this model.
