/** Tasks of one service: their slots, the flag that merges wake-ups, and the queue of ready tasks.
    One thread executes the service; any number of threads hold wakers and use them whenever they
    like. One step per access to what they share.
 */
module TaskWakers {
  import opened Crew

  type Tid = nat

  /** A slot number is used again after its task is gone; a generation never is. */
  datatype Task = Task(index: nat, generation: nat)

  /** `future`: the future stands in its slot, and not with the executor that polls it. */
  datatype Slot = Slot(generation: nat, future: bool)

  /** The executor between and inside polls. */
  datatype Executor =
    | Resting
    | Popped(task: Task)       // poll_task: about to take the future
    | Clearing(task: Task)     // take: has the future, about to clear the flag
    | Polling(task: Task)

  /** A thread inside `wake_by_ref`, after it set the flag. */
  datatype Waker = Idle | Pushing(task: Task)

  /** `born`: the slot each generation was created in; generations count from 1. `creating`: the
      executor has inserted this task and is about to push it. */
  datatype State = State(
    slots: map<nat, Slot>, born: seq<nat>, flags: set<nat>, ready: multiset<Task>,
    executor: Executor, creating: set<Task>, wakers: map<Tid, Waker>)

  const INIT := State(map[], [], {}, multiset{}, Resting, {}, map[])

  datatype Event =
    | Wake(t: Tid, task: Task)        // wake_by_ref: compare-exchange the flag
    | Push(t: Tid)                    // and push to the ready queue
    | Insert(index: nat)              // the executor opens a task in a vacant slot
    | PushNew                         // and pushes it to the ready queue
    | Pop(task: Task)
    | Take
    | Clear
    | Finish(done: bool)              // the poll returns: remove its task or put the future back

  predicate Live(s: State, task: Task) {
    task.index in s.slots && s.slots[task.index].generation == task.generation
  }

  predicate Created(s: State, task: Task) {
    1 <= task.generation <= |s.born| && s.born[task.generation - 1] == task.index
  }

  function WakerAt(s: State, t: Tid): Waker {
    if t in s.wakers then s.wakers[t] else Idle
  }

  /** The compare-exchange succeeds. */
  predicate Wakes(s: State, t: Tid, task: Task) {
    WakerAt(s, t).Idle? && Created(s, task) && task.generation !in s.flags
  }

  predicate Opens(s: State, i: nat) {
    i !in s.slots && s.creating == {} && !s.executor.Popped? && !s.executor.Clearing?
  }

  function Act(s: State, e: Event): State {
    match e
    case Wake(t, task) =>
      // wakers exist only for tasks that were created
      if !Wakes(s, t, task) then s
      else s.(flags := s.flags + {task.generation}, wakers := s.wakers[t := Pushing(task)])
    case Push(t) =>
      if WakerAt(s, t).Idle? then s
      else s.(ready := s.ready + multiset{WakerAt(s, t).task}, wakers := s.wakers[t := Idle])
    case Insert(i) =>
      if !Opens(s, i) then s
      else
        var g := |s.born| + 1;
        s.(slots := s.slots[i := Slot(g, true)], born := s.born + [i], flags := s.flags + {g}, creating := {Task(i, g)})
    case PushNew => s.(ready := s.ready + multiset(s.creating), creating := {})
    case Pop(task) =>
      if !s.executor.Resting? || s.creating != {} || task !in s.ready then s
      else s.(ready := s.ready - multiset{task}, executor := Popped(task))
    case Take =>
      if !s.executor.Popped? then s
      else
        var task := s.executor.task;
        if Live(s, task) && s.slots[task.index].future then
          s.(slots := s.slots[task.index := Slot(task.generation, false)], executor := Clearing(task))
        else s.(executor := Resting)
    case Clear =>
      if !s.executor.Clearing? then s
      else s.(flags := s.flags - {s.executor.task.generation}, executor := Polling(s.executor.task))
    case Finish(done) =>
      if !s.executor.Polling? || s.creating != {} then s
      else
        var task := s.executor.task;
        if !Live(s, task) then s.(executor := Resting)
        else if done then s.(slots := s.slots - {task.index}, executor := Resting)
        else s.(slots := s.slots[task.index := Slot(task.generation, true)], executor := Resting)
  }

  ghost predicate Step(s: State, s': State) {
    exists e :: s' == Act(s, e)
  }

  ghost predicate IsRun(run: seq<State>) {
    && |run| > 0 && run[0] == INIT
    && forall i :: 0 <= i < |run| - 1 ==> Step(run[i], run[i + 1])
  }

  ghost predicate Reachable(s: State) {
    exists run :: IsRun(run) && run[|run| - 1] == s
  }

  // ------------------------------------------------------------ who stands for a wake-up

  function PushesIt(task: Task): Waker -> bool {
    w => w == Pushing(task)
  }

  /** The executor has an entry of this task and has not cleared its flag. */
  predicate InHand(x: Executor, task: Task) {
    x == Popped(task) || x == Clearing(task)
  }

  /** The wake-ups under way for a task: ready entries, wakers about to push one, the creator about
      to, and the executor about to act on one. */
  ghost function Pending(s: State, task: Task): nat {
    s.ready[task] + |Those(s.wakers, PushesIt(task))| + One(task in s.creating) + One(InHand(s.executor, task))
  }

  predicate HasFuture(x: Executor, task: Task) {
    (x.Clearing? || x.Polling?) && x.task == task
  }

  /** Each live task has one slot and its future, unless the executor has it. */
  ghost predicate SlotsOk(s: State) {
    && (forall i :: i in s.slots ==> Created(s, Task(i, s.slots[i].generation)))
    && (forall i :: i in s.slots ==>
          (s.slots[i].future <==> !HasFuture(s.executor, Task(i, s.slots[i].generation))))
    && (s.executor.Clearing? || s.executor.Polling? ==> Live(s, s.executor.task))
    && (forall g :: g in s.flags ==> g <= |s.born|)
  }

  /** Nothing refers to a task that is yet to come. */
  ghost predicate KnownOnly(s: State) {
    forall task :: !Created(s, task) ==> Pending(s, task) == 0
  }

  ghost predicate FlagInv(s: State) {
    forall task :: Live(s, task) ==> Pending(s, task) == One(task.generation in s.flags)
  }

  ghost predicate Good(s: State) {
    SlotsOk(s) && KnownOnly(s) && FlagInv(s)
  }

  lemma PollKeepsSlots(s: State, e: Event)
    requires SlotsOk(s) && (e.Take? || e.Clear? || e.Finish?)
    ensures SlotsOk(Act(s, e))
  {
  }

  lemma ActKeepsSlots(s: State, e: Event)
    requires SlotsOk(s)
    ensures SlotsOk(Act(s, e))
  {
    if e.Take? || e.Clear? || e.Finish? {
      PollKeepsSlots(s, e);
    }
  }

  /** What a step adds to the wake-ups under way for a task, or takes away. */
  ghost function Gain(s: State, e: Event, task: Task): int {
    match e
    case Wake(t, x) => One(Wakes(s, t, x) && x == task)
    case Insert(i) => One(Opens(s, i) && task == Task(i, |s.born| + 1))
    case Take => 0 - One(s.executor == Popped(task) && !(Live(s, task) && s.slots[task.index].future))
    case Clear => 0 - One(s.executor == Clearing(task))
    case _ => 0
  }

  lemma WakersMove(s: State, t: Tid, w: Waker, task: Task)
    ensures |Those(s.wakers[t := w], PushesIt(task))| + One(WakerAt(s, t) == Pushing(task))
         == |Those(s.wakers, PushesIt(task))| + One(w == Pushing(task))
  {
    CountAfter(s.wakers, t, w, PushesIt(task));
  }

  lemma CreatedIsPushed(s: State, task: Task)
    ensures (s.ready + multiset(s.creating))[task] == s.ready[task] + One(task in s.creating)
  {
  }

  lemma PendingMovesWithWakers(s: State, e: Event, task: Task)
    requires e.Wake? || e.Push?
    ensures Pending(Act(s, e), task) == Pending(s, task) + Gain(s, e, task)
  {
    match e
    case Wake(t, x) => WakersMove(s, t, Pushing(x), task);
    case Push(t) => WakersMove(s, t, Idle, task);
  }

  lemma PendingMovesWithTheQueue(s: State, e: Event, task: Task)
    requires e.PushNew? || e.Pop?
    ensures Pending(Act(s, e), task) == Pending(s, task)
  {
    CreatedIsPushed(s, task);
  }

  lemma PendingMovesWithTheExecutor(s: State, e: Event, task: Task)
    requires e.Insert? || e.Take? || e.Clear? || e.Finish?
    ensures Pending(Act(s, e), task) == Pending(s, task) + Gain(s, e, task)
  {
    var s' := Act(s, e);
    assert s'.ready == s.ready && s'.wakers == s.wakers;
  }

  lemma PendingMoves(s: State, e: Event, task: Task)
    ensures Pending(Act(s, e), task) == Pending(s, task) + Gain(s, e, task)
  {
    match e
    case Wake(_, _) | Push(_) => PendingMovesWithWakers(s, e, task);
    case PushNew | Pop(_) => PendingMovesWithTheQueue(s, e, task);
    case _ => PendingMovesWithTheExecutor(s, e, task);
  }

  lemma ActKeepsKnown(s: State, e: Event)
    requires KnownOnly(s)
    ensures KnownOnly(Act(s, e))
  {
    var s' := Act(s, e);
    forall task | !Created(s', task) ensures Pending(s', task) == 0 {
      assert !Created(s, task);
      PendingMoves(s, e, task);
    }
  }

  /** A task alive after a step was alive before it, or has just been created. */
  lemma WasLive(s: State, e: Event, task: Task)
    requires SlotsOk(s) && Live(Act(s, e), task)
    ensures Live(s, task) || (e.Insert? && Opens(s, e.index) && task == Task(e.index, |s.born| + 1))
  {
  }

  lemma FlagsMove(s: State, e: Event, task: Task)
    requires SlotsOk(s) && FlagInv(s) && Live(s, task) && Live(Act(s, e), task)
    ensures One(task.generation in Act(s, e).flags) == One(task.generation in s.flags) + Gain(s, e, task)
  {
  }

  lemma ActKeepsFlags(s: State, e: Event)
    requires Good(s)
    ensures FlagInv(Act(s, e))
  {
    var s' := Act(s, e);
    forall task | Live(s', task) ensures Pending(s', task) == One(task.generation in s'.flags) {
      WasLive(s, e, task);
      PendingMoves(s, e, task);
      if Live(s, task) {
        FlagsMove(s, e, task);
      }
    }
  }

  lemma InitIsGood()
    ensures Good(INIT)
  {
    forall task ensures Pending(INIT, task) == 0 {
      assert Those(INIT.wakers, PushesIt(task)) == {};
    }
  }

  lemma {:induction false} RunIsGood(run: seq<State>)
    requires IsRun(run)
    ensures Good(run[|run| - 1])
  {
    if |run| == 1 {
      InitIsGood();
    } else {
      var before := run[..|run| - 1];
      forall i | 0 <= i < |before| - 1 ensures Step(before[i], before[i + 1]) {
        assert Step(run[i], run[i + 1]);
      }
      RunIsGood(before);
      var s, s' := run[|run| - 2], run[|run| - 1];
      assert s == before[|before| - 1] && Step(run[|run| - 2], run[|run| - 2 + 1]);
      var e :| s' == Act(s, e);
      ActKeepsSlots(s, e);
      ActKeepsKnown(s, e);
      ActKeepsFlags(s, e);
    }
  }

  lemma ReachableIsGood(s: State)
    requires Reachable(s)
    ensures Good(s)
  {
    var run :| IsRun(run) && run[|run| - 1] == s;
    RunIsGood(run);
  }

  // ------------------------------------------------------------ the theorems

  /** The flag of a live task is set exactly when one wake-up is under way, and there is never more
      than one: not two ready entries, nor an entry and a waker about to push another. */
  lemma OneWakeUpPerTask(s: State, task: Task)
    requires Reachable(s) && Live(s, task)
    ensures Pending(s, task) == if task.generation in s.flags then 1 else 0
    ensures s.ready[task] <= 1
  {
    ReachableIsGood(s);
  }

  /** Whoever wakes a live task, whether its compare-exchange succeeds or finds the flag set, leaves
      it with a wake-up under way. */
  lemma WakesAreNotLost(s: State, t: Tid, task: Task)
    requires Reachable(s) && Live(s, task) && WakerAt(s, t).Idle?
    ensures Live(Act(s, Wake(t, task)), task) && Pending(Act(s, Wake(t, task)), task) == 1
  {
    ReachableIsGood(s);
    PendingMoves(s, Wake(t, task), task);
    assert Created(s, Task(task.index, s.slots[task.index].generation));
  }

  /** And a wake-up under way stays so until a poll of that very task begins, or a poll already begun
      completes that task: it is never dropped otherwise, not even when the executor takes it up. */
  lemma WakeUpsLeadToAPoll(s: State, e: Event, task: Task)
    requires Reachable(s) && Live(s, task) && Pending(s, task) == 1
    ensures Live(Act(s, e), task) ==> Pending(Act(s, e), task) == 1 || Act(s, e).executor == Polling(task)
    ensures !Live(Act(s, e), task) ==> s.executor == Polling(task) && e == Finish(true)
  {
    ReachableIsGood(s);
    PendingMoves(s, e, task);
  }

  /** The executor polls a task only while it stands in the slot its id names, with its future: an
      id kept from an earlier use of the slot never takes one that uses it now. */
  lemma StaleIdsTakeNothing(s: State, i: nat)
    requires Reachable(s) && i in s.slots && (s.executor.Clearing? || s.executor.Polling?)
    ensures s.executor.task.index == i ==> s.executor.task.generation == s.slots[i].generation
    ensures !s.slots[i].future <==> s.executor.task == Task(i, s.slots[i].generation)
  {
    ReachableIsGood(s);
  }

  /** The future of a live task is there whenever the executor comes to take it. */
  lemma TheFutureIsThere(s: State)
    requires Reachable(s) && s.executor.Popped? && Live(s, s.executor.task)
    ensures Act(s, Take).executor == Clearing(s.executor.task)
  {
    ReachableIsGood(s);
  }

  // ------------------------------------------------------------ how a task lives and ends

  /** A task begins to live only when the executor opens it, with its future in its slot and one wake-up
      under way; and it stops only when its own poll completes it. */
  lemma TasksLiveUntilDone(s: State, e: Event, task: Task)
    requires Reachable(s)
    ensures !Live(s, task) && Live(Act(s, e), task) ==>
      && e.Insert? && Opens(s, e.index) && task == Task(e.index, |s.born| + 1) && !Created(s, task)
      && Act(s, e).slots[task.index].future && Pending(Act(s, e), task) == 1
    ensures Live(s, task) && !Live(Act(s, e), task) ==> s.executor == Polling(task) && e == Finish(true)
  {
    ReachableIsGood(s);
    if !Live(s, task) && Live(Act(s, e), task) {
      WasLive(s, e, task);
      PendingMoves(s, e, task);
      assert !Created(s, task);
    }
  }

  /** What the end of a poll comes to: a task that is done is gone, with its slot vacant, and any other is
      back with its future in its slot; the executor is free again. */
  lemma PollsEnd(s: State, task: Task, done: bool)
    requires Reachable(s) && s.executor == Polling(task) && s.creating == {}
    ensures var s' := Act(s, Finish(done));
      && s'.executor.Resting? && (Live(s', task) <==> !done)
      && (done ==> task.index !in s'.slots) && (!done ==> s'.slots[task.index] == Slot(task.generation, true))
      && s'.ready == s.ready && s'.flags == s.flags
  {
    ReachableIsGood(s);
  }

  /** What is gone never comes back: the slot may be used again, but not by the same task. */
  lemma GoneIsGone(s: State, e: Event, task: Task)
    requires Reachable(s) && Created(s, task) && !Live(s, task)
    ensures Created(Act(s, e), task) && !Live(Act(s, e), task)
  {
    TasksLiveUntilDone(s, e, task);
    var s' := Act(s, e);
    assert s.born <= s'.born;
  }

  /** The executor alone: it takes an entry of a live task out of the ready queue, takes its future,
      clears its flag and polls it. */
  lemma ReadyTasksArePolled(s: State, task: Task)
    requires Reachable(s) && Live(s, task) && task in s.ready && s.executor.Resting? && s.creating == {}
    ensures var s' := Act(Act(Act(s, Pop(task)), Take), Clear);
      && s'.executor == Polling(task) && s'.ready == s.ready - multiset{task}
      && s'.flags == s.flags - {task.generation} && Live(s', task) && !s'.slots[task.index].future
  {
    ReachableIsGood(s);
    var s1 := Act(s, Pop(task));
    assert s1.executor == Popped(task) && s1.slots == s.slots;
  }

  /** An entry of a task that is gone is dropped, and nothing else happens. */
  lemma StaleEntriesAreDropped(s: State, task: Task)
    requires Reachable(s) && !Live(s, task) && task in s.ready && s.executor.Resting? && s.creating == {}
    ensures Act(Act(s, Pop(task)), Take) == s.(ready := s.ready - multiset{task})
  {
  }

  /** A waker alone: its task has exactly one entry in the ready queue if its flag was clear, and
      nothing changes if it was set. */
  lemma WakersAlone(s: State, t: Tid, task: Task)
    requires Reachable(s) && Created(s, task) && WakerAt(s, t).Idle?
    ensures var s' := Act(Act(s, Wake(t, task)), Push(t));
      if task.generation in s.flags then s' == s
      else s'.ready == s.ready + multiset{task} && s'.flags == s.flags + {task.generation} && WakerAt(s', t).Idle?
  {
    var s1 := Act(s, Wake(t, task));
    if task.generation !in s.flags {
      assert WakerAt(s1, t) == Pushing(task);
    }
  }

  /** A task opened alone is in the ready queue. */
  lemma OpenedTasksAreReady(s: State, i: nat)
    requires Reachable(s) && Opens(s, i)
    ensures var s' := Act(Act(s, Insert(i)), PushNew);
      var task := Task(i, |s.born| + 1);
      Live(s', task) && s'.creating == {} && s'.ready == s.ready + multiset{task} && task.generation in s'.flags
  {
    var task := Task(i, |s.born| + 1);
    var one: set<Task> := {task};
    assert multiset(one) == multiset{task};
  }
}
