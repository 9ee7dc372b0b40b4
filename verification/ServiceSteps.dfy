/** One shared service and everybody who touches it: senders, wakers, killers, its creator and the
    workers that execute, clean up and destroy it. One step per atomic access of the mailbox
    state, the queues, `len`, `dead`, `destroyed` and `total`; sequentially consistent memory, any
    number of threads.

    What only the thread executing the service touches (its tasks and its pre-init backlog) moves
    with that thread's steps. User code is arbitrary: a poll may finish a request, pend, finish
    initialising, or exit the service; whatever it sends or spawns is the work of another thread
    of the model, which allows at least as many interleavings.

    `place` is bookkeeping that says where each message is; the invariant ties it to the queues.
 */
module ServiceSteps {
  import opened Basics

  type Tid = nat
  type MsgId = nat

  /** A request has a session and a source and is not itself a reply. */
  datatype Kind = Request | Reply | Plain

  /** Why a thread calls `notify`: it put this message into the mailbox or an entry into the ready
      queue, or it is one of those who see to a service's birth and death. */
  datatype Why = Brought(m: MsgId) | Woke | Killer | Idler | SelfKiller | Creator

  /** ServiceContext::push, wake_task, Node::retire and new_service_inner, up to their notify. */
  datatype Bringing =
    | Sending(m: MsgId)             // about to add one to len
    | Counted(m: MsgId)             // about to put the message into the mailbox
    | Waking                        // about to put an entry into the ready queue
    | Installing                    // the creator: about to put the init task's entry there
    | Killing                       // out of the handle table, about to store dead

  /** Scheduler::pop, and Node::run_service outside take_work. */
  datatype Running =
    | Popped                        // about to store Running
    | Entering                      // about to load dead
    | Topping                       // about to look at the backlog
    | Checking                      // about to load dead after an item
    | Idled                         // Ran::Idle: about to load dead

  /** Mailbox::take_work. */
  datatype Taking =
    | Scanning                      // about to pop the ready queue
    | ScannedReady                  // it was empty: about to pop the mailbox
    | ScannedBoth                   // both were empty: about to compare-exchange Running to Idle
    | Resetting                     // found Notified: about to store Running
    | Took(m: MsgId)                // check_overload: about to subtract one from len

  /** One item of work. */
  datatype Doing =
    | Handling(m: MsgId)            // about to handle the message
    | Polling                       // about to poll a task
    | SelfKilling                   // the poll left the handle table, about to store dead

  /** The body of ServiceContext::cleanup's loop. */
  datatype Cleaning =
    | DropTasks                     // about to fail the requests of all tasks and drop them
    | DrainReady
    | DrainQueue
    | DrainCount(m: MsgId)          // about to subtract one from len
    | DropBacklog

  /** Mailbox::release and the rest of Node::destroy. */
  datatype Ending =
    | Releasing                     // about to compare-exchange Running to Idle
    | Unreleased                    // found Notified: about to store Running
    | Accounting                    // about to swap destroyed
    | Subtracting                   // about to subtract one from total

  datatype Pc =
    | Outside
    | Bring(b: Bringing)
    | Note(why: Why)                // Mailbox::notify: about to load the state
    | Exchange(why: Why, cur: Mode) // about to compare-exchange it
    | Offer(givesBack: bool)        // Scheduler::push: about to store Queued
    | Enqueue                       // about to put the service into a run queue
    | Run(r: Running)
    | Take(k: Taking)
    | Do(d: Doing)
    | Clean(c: Cleaning)
    | End(n: Ending)

  datatype Place =
    | Hand(t: Tid)                  // with a thread: not yet in the mailbox, or just popped from it
    | InMailbox
    | InBacklog
    | InTask
    | Done                          // its task finished, or it needed no answer
    | Errored                       // the kernel sent an ERROR for it
    | Discarded                     // dropped at cleanup; nobody waits for it

  /** What any thread may touch: the mailbox, and the service's entries in the run queues. */
  datatype Box = Box(mode: Mode, queue: seq<MsgId>, ready: nat, len: int, entries: nat)

  /** The service's way out of the node; `charged` counts its subtractions from `total`. */
  datatype Life = Life(inTable: bool, dead: bool, destroyed: bool, released: bool, charged: nat, reserved: bool)

  /** What only the executor touches. */
  datatype Work = Work(initialised: bool, backlogOpen: bool, backlog: seq<MsgId>, tasks: set<MsgId>)

  /** Bookkeeping about messages, and the ERRORs sent. */
  datatype Book = Book(kinds: map<MsgId, Kind>, place: map<MsgId, Place>, errors: multiset<MsgId>)

  datatype Shared = Shared(box: Box, life: Life, work: Work, book: Book, panicked: bool)

  datatype State = State(shared: Shared, threads: map<Tid, Pc>)

  /** What one step of one thread makes of the shared words and of its own position. */
  datatype Next = Next(sh: Shared, pc: Pc)

  /** What a thread outside starts, and what user code, the scheduler or a weak compare-exchange
      makes of a step that leaves a choice. */
  datatype Event =
    | Send(kind: Kind) | Wake | Kill | Pop
    | Flush                         // flush_local carries an entry to the injector
    | Continue | Instead | Yield | Finish(m: MsgId) | Initialise | Exit

  function At(s: State, t: Tid): Pc {
    if t in s.threads then s.threads[t] else Outside
  }

  function Put(b: Book, m: MsgId, p: Place): Book {
    b.(place := b.place[m := p])
  }

  /** `Mailbox::new`: Queued from birth, so that nobody takes the service before it is published. */
  function Init(reserved: bool, creator: Tid): State {
    State(Shared(Box(Queued, [], 0, 0, 0), Life(true, false, false, false, 0, reserved), Work(false, true, [], {}),
                 Book(map[], map[], multiset{}), false),
          map[creator := Bring(Installing)])
  }

  function Act(s: State, t: Tid, e: Event): State {
    var n := Advance(s.shared, t, At(s, t), e);
    State(n.sh, s.threads[t := n.pc])
  }

  /** A thread begins a call, or picks the service from a run queue. */
  function Start(sh: Shared, t: Tid, e: Event): Next {
    var b := sh.box;
    match e
    case Send(kind) =>
      // handles.grab succeeded at some earlier moment, so the service may be dead by now
      var m := |sh.book.place|;
      Next(sh.(book := Put(sh.book, m, Hand(t)).(kinds := sh.book.kinds[m := kind])), Bring(Sending(m)))
    case Wake => Next(sh, Bring(Waking))
    case Kill =>
      // handles.retire, under the table's lock
      if sh.life.inTable then Next(sh.(life := sh.life.(inTable := false)), Bring(Killing)) else Next(sh, Outside)
    case Pop => if b.entries > 0 then Next(sh.(box := b.(entries := b.entries - 1)), Run(Popped)) else Next(sh, Outside)
    case Flush => if b.entries > 0 then Next(sh.(box := b.(entries := b.entries - 1)), Enqueue) else Next(sh, Outside)
    case _ => Next(sh, Outside)
  }

  function Advance(sh: Shared, t: Tid, pc: Pc, e: Event): Next {
    match pc
    case Outside => Start(sh, t, e)
    case Bring(b) => Deliver(sh, b)
    case Note(why) => Next(sh, Saw(sh.box.mode, why))
    case Exchange(why, cur) => Notify(sh, why, cur, e)
    case Offer(_) => Next(sh.(box := sh.box.(mode := Queued)), Enqueue)
    case Enqueue => Next(sh.(box := sh.box.(entries := sh.box.entries + 1)), Outside)
    case Run(r) => Dispatch(sh, t, r, e)
    case Take(k) => TakeWork(sh, t, k, e)
    case Do(d) => RunWork(sh, d, e)
    case Clean(c) => CleanUp(sh, t, c)
    case End(n) => Conclude(sh, n)
  }

  /** Put the work where it belongs, or mark the service dead; then notify. */
  function Deliver(sh: Shared, b: Bringing): Next {
    var x := sh.box;
    match b
    case Sending(m) => Next(sh.(box := x.(len := x.len + 1)), Bring(Counted(m)))
    case Counted(m) =>
      Next(sh.(box := x.(queue := x.queue + [m]), book := Put(sh.book, m, InMailbox)), Note(Brought(m)))
    case Waking => Next(sh.(box := x.(ready := x.ready + 1)), Note(Woke))
    case Installing => Next(sh.(box := x.(ready := x.ready + 1)), Note(Creator))
    case Killing => Next(sh.(life := sh.life.(dead := true)), Note(Killer))
  }

  /** Where a thread goes when `notify` tells it that somebody else will run the service. */
  function AfterNotify(why: Why): Pc {
    match why
    case SelfKiller => Run(Checking)
    case Creator => Offer(false)
    case _ => Outside
  }

  function Saw(mode: Mode, why: Why): Pc {
    if mode == Idle || mode == InUse then Exchange(why, mode) else AfterNotify(why)
  }

  /** `Mailbox::notify`'s compare_exchange_weak, which may fail for no reason; either way the loop
      goes on with the state it saw. */
  function Notify(sh: Shared, why: Why, cur: Mode, e: Event): Next {
    if sh.box.mode != cur || e.Instead? then Next(sh, Saw(sh.box.mode, why))
    else if cur == Idle then Next(sh.(box := sh.box.(mode := Queued)), Offer(false))
    else Next(sh.(box := sh.box.(mode := Notified)), AfterNotify(why))
  }

  /** The loop of `run_service` and its three outcomes in `dispatch_step`. */
  function Dispatch(sh: Shared, t: Tid, r: Running, e: Event): Next {
    var w := sh.work;
    match r
    case Popped => Next(sh.(box := sh.box.(mode := InUse)), Run(Entering))
    case Entering =>
      // a worker that sees the quit signal gives back the service it holds
      Next(sh, if e.Instead? then Offer(true) else if sh.life.dead then Clean(DropTasks) else Run(Topping))
    case Topping =>
      if w.initialised && w.backlog != [] then
        Next(sh.(work := w.(backlog := w.backlog[1..]), book := Put(sh.book, w.backlog[0], Hand(t))),
             Do(Handling(w.backlog[0])))
      else if w.initialised then Next(sh.(work := w.(backlogOpen := false)), Take(Scanning))
      else Next(sh, Take(Scanning))
    case Checking =>
      // Ran::Yielded gives the service back when another one waits, and keeps it otherwise
      Next(sh, if sh.life.dead then Clean(DropTasks)
               else if e.Instead? then Offer(true)
               else if e.Yield? then Run(Entering)
               else Run(Topping))
    case Idled => Next(sh, if sh.life.dead then Note(Idler) else Outside)
  }

  /** `Mailbox::take_work`, one access at a time. */
  function TakeWork(sh: Shared, t: Tid, k: Taking, e: Event): Next {
    var b := sh.box;
    match k
    case Scanning =>
      // after a burst of ready tasks a waiting message goes first
      if e.Instead? && b.queue != [] then TakeMessage(sh, t)
      else if b.ready > 0 then Next(sh.(box := b.(ready := b.ready - 1)), Do(Polling))
      else Next(sh, Take(ScannedReady))
    case ScannedReady => if b.queue != [] then TakeMessage(sh, t) else Next(sh, Take(ScannedBoth))
    case ScannedBoth =>
      if b.mode == InUse then Next(sh.(box := b.(mode := Idle)), Run(Idled))
      else if b.mode == Notified then Next(sh, Take(Resetting))
      else Next(sh.(panicked := true), Take(k))
    case Resetting => Next(sh.(box := b.(mode := InUse)), Take(Scanning))
    case Took(m) => Next(sh.(box := b.(len := b.len - 1)), Do(Handling(m)))
  }

  function TakeMessage(sh: Shared, t: Tid): Next
    requires sh.box.queue != []
  {
    var m := sh.box.queue[0];
    Next(sh.(box := sh.box.(queue := sh.box.queue[1..]), book := Put(sh.book, m, Hand(t))), Take(Took(m)))
  }

  function RunWork(sh: Shared, d: Doing, e: Event): Next {
    match d
    case Handling(m) => Handle(sh, m)
    case Polling => Poll(sh, e)
    case SelfKilling => Next(FailTasks(sh.(life := sh.life.(dead := true))), Note(SelfKiller))
  }

  function KindOf(b: Book, m: MsgId): Kind {
    if m in b.kinds then b.kinds[m] else Plain
  }

  /** `handle_message`: a reply completes a session; before initialisation anything else waits in
      the backlog; afterwards it becomes a task, which remembers a request it has to answer. */
  function Handle(sh: Shared, m: MsgId): Next {
    var w, k := sh.work, KindOf(sh.book, m);
    if k == Reply then Next(sh.(book := Put(sh.book, m, Done)), Run(Checking))
    else if !w.initialised then
      if w.backlogOpen then
        Next(sh.(work := w.(backlog := w.backlog + [m]), book := Put(sh.book, m, InBacklog)), Run(Checking))
      else Next(sh.(panicked := true), Do(Handling(m)))
    else if k == Request then
      Next(sh.(work := w.(tasks := w.tasks + {m}), book := Put(sh.book, m, InTask)), Run(Checking))
    else Next(sh.(book := Put(sh.book, m, Done)), Run(Checking))
  }

  /** One poll of arbitrary user code. */
  function Poll(sh: Shared, e: Event): Next {
    var w := sh.work;
    match e
    case Finish(m) =>
      if m in w.tasks then Next(sh.(work := w.(tasks := w.tasks - {m}), book := Put(sh.book, m, Done)), Run(Checking))
      else Next(sh, Run(Checking))
    case Initialise => Next(sh.(work := w.(initialised := true)), Run(Checking))
    case Exit =>
      if sh.life.inTable then Next(sh.(life := sh.life.(inTable := false)), Do(SelfKilling))
      else Next(sh, Run(Checking))
    case _ => Next(sh, Run(Checking))
  }

  /** `fail_inflight`: every task's request gets one ERROR and is forgotten. */
  function FailTasks(sh: Shared): Shared {
    var tasks := sh.work.tasks;
    sh.(work := sh.work.(tasks := {}),
        book := sh.book.(errors := sh.book.errors + multiset(tasks),
                         place := map m | m in sh.book.place :: if m in tasks then Errored else sh.book.place[m]))
  }

  /** What cleanup makes of a message nobody will handle. */
  function Fate(b: Book, m: MsgId): Place {
    if KindOf(b, m) == Request then Errored else Discarded
  }

  /** The messages of a list that get an ERROR at cleanup. */
  function Failing(b: Book, ms: seq<MsgId>): multiset<MsgId> {
    if ms == [] then multiset{}
    else (if Fate(b, ms[0]).Errored? then multiset{ms[0]} else multiset{}) + Failing(b, ms[1..])
  }

  /** The body of `cleanup`'s loop. */
  function CleanUp(sh: Shared, t: Tid, c: Cleaning): Next {
    var b := sh.box;
    match c
    case DropTasks => Next(FailTasks(sh), Clean(DrainReady))
    case DrainReady =>
      if b.ready > 0 then Next(sh.(box := b.(ready := b.ready - 1)), Clean(DrainReady)) else Next(sh, Clean(DrainQueue))
    case DrainQueue =>
      if b.queue != [] then
        Next(sh.(box := b.(queue := b.queue[1..]), book := Put(sh.book, b.queue[0], Hand(t))),
             Clean(DrainCount(b.queue[0])))
      else Next(sh, Clean(DropBacklog))
    case DrainCount(m) =>
      Next(sh.(box := b.(len := b.len - 1),
               book := Put(sh.book, m, Fate(sh.book, m)).(errors := sh.book.errors + Failing(sh.book, [m]))),
           Clean(DrainQueue))
    case DropBacklog => Next(FailBacklog(sh), End(Releasing))
  }

  function FailBacklog(sh: Shared): Shared {
    var backlog := sh.work.backlog;
    sh.(work := sh.work.(backlog := [], backlogOpen := false),
        book := sh.book.(errors := sh.book.errors + Failing(sh.book, backlog),
                         place := map m | m in sh.book.place ::
                           if m in backlog then Fate(sh.book, m) else sh.book.place[m]))
  }

  /** `Mailbox::release`, which sends cleanup round again if anything came in, then `destroy`'s
      accounting. */
  function Conclude(sh: Shared, n: Ending): Next {
    var b, l := sh.box, sh.life;
    match n
    case Releasing =>
      if b.mode == InUse then Next(sh.(box := b.(mode := Idle), life := l.(released := true)), End(Accounting))
      else if b.mode == Notified then Next(sh, End(Unreleased))
      else Next(sh.(panicked := true), End(n))
    case Unreleased => Next(sh.(box := b.(mode := InUse)), Clean(DropTasks))
    case Accounting =>
      Next(sh.(life := l.(destroyed := true)), if l.destroyed || l.reserved then Outside else End(Subtracting))
    case Subtracting => Next(sh.(life := l.(charged := l.charged + 1)), Outside)
  }

  ghost predicate Step(s: State, s': State) {
    exists t, e :: s' == Act(s, t, e)
  }

  ghost predicate IsRun(run: seq<State>) {
    && |run| > 0
    && (exists reserved, creator :: run[0] == Init(reserved, creator))
    && forall i :: 0 <= i < |run| - 1 ==> Step(run[i], run[i + 1])
  }

  ghost predicate Reachable(s: State) {
    exists run :: IsRun(run) && run[|run| - 1] == s
  }
}
