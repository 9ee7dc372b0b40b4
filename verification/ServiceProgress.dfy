/** What becomes of messages and of a service: where every step takes every message, that a cleanup
    answers every request it finds, and what sending, killing, running and destroying come to.
 */
module ServiceProgress {
  import opened Basics
  import opened ServiceSteps
  import opened ServiceSafety
  import opened ServiceProof
  import opened ServiceBook
  import opened ServiceTheorems
  import opened Crew

  // ------------------------------------------------------------ where messages go

  /** Where handling a message takes it: a reply has then done its part; before initialisation all else
      waits; afterwards a request is remembered by its task. */
  function HandledTo(sh: Shared, m: MsgId): Place {
    if KindOf(sh.book, m) == Reply then Done
    else if !sh.work.initialised then InBacklog
    else if KindOf(sh.book, m) == Request then InTask
    else Done
  }

  /** A thread that is about to take the next message out of the mailbox. */
  predicate TakesNext(sh: Shared, pc: Pc, e: Event) {
    || pc == Take(ScannedReady) || (pc == Take(Scanning) && e.Instead?) || pc == Clean(DrainQueue)
  }

  /** Where a step of `t` takes a message. */
  function TakenTo(sh: Shared, t: Tid, pc: Pc, e: Event, m: MsgId): Place
    requires m in sh.book.place
  {
    var p := sh.book.place[m];
    match p
    case Hand(u) =>
      if u != t then p
      else if pc == Bring(Counted(m)) then InMailbox
      else if pc == Do(Handling(m)) then HandledTo(sh, m)
      else if pc == Clean(DrainCount(m)) then Fate(sh.book, m)
      else p
    case InMailbox => if TakesNext(sh, pc, e) && sh.box.queue != [] && m == sh.box.queue[0] then Hand(t) else p
    case InBacklog =>
      if pc == Run(Topping) && sh.work.initialised && sh.work.backlog != [] && m == sh.work.backlog[0] then Hand(t)
      else if pc == Clean(DropBacklog) then Fate(sh.book, m)
      else p
    case InTask =>
      if pc == Do(Polling) && e == Finish(m) then Done
      else if pc == Clean(DropTasks) || pc == Do(SelfKilling) then Errored
      else p
    case _ => p
  }

  /** The step takes every message where it should, and sends an ERROR for exactly those it fails. */
  ghost predicate Carries(sh: Shared, t: Tid, pc: Pc, e: Event, n: Next, m: MsgId)
    requires m in sh.book.place
  {
    && m in n.sh.book.place && n.sh.book.place[m] == TakenTo(sh, t, pc, e, m)
    && KindOf(n.sh.book, m) == KindOf(sh.book, m)
    && n.sh.book.errors[m] == sh.book.errors[m] + One(n.sh.book.place[m].Errored? && !sh.book.place[m].Errored?)
  }

  /** What the books say about one message, and about the thread that moves. */
  ghost predicate Bound(sh: Shared, t: Tid, pc: Pc, m: MsgId) {
    && m in sh.book.place && NoRepeats(sh.work.backlog)
    && (sh.book.place[m] == Hand(t) <==> Carried(pc) == Some(m))
    && (sh.book.place[m] == InMailbox <==> m in sh.box.queue)
    && (sh.book.place[m] == InBacklog <==> m in sh.work.backlog)
    && (sh.book.place[m] == InTask <==> m in sh.work.tasks)
    && (sh.book.place[m].InTask? ==> KindOf(sh.book, m) == Request)
  }

  lemma FiledIsBound(sh: Shared, t: Tid, pc: Pc, m: MsgId)
    requires Filed(sh, t, pc) && m in sh.book.place
    ensures Bound(sh, t, pc, m) && (pc.Outside? ==> |sh.book.place| !in sh.book.place)
  {
    assert Is(sh.book, m, sh.book.place[m]) && Fits(KindOf(sh.book, m), sh.book.place[m]);
  }

  lemma StartCarries(sh: Shared, t: Tid, e: Event, m: MsgId)
    requires Bound(sh, t, Outside, m) && |sh.book.place| !in sh.book.place
    ensures Carries(sh, t, Outside, e, Start(sh, t, e), m)
  {
  }

  lemma DeliverCarries(sh: Shared, t: Tid, b: Bringing, e: Event, m: MsgId)
    requires Bound(sh, t, Bring(b), m)
    ensures Carries(sh, t, Bring(b), e, Deliver(sh, b), m)
  {
  }

  lemma DispatchCarries(sh: Shared, t: Tid, r: Running, e: Event, m: MsgId)
    requires Bound(sh, t, Run(r), m)
    ensures Carries(sh, t, Run(r), e, Dispatch(sh, t, r, e), m)
  {
  }

  lemma TakeWorkCarries(sh: Shared, t: Tid, k: Taking, e: Event, m: MsgId)
    requires Bound(sh, t, Take(k), m)
    ensures Carries(sh, t, Take(k), e, TakeWork(sh, t, k, e), m)
  {
  }

  lemma HandleCarries(sh: Shared, t: Tid, x: MsgId, e: Event, m: MsgId)
    requires Bound(sh, t, Do(Handling(x)), m) && (sh.work.initialised || sh.work.backlogOpen)
    ensures Carries(sh, t, Do(Handling(x)), e, Handle(sh, x), m)
  {
  }

  lemma PollCarries(sh: Shared, t: Tid, e: Event, m: MsgId)
    requires Bound(sh, t, Do(Polling), m)
    ensures Carries(sh, t, Do(Polling), e, Poll(sh, e), m)
  {
  }

  lemma FailTasksCarries(sh: Shared, t: Tid, pc: Pc, e: Event, n: Next, m: MsgId)
    requires Bound(sh, t, pc, m) && Carried(pc) == None
    requires pc == Clean(DropTasks) || pc == Do(SelfKilling)
    requires n.sh.book == FailTasks(sh).book
    ensures Carries(sh, t, pc, e, n, m)
  {
  }

  lemma CountCarries(sh: Shared, t: Tid, x: MsgId, e: Event, m: MsgId)
    requires Bound(sh, t, Clean(DrainCount(x)), m)
    ensures Carries(sh, t, Clean(DrainCount(x)), e, CleanUp(sh, t, DrainCount(x)), m)
  {
    assert Failing(sh.book, [x]) == if Fate(sh.book, x).Errored? then multiset{x} else multiset{};
  }

  lemma CleanUpCarries(sh: Shared, t: Tid, c: Cleaning, e: Event, m: MsgId)
    requires Bound(sh, t, Clean(c), m)
    ensures Carries(sh, t, Clean(c), e, CleanUp(sh, t, c), m)
  {
    match c
    case DropTasks => FailTasksCarries(sh, t, Clean(c), e, CleanUp(sh, t, c), m);
    case DrainCount(x) => CountCarries(sh, t, x, e, m);
    case DropBacklog => FailingCounts(sh.book, sh.work.backlog, m);
    case _ =>
  }

  lemma AdvanceCarries(sh: Shared, t: Tid, pc: Pc, e: Event, m: MsgId)
    requires Bound(sh, t, pc, m) && (pc.Outside? ==> |sh.book.place| !in sh.book.place)
    requires pc.Do? && pc.d.Handling? ==> sh.work.initialised || sh.work.backlogOpen
    ensures Carries(sh, t, pc, e, Advance(sh, t, pc, e), m)
  {
    match pc
    case Outside => StartCarries(sh, t, e, m);
    case Bring(b) => DeliverCarries(sh, t, b, e, m);
    case Run(r) => DispatchCarries(sh, t, r, e, m);
    case Take(k) => TakeWorkCarries(sh, t, k, e, m);
    case Do(Handling(x)) => HandleCarries(sh, t, x, e, m);
    case Do(Polling) => PollCarries(sh, t, e, m);
    case Do(SelfKilling) => FailTasksCarries(sh, t, pc, e, Advance(sh, t, pc, e), m);
    case Clean(c) => CleanUpCarries(sh, t, c, e, m);
    case _ =>
  }

  lemma StateIsBound(s: State, t: Tid, m: MsgId)
    requires Reachable(s) && m in s.shared.book.place
    ensures Bound(s.shared, t, At(s, t), m) && (At(s, t).Outside? ==> |s.shared.book.place| !in s.shared.book.place)
    ensures At(s, t).Do? && At(s, t).d.Handling? ==> s.shared.work.initialised || s.shared.work.backlogOpen
  {
    ReachableIsGood(s);
    FiledIsBound(s.shared, t, At(s, t), m);
    InvIsLocal(s, t);
  }

  /** In every reachable state every step of anybody takes every message exactly where it should, and
      sends an ERROR for exactly the requests it fails. */
  lemma MessagesGoWhereTheyShould(s: State, t: Tid, e: Event, m: MsgId)
    requires Reachable(s) && m in s.shared.book.place
    ensures Carries(s.shared, t, At(s, t), e, Advance(s.shared, t, At(s, t), e), m)
  {
    StateIsBound(s, t, m);
    AdvanceCarries(s.shared, t, At(s, t), e, m);
  }

  /** A request comes to an end in two ways only: the poll of its task finishes it, or it gets one ERROR,
      from a thread that cleans up or exits the service. And that is its end. */
  lemma RequestsEndByPollOrError(s: State, t: Tid, e: Event, m: MsgId)
    requires Reachable(s) && m in s.shared.book.place && KindOf(s.shared.book, m) == Request
    ensures var p, b' := s.shared.book.place[m], Act(s, t, e).shared.book;
      && m in b'.place && !b'.place[m].Discarded?
      && (b'.place[m].Done? && !p.Done? ==> p.InTask? && At(s, t) == Do(Polling) && e == Finish(m))
      && (b'.place[m].Errored? && !p.Errored? ==>
            (At(s, t).Clean? || At(s, t) == Do(SelfKilling)) && b'.errors[m] == 1 && s.shared.book.errors[m] == 0)
      && (p.Done? || p.Errored? ==> b'.place[m] == p && b'.errors[m] == s.shared.book.errors[m])
  {
    MessagesGoWhereTheyShould(s, t, e, m);
    RequestsAreAccounted(s, m);
  }

  // ------------------------------------------------------------ a cleanup answers everybody

  /** One round of `cleanup`, up to the release. */
  predicate InCleanup(pc: Pc) {
    pc.Clean? || pc == End(Releasing)
  }

  predicate Answerable(p: Place) {
    p.InTask? || p.InMailbox? || p.InBacklog?
  }

  /** A request that was there when `t` began to clean up: it has got its ERROR, or `t` has yet to come to
      it. */
  predicate Ahead(s: State, t: Tid, m: MsgId) {
    m in s.shared.book.place &&
    match s.shared.book.place[m]
    case Errored => true
    case InTask => At(s, t) == Clean(DropTasks)
    case InMailbox => At(s, t).Clean? && !At(s, t).c.DropBacklog?
    case InBacklog => At(s, t).Clean?
    case Hand(u) => u == t && At(s, t) == Clean(DrainCount(m))
    case _ => false
  }

  lemma OwnCleanupStep(s: State, t: Tid, e: Event, m: MsgId)
    requires Reachable(s) && InCleanup(At(s, t)) && Ahead(s, t, m) && KindOf(s.shared.book, m) == Request
    requires InCleanup(At(Act(s, t, e), t))
    ensures Ahead(Act(s, t, e), t, m)
  {
    StateIsBound(s, t, m);
    MessagesGoWhereTheyShould(s, t, e, m);
  }

  lemma OthersDoNotTake(s: State, t: Tid, u: Tid, e: Event, m: MsgId)
    requires Reachable(s) && InCleanup(At(s, t)) && Ahead(s, t, m) && u != t
    ensures Ahead(Act(s, u, e), t, m)
  {
    StateIsBound(s, u, m);
    MessagesGoWhereTheyShould(s, u, e, m);
    SingleExecutor(s);
    assert HasToken(At(s, t)) && !HasToken(At(s, u));
  }

  lemma PrefixIsReachable(run: seq<State>, n: nat)
    requires IsRun(run) && n < |run|
    ensures Reachable(run[n])
  {
    var part := run[..n + 1];
    forall i | 0 <= i < |part| - 1 ensures Step(part[i], part[i + 1]) {
      assert Step(run[i], run[i + 1]);
    }
    assert part[0] == run[0] && IsRun(part) && part[|part| - 1] == run[n];
  }

  /** The request of a cleanup under way is still ahead of it, or answered. */
  predicate Underway(s: State, t: Tid, m: MsgId) {
    Ahead(s, t, m) && KindOf(s.shared.book, m) == Request
  }

  predicate StaysUnderway(s: State, s': State, t: Tid, m: MsgId) {
    Underway(s, t, m) && InCleanup(At(s, t)) && InCleanup(At(s', t)) ==> Underway(s', t, m)
  }

  lemma StepStaysUnderway(run: seq<State>, n: nat, t: Tid, m: MsgId)
    requires IsRun(run) && n + 1 < |run|
    ensures StaysUnderway(run[n], run[n + 1], t, m)
  {
    PrefixIsReachable(run, n);
    assert Step(run[n], run[n + 1]);
    var u, e :| run[n + 1] == Act(run[n], u, e);
    if Underway(run[n], t, m) && InCleanup(At(run[n], t)) && InCleanup(At(run[n + 1], t)) {
      MessagesGoWhereTheyShould(run[n], u, e, m);
      if u == t {
        OwnCleanupStep(run[n], t, e, m);
      } else {
        OthersDoNotTake(run[n], t, u, e, m);
      }
    }
  }

  lemma {:induction false} StaysAhead(run: seq<State>, i: nat, j: nat, t: Tid, m: MsgId)
    requires i <= j < |run| && Underway(run[i], t, m)
    requires forall k :: i <= k <= j ==> InCleanup(At(run[k], t))
    requires forall k :: i <= k < j ==> StaysUnderway(run[k], run[k + 1], t, m)
    ensures Underway(run[j], t, m)
    decreases j
  {
    if i < j {
      StaysAhead(run, i, j - 1, t, m);
      assert StaysUnderway(run[j - 1], run[j - 1 + 1], t, m);
    }
  }

  /** Whoever cleans up a service answers every request that was in a task, in the mailbox or in the
      backlog when it began: by the time it comes to release the mailbox, each has got exactly one
      ERROR, whatever others do meanwhile. */
  lemma CleanupAnswersAll(run: seq<State>, i: nat, j: nat, t: Tid, m: MsgId)
    requires IsRun(run) && i <= j < |run| && At(run[i], t) == Clean(DropTasks) && At(run[j], t) == End(Releasing)
    requires forall k :: i <= k <= j ==> InCleanup(At(run[k], t))
    requires m in run[i].shared.book.place && Answerable(run[i].shared.book.place[m])
    requires KindOf(run[i].shared.book, m) == Request
    ensures m in run[j].shared.book.place && run[j].shared.book.place[m].Errored? && run[j].shared.book.errors[m] == 1
  {
    forall k | i <= k < j ensures StaysUnderway(run[k], run[k + 1], t, m) {
      StepStaysUnderway(run, k, t, m);
    }
    StaysAhead(run, i, j, t, m);
    PrefixIsReachable(run, j);
    AllKnown(run[j], m);
    RequestsAreAccounted(run[j], m);
  }

  lemma AllKnown(s: State, m: MsgId)
    requires Reachable(s) && m in s.shared.book.place
    ensures m in s.shared.book.kinds
  {
    ReachableIsGood(s);
  }

  // ------------------------------------------------------------ calls that run alone

  /** A thread takes `n` steps, nothing out of the ordinary, and nobody else any. */
  function Solo(sh: Shared, t: Tid, pc: Pc, n: nat): Next
    decreases n
  {
    if n == 0 then Next(sh, pc)
    else
      var x := Advance(sh, t, pc, Continue);
      Solo(x.sh, t, x.pc, n - 1)
  }

  lemma {:induction false} SoloAdds(sh: Shared, t: Tid, pc: Pc, n: nat, m: nat)
    ensures var x := Solo(sh, t, pc, n); Solo(sh, t, pc, n + m) == Solo(x.sh, t, x.pc, m)
    decreases n
  {
    if n > 0 {
      var x := Advance(sh, t, pc, Continue);
      SoloAdds(x.sh, t, x.pc, n - 1, m);
    }
  }

  /** What `notify` makes of a mailbox: an idle one is queued for a worker, a held one is marked. */
  function Noted(b: Box): Box {
    match b.mode
    case Idle => b.(mode := Queued, entries := b.entries + 1)
    case InUse => b.(mode := Notified)
    case _ => b
  }

  lemma SoloNote(sh: Shared, t: Tid, why: Why) returns (n: nat)
    requires !why.SelfKiller? && !why.Creator?
    ensures Solo(sh, t, Note(why), n) == Next(sh.(box := Noted(sh.box)), Outside)
  {
    var sh' := sh.(box := Noted(sh.box));
    assert Solo(sh', t, Outside, 0) == Next(sh', Outside);
    match sh.box.mode
    case Idle =>
      var sh1 := sh.(box := sh.box.(mode := Queued));
      assert Solo(sh1, t, Enqueue, 1) == Next(sh', Outside);
      assert Solo(sh1, t, Offer(false), 2) == Next(sh', Outside);
      assert Solo(sh, t, Exchange(why, Idle), 3) == Next(sh', Outside);
      n := 4;
    case InUse =>
      assert Solo(sh, t, Exchange(why, InUse), 1) == Next(sh', Outside);
      n := 2;
    case _ => n := 1;
  }

  /** A message sent alone is last in the mailbox, counted and announced. */
  lemma SoloSend(sh: Shared, t: Tid, kind: Kind) returns (n: nat)
    ensures var x, m := Start(sh, t, Send(kind)), |sh.book.place|;
      var full := sh.box.(queue := sh.box.queue + [m], len := sh.box.len + 1);
      var book := sh.book.(place := sh.book.place[m := InMailbox], kinds := sh.book.kinds[m := kind]);
      Solo(x.sh, t, x.pc, n) == Next(sh.(box := Noted(full), book := book), Outside)
  {
    var x, m := Start(sh, t, Send(kind)), |sh.book.place|;
    var sh1 := x.sh.(box := x.sh.box.(len := x.sh.box.len + 1));
    var sh2 := sh1.(box := sh1.box.(queue := sh1.box.queue + [m]), book := Put(sh1.book, m, InMailbox));
    assert sh2.book.place == sh.book.place[m := InMailbox];
    n := SoloNote(sh2, t, Brought(m));
    assert Solo(sh1, t, Bring(Counted(m)), n + 1) == Solo(sh2, t, Note(Brought(m)), n);
    n := n + 2;
  }

  /** A wake-up alone adds one ready entry and announces it. */
  lemma SoloWake(sh: Shared, t: Tid) returns (n: nat)
    ensures var x := Start(sh, t, Wake);
      Solo(x.sh, t, x.pc, n) == Next(sh.(box := Noted(sh.box.(ready := sh.box.ready + 1))), Outside)
  {
    var sh1 := sh.(box := sh.box.(ready := sh.box.ready + 1));
    n := SoloNote(sh1, t, Woke);
    assert Solo(sh, t, Bring(Waking), n + 1) == Solo(sh1, t, Note(Woke), n);
    n := n + 1;
  }

  /** A kill alone takes the service out of the table, marks it dead and announces that; a second one
      does nothing. */
  lemma SoloKill(sh: Shared, t: Tid) returns (n: nat)
    ensures var x := Start(sh, t, Kill);
      Solo(x.sh, t, x.pc, n) ==
      if sh.life.inTable then Next(sh.(life := sh.life.(inTable := false, dead := true), box := Noted(sh.box)), Outside)
      else Next(sh, Outside)
  {
    if sh.life.inTable {
      var sh1 := sh.(life := sh.life.(inTable := false));
      var sh2 := sh.(life := sh.life.(inTable := false, dead := true));
      n := SoloNote(sh2, t, Killer);
      assert Solo(sh1, t, Bring(Killing), n + 1) == Solo(sh2, t, Note(Killer), n);
      n := n + 1;
    } else {
      n := 0;
    }
  }

  /** The creator alone makes the init task ready and puts the service into a run queue. */
  lemma SoloCreate(reserved: bool, t: Tid)
    ensures var s := Init(reserved, t);
      Solo(s.shared, t, At(s, t), 4) == Next(s.shared.(box := Box(Queued, [], 1, 0, 1)), Outside)
  {
    var sh := Init(reserved, t).shared;
    var sh1 := sh.(box := Box(Queued, [], 1, 0, 0));
    var sh2 := sh.(box := Box(Queued, [], 1, 0, 1));
    assert Solo(sh2, t, Outside, 0) == Next(sh2, Outside);
    assert Solo(sh1, t, Enqueue, 1) == Next(sh2, Outside);
    assert Solo(sh1, t, Offer(false), 2) == Next(sh2, Outside);
    assert Solo(sh1, t, Note(Creator), 3) == Next(sh2, Outside);
  }

  // ------------------------------------------------------------ a worker alone

  lemma {:induction false} DrainReadyEnds(sh: Shared, t: Tid)
    ensures Solo(sh, t, Clean(DrainReady), sh.box.ready + 1) == Next(sh.(box := sh.box.(ready := 0)), Clean(DrainQueue))
    decreases sh.box.ready
  {
    if sh.box.ready == 0 {
      assert Solo(sh, t, Clean(DrainQueue), 0) == Next(sh, Clean(DrainQueue));
    } else {
      DrainReadyEnds(sh.(box := sh.box.(ready := sh.box.ready - 1)), t);
    }
  }

  lemma {:induction false} DrainQueueEnds(sh: Shared, t: Tid) returns (n: nat)
    ensures var x := Solo(sh, t, Clean(DrainQueue), n);
      && x.pc == Clean(DropBacklog) && x.sh.life == sh.life && x.sh.work == sh.work
      && x.sh.box == sh.box.(queue := [], len := sh.box.len - |sh.box.queue|)
    decreases |sh.box.queue|
  {
    var x1 := Advance(sh, t, Clean(DrainQueue), Continue);
    if sh.box.queue == [] {
      assert Solo(x1.sh, t, x1.pc, 0) == x1;
      n := 1;
    } else {
      var x2 := Advance(x1.sh, t, x1.pc, Continue);
      n := DrainQueueEnds(x2.sh, t);
      assert Solo(x1.sh, t, x1.pc, n + 1) == Solo(x2.sh, t, x2.pc, n);
      n := n + 2;
    }
  }

  /** A worker alone with a dead service it has taken from a run queue cleans it up, releases it and
      accounts for it once: nothing is left in it. */
  lemma SoloDestroy(sh: Shared, t: Tid) returns (n: nat)
    requires sh.life.dead
    ensures var x := Solo(sh, t, Run(Popped), n);
      && x.pc.Outside?
      && x.sh.box == Box(Idle, [], 0, sh.box.len - |sh.box.queue|, sh.box.entries)
      && x.sh.work == sh.work.(tasks := {}, backlog := [], backlogOpen := false)
      && x.sh.life == sh.life.(destroyed := true, released := true,
           charged := sh.life.charged + One(!sh.life.destroyed && !sh.life.reserved))
  {
    var sh1 := sh.(box := sh.box.(mode := InUse));
    var sh2 := FailTasks(sh1);
    assert Solo(sh2, t, Clean(DrainReady), 0) == Next(sh2, Clean(DrainReady));
    assert Solo(sh1, t, Clean(DropTasks), 1) == Next(sh2, Clean(DrainReady));
    assert Solo(sh1, t, Run(Entering), 2) == Next(sh2, Clean(DrainReady));
    assert Solo(sh, t, Run(Popped), 3) == Next(sh2, Clean(DrainReady));
    DrainReadyEnds(sh2, t);
    SoloAdds(sh, t, Run(Popped), 3, sh2.box.ready + 1);
    n := 3 + sh2.box.ready + 1;
    var sh3 := sh2.(box := sh2.box.(ready := 0));
    var k := DrainQueueEnds(sh3, t);
    SoloAdds(sh, t, Run(Popped), n, k);
    n := n + k;
    var x := Solo(sh, t, Run(Popped), n);
    k := SoloRelease(x.sh, t);
    SoloAdds(sh, t, Run(Popped), n, k);
    n := n + k;
  }

  lemma SoloRelease(sh: Shared, t: Tid) returns (n: nat)
    requires sh.box.mode == InUse
    ensures var x := Solo(sh, t, Clean(DropBacklog), n);
      && x.pc.Outside? && x.sh.box == sh.box.(mode := Idle)
      && x.sh.work == sh.work.(backlog := [], backlogOpen := false)
      && x.sh.life == sh.life.(destroyed := true, released := true,
           charged := sh.life.charged + One(!sh.life.destroyed && !sh.life.reserved))
  {
    var sh1 := FailBacklog(sh);
    var sh2 := sh1.(box := sh1.box.(mode := Idle), life := sh1.life.(released := true));
    var sh3 := sh2.(life := sh2.life.(destroyed := true));
    if sh.life.destroyed || sh.life.reserved {
      assert Solo(sh3, t, Outside, 0) == Next(sh3, Outside);
      assert Solo(sh2, t, End(Accounting), 1) == Next(sh3, Outside);
      assert Solo(sh1, t, End(Releasing), 2) == Next(sh3, Outside);
      n := 3;
    } else {
      var sh4 := sh3.(life := sh3.life.(charged := sh3.life.charged + 1));
      assert Solo(sh4, t, Outside, 0) == Next(sh4, Outside);
      assert Solo(sh3, t, End(Subtracting), 1) == Next(sh4, Outside);
      assert Solo(sh2, t, End(Accounting), 2) == Next(sh4, Outside);
      assert Solo(sh1, t, End(Releasing), 3) == Next(sh4, Outside);
      n := 4;
    }
  }

  /** What is left to do for a worker that holds the service. */
  function WorkLeft(sh: Shared): nat {
    sh.box.ready + |sh.box.queue| + if sh.work.initialised then |sh.work.backlog| else 0
  }

  function RunRank(sh: Shared, pc: Pc): nat {
    8 * WorkLeft(sh) +
    match pc
    case Run(Popped) => 10
    case Run(Entering) => 9
    case Run(Checking) => 8
    case Run(Topping) => 5
    case Take(Scanning) => 4
    case Take(ScannedReady) => 3
    case Take(ScannedBoth) => 2
    case Run(Idled) => 1
    case Take(Took(_)) => 10
    case Do(_) => 9
    case _ => 0
  }

  /** Where a worker that runs a live service alone stands, and what it has seen. */
  predicate RunOk(sh: Shared, pc: Pc) {
    && !sh.life.dead && (sh.work.initialised || sh.work.backlogOpen)
    && (pc.Run? || (pc.Take? && !pc.k.Resetting?) || (pc.Do? && !pc.d.SelfKilling?))
    && (pc != Run(Popped) ==> sh.box.mode == if pc == Run(Idled) then Idle else InUse)
    && ((pc.Take? && !pc.k.Took?) || pc == Run(Idled) ==> sh.work.initialised ==> sh.work.backlog == [])
    && (pc == Take(ScannedReady) ==> sh.box.ready == 0)
    && (pc == Take(ScannedBoth) || pc == Run(Idled) ==> sh.box.ready == 0 && sh.box.queue == [])
  }

  /** Nothing is left to do, and the service is at rest. */
  predicate RunOver(sh: Shared) {
    sh.box.mode == Idle && sh.box.ready == 0 && sh.box.queue == [] && (sh.work.initialised ==> sh.work.backlog == [])
  }

  lemma RunGoesOn(sh: Shared, t: Tid, pc: Pc)
    requires RunOk(sh, pc)
    ensures var x := Advance(sh, t, pc, Continue);
      && x.sh.life == sh.life && x.sh.work.initialised == sh.work.initialised
      && (if pc == Run(Idled) then x.pc.Outside? && RunOver(x.sh)
          else RunOk(x.sh, x.pc) && RunRank(x.sh, x.pc) < RunRank(sh, pc))
  {
  }

  lemma {:induction false} RunEnds(sh: Shared, t: Tid, pc: Pc) returns (n: nat)
    requires RunOk(sh, pc)
    ensures var x := Solo(sh, t, pc, n);
      x.pc.Outside? && RunOver(x.sh) && x.sh.life == sh.life && x.sh.work.initialised == sh.work.initialised
    decreases RunRank(sh, pc)
  {
    RunGoesOn(sh, t, pc);
    var x := Advance(sh, t, pc, Continue);
    if pc == Run(Idled) {
      assert Solo(x.sh, t, x.pc, 0) == x;
      n := 1;
    } else {
      n := RunEnds(x.sh, t, x.pc);
      n := n + 1;
    }
  }

  /** A worker alone with a live service it has taken from a run queue works off everything in it, and
      leaves it at rest. */
  lemma SoloRun(s: State, t: Tid) returns (n: nat)
    requires Reachable(s) && At(s, t) == Run(Popped) && !s.shared.life.dead
    ensures var x := Solo(s.shared, t, Run(Popped), n);
      x.pc.Outside? && RunOver(x.sh) && x.sh.life == s.shared.life
  {
    ReachableIsGood(s);
    n := RunEnds(s.shared, t, Run(Popped));
  }

  // ------------------------------------------------------------ what may happen on the way

  /** A worker takes the service exactly if a run queue has it; an entry carried to another queue is still
      one entry. */
  lemma EntriesAreTaken(sh: Shared, t: Tid)
    ensures var x := Start(sh, t, Pop);
      if sh.box.entries > 0 then x == Next(sh.(box := sh.box.(entries := sh.box.entries - 1)), Run(Popped))
      else x == Next(sh, Outside)
    ensures sh.box.entries > 0 ==> var x := Start(sh, t, Flush); Solo(x.sh, t, x.pc, 1) == Next(sh, Outside)
  {
    assert Solo(sh, t, Outside, 0) == Next(sh, Outside);
  }

  /** A worker that yields a live service, or has to give it back because the node quits, puts it into a
      run queue again; nothing else changes. */
  lemma GivenBack(sh: Shared, t: Tid, pc: Pc)
    requires pc == Run(Entering) || (pc == Run(Checking) && !sh.life.dead)
    ensures var x := Advance(sh, t, pc, Instead);
      Solo(x.sh, t, x.pc, 2) == Next(sh.(box := sh.box.(mode := Queued, entries := sh.box.entries + 1)), Outside)
  {
    var queued := sh.(box := sh.box.(mode := Queued));
    var back := sh.(box := sh.box.(mode := Queued, entries := sh.box.entries + 1));
    assert Solo(back, t, Outside, 0) == Next(back, Outside);
    assert Solo(queued, t, Enqueue, 1) == Next(back, Outside);
  }

  /** A poll that exits the service takes it out of the table, marks it dead and fails the requests of
      all tasks; the worker itself then goes on to clean it up. */
  lemma ExitLeadsToCleanup(sh: Shared, t: Tid) returns (n: nat)
    requires sh.life.inTable && (sh.box.mode == InUse || sh.box.mode == Notified)
    ensures var x := Advance(sh, t, Do(Polling), Exit);
      var y := Solo(x.sh, t, x.pc, n);
      && y.pc == Clean(DropTasks) && y.sh.life == sh.life.(inTable := false, dead := true)
      && y.sh.work == sh.work.(tasks := {}) && y.sh.book == FailTasks(sh).book
      && y.sh.box == sh.box.(mode := Notified)
  {
    var sh1 := sh.(life := sh.life.(inTable := false));
    var sh2 := FailTasks(sh1.(life := sh1.life.(dead := true)));
    var sh3 := sh2.(box := sh2.box.(mode := Notified));
    assert Solo(sh3, t, Clean(DropTasks), 0) == Next(sh3, Clean(DropTasks));
    assert Solo(sh3, t, Run(Checking), 1) == Next(sh3, Clean(DropTasks));
    if sh.box.mode == InUse {
      assert Solo(sh2, t, Exchange(SelfKiller, InUse), 2) == Next(sh3, Clean(DropTasks));
      assert Solo(sh2, t, Note(SelfKiller), 3) == Next(sh3, Clean(DropTasks));
      n := 4;
    } else {
      assert sh2 == sh3;
      assert Solo(sh2, t, Note(SelfKiller), 2) == Next(sh3, Clean(DropTasks));
      n := 3;
    }
  }

  /** A poll that finishes initialisation lets the worker work off what had to wait for it. */
  lemma InitialisedWorksOffTheBacklog(sh: Shared, t: Tid) returns (n: nat)
    requires RunOk(sh, Do(Polling))
    ensures var x := Advance(sh, t, Do(Polling), Initialise);
      var y := Solo(x.sh, t, x.pc, n);
      x.sh.work.initialised && y.pc.Outside? && RunOver(y.sh) && y.sh.work.backlog == []
  {
    var x := Advance(sh, t, Do(Polling), Initialise);
    n := RunEnds(x.sh, t, x.pc);
  }
}
