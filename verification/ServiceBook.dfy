/** Every message of every run is in exactly one place, and every request that ends there either
    had its task finish or got exactly one ERROR.
 */
module ServiceBook {
  import opened Basics
  import opened ServiceSteps
  import opened ServiceSafety
  import opened ServiceProof
  import opened Crew

  /** The message a thread has in its hands. */
  function Carried(pc: Pc): Option<MsgId> {
    match pc
    case Bring(b) => if b.Sending? || b.Counted? then Some(b.m) else None
    case Take(k) => if k.Took? then Some(k.m) else None
    case Do(d) => if d.Handling? then Some(d.m) else None
    case Clean(c) => if c.DrainCount? then Some(c.m) else None
    case _ => None
  }

  predicate Is(b: Book, m: MsgId, p: Place) {
    m in b.place && b.place[m] == p
  }

  /** A list holds exactly the messages of a place, each once. */
  ghost predicate Shelf(ms: seq<MsgId>, b: Book, p: Place) {
    NoRepeats(ms) && forall m: MsgId :: m in ms <==> Is(b, m, p)
  }

  ghost predicate TasksOk(ms: set<MsgId>, b: Book) {
    forall m: MsgId :: m in ms <==> Is(b, m, InTask)
  }

  ghost predicate ErrorsOk(b: Book) {
    forall m: MsgId :: b.errors[m] == One(Is(b, m, Errored))
  }

  /** `place` agrees with the mailbox, the backlog, all tasks and the ERRORs sent. */
  ghost predicate Shelved(sh: Shared) {
    && Shelf(sh.box.queue, sh.book, InMailbox) && Shelf(sh.work.backlog, sh.book, InBacklog)
    && TasksOk(sh.work.tasks, sh.book) && ErrorsOk(sh.book)
  }

  /** A message may be at `p`: requests are never silently discarded, and only requests get an
      ERROR or are remembered by a task. */
  predicate Fits(k: Kind, p: Place) {
    && (p.InTask? || p.Errored? ==> k == Request)
    && (p.Discarded? ==> k != Request)
  }

  ghost predicate Sorted(b: Book) {
    && (forall m: MsgId :: m in b.place <==> m in b.kinds)
    && (forall m: MsgId :: m in b.place ==> m < |b.place| && Fits(KindOf(b, m), b.place[m]))
  }

  ghost predicate InHands(b: Book, t: Tid, pc: Pc) {
    forall m: MsgId :: Is(b, m, Hand(t)) <==> Carried(pc) == Some(m)
  }

  ghost predicate OthersKeepTheirs(b: Book, b': Book, t: Tid) {
    forall m: MsgId, u: Tid :: u != t ==> (Is(b', m, Hand(u)) <==> Is(b, m, Hand(u)))
  }

  ghost predicate BookInv(s: State) {
    Shelved(s.shared) && Sorted(s.shared.book) && forall t :: InHands(s.shared.book, t, At(s, t))
  }

  ghost predicate Filed(sh: Shared, t: Tid, pc: Pc) {
    Shelved(sh) && Sorted(sh.book) && InHands(sh.book, t, pc)
  }

  ghost predicate Files(sh: Shared, t: Tid, n: Next) {
    Filed(n.sh, t, n.pc) && OthersKeepTheirs(sh.book, n.sh.book, t)
  }

  // ------------------------------------------------------------ moving one message

  lemma ShelfAdds(ms: seq<MsgId>, b: Book, b': Book, m: MsgId, p: Place)
    requires Shelf(ms, b, p) && !Is(b, m, p) && b'.place == b.place[m := p]
    ensures Shelf(ms + [m], b', p)
  {
  }

  lemma ShelfGives(ms: seq<MsgId>, b: Book, b': Book, to: Place, p: Place)
    requires Shelf(ms, b, p) && ms != [] && to != p && b'.place == b.place[ms[0] := to]
    ensures Is(b, ms[0], p) && Shelf(ms[1..], b', p)
  {
    forall m
      ensures m in ms <==> m == ms[0] || m in ms[1..]
    {
      assert ms == [ms[0]] + ms[1..];
    }
    assert ms[0] !in ms[1..];
  }

  lemma ShelfStays(ms: seq<MsgId>, b: Book, b': Book, m: MsgId, to: Place, p: Place)
    requires Shelf(ms, b, p) && !Is(b, m, p) && to != p && b'.place == b.place[m := to]
    ensures Shelf(ms, b', p)
  {
  }

  /** `m` moves from where it was to `to`, and is counted if it ends there with an ERROR. */
  predicate Moves(b: Book, b': Book, m: MsgId, to: Place) {
    && m in b.place && !b.place[m].Errored?
    && b'.place == b.place[m := to] && b'.kinds == b.kinds
    && b'.errors == b.errors + (if to.Errored? then multiset{m} else multiset{})
    && Fits(KindOf(b, m), to)
  }

  lemma MoveStaysSorted(b: Book, b': Book, m: MsgId, to: Place)
    requires Sorted(b) && ErrorsOk(b) && Moves(b, b', m, to)
    ensures Sorted(b') && ErrorsOk(b')
  {
    assert b'.place.Keys == b.place.Keys;
    assert |b'.place| == |b.place|;
    assert forall k: MsgId :: KindOf(b', k) == KindOf(b, k);
  }

  /** From a thread's hands to a place on a shelf, in a task, or out of the service. */
  lemma LayDown(sh: Shared, t: Tid, pc: Pc, n: Next, m: MsgId, to: Place)
    requires Filed(sh, t, pc) && Carried(pc) == Some(m) && Carried(n.pc) == None
    requires Moves(sh.book, n.sh.book, m, to) && !to.Hand?
    requires n.sh.box.queue == if to.InMailbox? then sh.box.queue + [m] else sh.box.queue
    requires n.sh.work.backlog == if to.InBacklog? then sh.work.backlog + [m] else sh.work.backlog
    requires n.sh.work.tasks == if to.InTask? then sh.work.tasks + {m} else sh.work.tasks
    ensures Files(sh, t, n)
  {
    var b, b' := sh.book, n.sh.book;
    assert Is(b, m, Hand(t));
    MoveStaysSorted(b, b', m, to);
    if to.InMailbox? {
      ShelfAdds(sh.box.queue, b, b', m, InMailbox);
    } else {
      ShelfStays(sh.box.queue, b, b', m, to, InMailbox);
    }
    if to.InBacklog? {
      ShelfAdds(sh.work.backlog, b, b', m, InBacklog);
    } else {
      ShelfStays(sh.work.backlog, b, b', m, to, InBacklog);
    }
  }

  /** From the head of a shelf into a thread's hands. */
  lemma PickUp(sh: Shared, t: Tid, pc: Pc, n: Next, p: Place)
    requires Filed(sh, t, pc) && Carried(pc) == None && (p.InMailbox? || p.InBacklog?)
    requires var ms := if p.InMailbox? then sh.box.queue else sh.work.backlog;
      && ms != [] && Carried(n.pc) == Some(ms[0])
      && n.sh.book == Put(sh.book, ms[0], Hand(t))
      && n.sh.box.queue == (if p.InMailbox? then ms[1..] else sh.box.queue)
      && n.sh.work.backlog == (if p.InMailbox? then sh.work.backlog else ms[1..])
    requires n.sh.work.tasks == sh.work.tasks
    ensures Files(sh, t, n)
  {
    var b, b' := sh.book, n.sh.book;
    var ms := if p.InMailbox? then sh.box.queue else sh.work.backlog;
    ShelfGives(ms, b, b', Hand(t), p);
    MoveStaysSorted(b, b', ms[0], Hand(t));
    if p.InMailbox? {
      ShelfStays(sh.work.backlog, b, b', ms[0], Hand(t), InBacklog);
    } else {
      ShelfStays(sh.box.queue, b, b', ms[0], Hand(t), InMailbox);
    }
  }

  /** A step that touches no message. */
  lemma TouchesNone(sh: Shared, t: Tid, pc: Pc, n: Next)
    requires Filed(sh, t, pc) && Carried(n.pc) == Carried(pc) && n.sh.book == sh.book
    requires n.sh.box.queue == sh.box.queue && n.sh.work.backlog == sh.work.backlog && n.sh.work.tasks == sh.work.tasks
    ensures Files(sh, t, n)
  {
  }

  // ------------------------------------------------------------ many at once

  lemma FailTasksFiles(sh: Shared, t: Tid, pc: Pc, n: Next)
    requires Filed(sh, t, pc) && Carried(pc) == None && Carried(n.pc) == None
    requires n.sh.box == sh.box && n.sh.work == sh.work.(tasks := {}) && n.sh.book == FailTasks(sh).book
    ensures Files(sh, t, n)
  {
    var b, b' := sh.book, n.sh.book;
    assert b'.place.Keys == b.place.Keys;
    assert |b'.place| == |b.place|;
    assert forall m: MsgId :: KindOf(b', m) == KindOf(b, m);
  }

  lemma {:induction false} FailingCounts(b: Book, ms: seq<MsgId>, m: MsgId)
    requires NoRepeats(ms)
    ensures Failing(b, ms)[m] == One(m in ms && KindOf(b, m) == Request)
  {
    if ms != [] {
      assert ms == [ms[0]] + ms[1..];
      FailingCounts(b, ms[1..], m);
    }
  }

  lemma FailBacklogCounts(sh: Shared)
    requires Shelved(sh)
    ensures ErrorsOk(FailBacklog(sh).book)
  {
    var b' := FailBacklog(sh).book;
    forall m: MsgId
      ensures b'.errors[m] == One(Is(b', m, Errored))
    {
      FailingCounts(sh.book, sh.work.backlog, m);
    }
  }

  lemma FailBacklogFiles(sh: Shared, t: Tid, pc: Pc, n: Next)
    requires Filed(sh, t, pc) && Carried(pc) == None && Carried(n.pc) == None && n.sh == FailBacklog(sh)
    ensures Files(sh, t, n)
  {
    var b, b' := sh.book, n.sh.book;
    FailBacklogCounts(sh);
    assert b'.place.Keys == b.place.Keys;
    assert |b'.place| == |b.place|;
    forall m: MsgId, p: Place
      ensures Is(b', m, p) <==> if m in sh.work.backlog then p == Fate(b, m) else Is(b, m, p)
    {
    }
    assert forall m: MsgId :: KindOf(b', m) == KindOf(b, m);
  }

  // ------------------------------------------------------------ each kind of step

  lemma NewIsSorted(b: Book, t: Tid, kind: Kind)
    requires Sorted(b)
    ensures var m := |b.place|; m !in b.place && Sorted(Put(b, m, Hand(t)).(kinds := b.kinds[m := kind]))
  {
    var m := |b.place|;
    var b' := Put(b, m, Hand(t)).(kinds := b.kinds[m := kind]);
    assert b'.place.Keys == b.place.Keys + {m};
    assert forall k: MsgId :: k in b.place ==> KindOf(b', k) == KindOf(b, k);
  }

  lemma StartFiles(sh: Shared, t: Tid, e: Event)
    requires Filed(sh, t, Outside)
    ensures Files(sh, t, Start(sh, t, e))
  {
    var n := Start(sh, t, e);
    if e.Send? {
      var m := |sh.book.place|;
      NewIsSorted(sh.book, t, e.kind);
      ShelfStays(sh.box.queue, sh.book, n.sh.book, m, Hand(t), InMailbox);
      ShelfStays(sh.work.backlog, sh.book, n.sh.book, m, Hand(t), InBacklog);
    } else {
      TouchesNone(sh, t, Outside, n);
    }
  }

  lemma DeliverFiles(sh: Shared, t: Tid, b: Bringing)
    requires Filed(sh, t, Bring(b))
    ensures Files(sh, t, Deliver(sh, b))
  {
    if b.Counted? {
      assert Is(sh.book, b.m, Hand(t));
      LayDown(sh, t, Bring(b), Deliver(sh, b), b.m, InMailbox);
    } else {
      TouchesNone(sh, t, Bring(b), Deliver(sh, b));
    }
  }

  lemma DispatchFiles(sh: Shared, t: Tid, r: Running, e: Event)
    requires Filed(sh, t, Run(r))
    ensures Files(sh, t, Dispatch(sh, t, r, e))
  {
    if r.Topping? && sh.work.initialised && sh.work.backlog != [] {
      PickUp(sh, t, Run(r), Dispatch(sh, t, r, e), InBacklog);
    } else {
      TouchesNone(sh, t, Run(r), Dispatch(sh, t, r, e));
    }
  }

  lemma TakeWorkFiles(sh: Shared, t: Tid, k: Taking, e: Event)
    requires Filed(sh, t, Take(k))
    ensures Files(sh, t, TakeWork(sh, t, k, e))
  {
    var n := TakeWork(sh, t, k, e);
    if n.pc.Take? && n.pc.k.Took? {
      PickUp(sh, t, Take(k), n, InMailbox);
    } else {
      TouchesNone(sh, t, Take(k), n);
    }
  }

  lemma HandleFiles(sh: Shared, t: Tid, m: MsgId)
    requires Filed(sh, t, Do(Handling(m)))
    ensures Files(sh, t, Handle(sh, m))
  {
    var n := Handle(sh, m);
    assert Is(sh.book, m, Hand(t));
    if n.pc.Run? {
      LayDown(sh, t, Do(Handling(m)), n, m, n.sh.book.place[m]);
    } else {
      TouchesNone(sh, t, Do(Handling(m)), n);
    }
  }

  lemma PollFiles(sh: Shared, t: Tid, e: Event)
    requires Filed(sh, t, Do(Polling))
    ensures Files(sh, t, Poll(sh, e))
  {
    var n := Poll(sh, e);
    if e.Finish? && e.m in sh.work.tasks {
      var b, b' := sh.book, n.sh.book;
      assert Is(b, e.m, InTask);
      MoveStaysSorted(b, b', e.m, Done);
      ShelfStays(sh.box.queue, b, b', e.m, Done, InMailbox);
      ShelfStays(sh.work.backlog, b, b', e.m, Done, InBacklog);
    } else {
      TouchesNone(sh, t, Do(Polling), n);
    }
  }

  lemma DrainCountFiles(sh: Shared, t: Tid, m: MsgId)
    requires Filed(sh, t, Clean(DrainCount(m)))
    ensures Files(sh, t, CleanUp(sh, t, DrainCount(m)))
  {
    assert Is(sh.book, m, Hand(t));
    assert Failing(sh.book, [m]) == if Fate(sh.book, m).Errored? then multiset{m} else multiset{};
    LayDown(sh, t, Clean(DrainCount(m)), CleanUp(sh, t, DrainCount(m)), m, Fate(sh.book, m));
  }

  lemma DrainQueueFiles(sh: Shared, t: Tid)
    requires Filed(sh, t, Clean(DrainQueue))
    ensures Files(sh, t, CleanUp(sh, t, DrainQueue))
  {
    if sh.box.queue != [] {
      PickUp(sh, t, Clean(DrainQueue), CleanUp(sh, t, DrainQueue), InMailbox);
    } else {
      TouchesNone(sh, t, Clean(DrainQueue), CleanUp(sh, t, DrainQueue));
    }
  }

  lemma CleanUpFiles(sh: Shared, t: Tid, c: Cleaning)
    requires Filed(sh, t, Clean(c))
    ensures Files(sh, t, CleanUp(sh, t, c))
  {
    match c {
      case DropTasks => FailTasksFiles(sh, t, Clean(c), CleanUp(sh, t, c));
      case DrainCount(m) => DrainCountFiles(sh, t, m);
      case DropBacklog => FailBacklogFiles(sh, t, Clean(c), CleanUp(sh, t, c));
      case DrainReady => TouchesNone(sh, t, Clean(c), CleanUp(sh, t, c));
      case DrainQueue => DrainQueueFiles(sh, t);
    }
  }

  lemma RunWorkFiles(sh: Shared, t: Tid, d: Doing, e: Event)
    requires Filed(sh, t, Do(d))
    ensures Files(sh, t, RunWork(sh, d, e))
  {
    match d {
      case Handling(m) => HandleFiles(sh, t, m);
      case Polling => PollFiles(sh, t, e);
      case SelfKilling => FailTasksFiles(sh, t, Do(d), RunWork(sh, d, e));
    }
  }

  lemma StepFiles(sh: Shared, t: Tid, pc: Pc, e: Event)
    requires Filed(sh, t, pc)
    ensures Files(sh, t, Advance(sh, t, pc, e))
  {
    match pc {
      case Outside => StartFiles(sh, t, e);
      case Bring(b) => DeliverFiles(sh, t, b);
      case Run(r) => DispatchFiles(sh, t, r, e);
      case Take(k) => TakeWorkFiles(sh, t, k, e);
      case Do(d) => RunWorkFiles(sh, t, d, e);
      case Clean(c) => CleanUpFiles(sh, t, c);
      case End(n) => TouchesNone(sh, t, pc, Conclude(sh, n));
      case _ => TouchesNone(sh, t, pc, Advance(sh, t, pc, e));
    }
  }

  lemma ActKeepsBook(s: State, t: Tid, e: Event)
    requires BookInv(s)
    ensures BookInv(Act(s, t, e))
  {
    StepFiles(s.shared, t, At(s, t), e);
    var s' := Act(s, t, e);
    forall u
      ensures InHands(s'.shared.book, u, At(s', u))
    {
      assert InHands(s.shared.book, u, At(s, u));
    }
  }
}
