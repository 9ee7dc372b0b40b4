/** What one shared service promises, over every run of any number of senders, wakers, killers and
    workers.
 */
module ServiceTheorems {
  import opened Basics
  import opened ServiceSteps
  import opened ServiceSafety
  import opened ServiceProof
  import opened ServiceBook
  import opened Crew

  lemma InitIsGood(reserved: bool, creator: Tid)
    ensures SafetyInv(Init(reserved, creator)) && BookInv(Init(reserved, creator))
  {
    var s := Init(reserved, creator);
    InitToken(reserved, creator);
    assert Those(s.threads, Owes) == {};
    assert Those(s.threads, MarksDead) == {};
    assert Those(s.threads, Subtracts) == {};
  }

  lemma {:induction false} RunIsGood(run: seq<State>)
    requires IsRun(run)
    ensures SafetyInv(run[|run| - 1]) && BookInv(run[|run| - 1])
  {
    if |run| == 1 {
      var reserved, creator :| run[0] == Init(reserved, creator);
      InitIsGood(reserved, creator);
    } else {
      RunIsGood(run[..|run| - 1]);
      var s, s' := run[|run| - 2], run[|run| - 1];
      assert Step(s, s');
      var t, e :| s' == Act(s, t, e);
      ActKeepsSafety(s, t, e);
      ActKeepsBook(s, t, e);
    }
  }

  lemma ReachableIsGood(s: State)
    requires Reachable(s)
    ensures SafetyInv(s) && BookInv(s)
  {
    var run :| IsRun(run) && run[|run| - 1] == s;
    RunIsGood(run);
  }

  /** Single executor. Queue entries and holding threads together are exactly one token while the
      service is not idle and none while it is, so no two threads ever run or clean up one service;
      and neither take_work, release nor the backlog ever panics. */
  lemma SingleExecutor(s: State)
    requires Reachable(s)
    ensures |Those(s.threads, HasToken)| + s.shared.box.entries == One(s.shared.box.mode != Idle)
    ensures forall t, u :: HasToken(At(s, t)) && HasToken(At(s, u)) ==> t == u
    ensures !s.shared.panicked
  {
    ReachableIsGood(s);
    forall t, u | HasToken(At(s, t)) && HasToken(At(s, u))
      ensures t == u
    {
      TokenIsUnique(s, t, u);
    }
  }

  /** No lost work. Every message in the mailbox of an idle service has its own sender that is still
      between putting it there and the end of its notify, and so has every ready entry: there are no
      more entries than wakers announcing one. */
  lemma NoLostWork(s: State)
    requires Reachable(s) && s.shared.box.mode == Idle
    ensures forall m :: m in s.shared.box.queue ==> exists t :: Announces(At(s, t), m)
    ensures s.shared.box.ready <= |Those(s.threads, AnnouncesReady)|
    ensures |s.shared.box.queue| <= |Those(s.threads, AnnouncesAny)|
  {
    ReachableIsGood(s);
    OneAnnouncerEach(s, s.shared.box.queue);
  }

  predicate AnnouncesAny(pc: Pc) {
    (pc.Note? || pc.Exchange?) && pc.why.Brought?
  }

  /** Announcers of different messages are different threads. */
  lemma {:induction false} OneAnnouncerEach(s: State, ms: seq<MsgId>)
    requires NoRepeats(ms) && forall m :: m in ms ==> exists t :: Announces(At(s, t), m)
    ensures |ms| <= |Those(s.threads, AnnouncesAny)|
  {
    var who := set t | t in s.threads && AnnouncesAny(s.threads[t]) && s.threads[t].why.m in ms;
    AnnouncersCount(s, ms, who);
    SubsetSize(who, Those(s.threads, AnnouncesAny));
  }

  lemma {:induction false} AnnouncersCount(s: State, ms: seq<MsgId>, who: set<Tid>)
    requires NoRepeats(ms) && forall m :: m in ms ==> exists t :: Announces(At(s, t), m)
    requires forall t :: t in s.threads && AnnouncesAny(s.threads[t]) && s.threads[t].why.m in ms ==> t in who
    ensures |ms| <= |who|
    decreases |ms|
  {
    if ms != [] {
      var m, rest := ms[0], ms[1..];
      assert m in ms && m !in rest && forall x :: x in rest ==> x in ms;
      var t :| Announces(At(s, t), m);
      AnnouncersCount(s, rest, who - {t});
    }
  }

  /** `len` is never below the number of queued messages, and whoever is about to subtract from it
      finds at least one to subtract. */
  lemma LenNeverUnderflows(s: State, t: Tid)
    requires Reachable(s)
    ensures s.shared.box.len >= |s.shared.box.queue|
    ensures Owes(At(s, t)) ==> s.shared.box.len >= 1
  {
    ReachableIsGood(s);
    if Owes(At(s, t)) {
      assert t in Those(s.threads, Owes);
    }
  }

  /** Kill leads to destroy. From the moment a service is marked dead until its destruction is
      accounted, it has a run token, or a thread that has yet to see to it: the killer before the
      end of its notify, the worker that just let it go idle, or the worker that just cleaned it. */
  lemma KillIsNeverForgotten(s: State)
    requires Reachable(s) && s.shared.life.dead && !s.shared.life.destroyed
    ensures (exists t :: HasToken(At(s, t)) || SeesToIt(At(s, t))) || s.shared.box.entries == 1
  {
    ReachableIsGood(s);
    if s.shared.box.mode == Idle {
      var t :| t in Those(s.threads, SeesToIt);
      assert SeesToIt(At(s, t));
    } else if s.shared.box.entries == 0 {
      assert Those(s.threads, HasToken) != {};
      var t :| t in Those(s.threads, HasToken);
      assert HasToken(At(s, t));
    }
  }

  /** However often late messages bring the service back for another cleanup, it leaves the handle
      table once, `total` drops at most once, never for a reserved service, and exactly once when
      the destruction of an ordinary one is over. */
  lemma DestroyedOnce(s: State)
    requires Reachable(s)
    ensures s.shared.life.charged <= One(s.shared.life.destroyed && !s.shared.life.reserved)
    ensures (forall t :: !Subtracts(At(s, t))) ==>
      s.shared.life.charged == One(s.shared.life.destroyed && !s.shared.life.reserved)
    ensures s.shared.life.destroyed ==> s.shared.life.dead && !s.shared.life.inTable
    ensures forall t, u :: MarksDead(At(s, t)) && MarksDead(At(s, u)) ==> t == u
  {
    ReachableIsGood(s);
    if Those(s.threads, Subtracts) != {} {
      var t :| t in Those(s.threads, Subtracts);
      assert Subtracts(At(s, t));
    }
    forall t, u | MarksDead(At(s, t)) && MarksDead(At(s, u))
      ensures t == u
    {
      AtMostOne(s.threads, MarksDead, t, u);
    }
  }

  /** The message is where the books say, and may be there. */
  predicate Located(s: State, m: MsgId) {
    var b := s.shared.book;
    m in b.place &&
    match b.place[m]
    case Hand(t) => Carried(At(s, t)) == Some(m)
    case InMailbox => m in s.shared.box.queue
    case InBacklog => m in s.shared.work.backlog
    case InTask => m in s.shared.work.tasks && KindOf(b, m) == Request
    case Done => true
    case Errored => KindOf(b, m) == Request
    case Discarded => KindOf(b, m) != Request
  }

  /** Every message is in exactly one place, which is where the queues and threads have it; a
      request is never discarded, and the kernel sent an ERROR for it once if it ended that way and
      never otherwise. */
  lemma RequestsAreAccounted(s: State, m: MsgId)
    requires Reachable(s) && m in s.shared.book.kinds
    ensures Located(s, m)
    ensures s.shared.book.errors[m] == One(Is(s.shared.book, m, Errored))
    ensures NoRepeats(s.shared.box.queue) && NoRepeats(s.shared.work.backlog)
    ensures One(m in s.shared.box.queue) + One(m in s.shared.work.backlog) + One(m in s.shared.work.tasks) <= 1
  {
    ReachableIsGood(s);
    var b := s.shared.book;
    assert Is(b, m, b.place[m]);
    if b.place[m].Hand? {
      assert InHands(b, b.place[m].t, At(s, b.place[m].t));
    }
    assert Fits(KindOf(b, m), b.place[m]);
  }

  /** When release succeeds nothing is left behind: no task remembers a request, no message waits
      in the backlog, every message still in the mailbox has its own sender that has yet to notify,
      and there are no more ready entries than wakers that have yet to. */
  lemma ReleaseLeavesNothing(s: State, t: Tid)
    requires Reachable(s) && At(s, t) == End(Releasing) && Conclude(s.shared, Releasing).pc == End(Accounting)
    ensures s.shared.work.tasks == {} && s.shared.work.backlog == []
    ensures forall m :: m in s.shared.box.queue ==> exists u :: Announces(At(s, u), m)
    ensures |s.shared.box.queue| <= |Those(s.threads, AnnouncesAny)|
    ensures s.shared.box.ready <= |Those(s.threads, AnnouncesReady)|
  {
    ReachableIsGood(s);
    InvIsLocal(s, t);
    assert SawNoMessage(At(s, t)) && SawNoReady(At(s, t));
    OneAnnouncerEach(s, s.shared.box.queue);
  }

  /** After a release no task and no backlog ever comes back, so every later message is either
      still on its way, in the mailbox, or answered. */
  lemma ReleasedStaysEmpty(s: State, m: MsgId)
    requires Reachable(s) && s.shared.life.released && m in s.shared.book.place
    ensures !s.shared.book.place[m].InTask? && !s.shared.book.place[m].InBacklog?
    ensures s.shared.life.dead && forall t :: !Executes(At(s, t))
  {
    ReachableIsGood(s);
    assert Is(s.shared.book, m, s.shared.book.place[m]);
    forall t
      ensures !Executes(At(s, t))
    {
      assert OwnOk(s.shared.life, s.shared.work, At(s, t));
    }
  }
}
