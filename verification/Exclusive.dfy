/** A service with a thread of its own. Its executor never waits for a run queue: it stores RUNNING
    blindly whenever it comes back from `idle`, and whoever moves the mailbox from IDLE to QUEUED
    interrupts it. One step per atomic access, any number of senders, wakers and killers.

    The blocking primitive inside `idle` is a one-bit token, which is what `park` gives and what
    the contract of `Exclusive::interrupt` asks of any other; it may also return for no reason.
    Messages and ready tasks are items of one bag: the executor empties both queues before it idles.

    `taken` and `ended` are bookkeeping: the items the executor has taken out of the bag, and when the
    notify of each item ended.
 */
module Exclusive {
  import opened Basics
  import opened Crew

  type Tid = nat
  type Item = nat

  datatype Why = Brought(i: Item) | Killer

  /** A sender, a waker or a killer. */
  datatype Visitor =
    | Outside
    | Bringing                   // about to put an item into the bag
    | Killing                    // about to store dead
    | Note(why: Why)             // notify: about to load the state
    | Exchange(why: Why, cur: Mode)
    | Interrupting               // moved Idle to Queued: about to interrupt the executor

  /** The loop itself, drain_service after it, and cleanup. */
  datatype Phase = Serving | Draining | Burying

  /** exclusive_loop. */
  datatype Executor =
    | Binding                    // about to register the thread's handle
    | Marking(p: Phase)          // about to store Running
    | Entering                   // run_service: about to load dead
    | Scanning(p: Phase)         // about to take one item of work
    | Empty(p: Phase)            // found none: about to compare-exchange Running to Idle
    | Resetting(p: Phase)        // found Notified: about to store Running
    | Working                    // one item, then load dead
    | Leaving                    // Ran::Idle: about to load dead
    | Blocking                   // inside idle
    | Exited

  datatype Shared = Shared(mode: Mode, work: set<Item>, dead: bool, bound: bool, token: bool, panicked: bool)

  /** What the service was like when the notify of an item ended. */
  datatype When = WhileAlive | WhileDying | AfterExit

  datatype Book = Book(born: nat, taken: set<Item>, ended: map<Item, When>)

  datatype State = State(sh: Shared, exec: Executor, visitors: map<Tid, Visitor>, book: Book)

  datatype Event = Send | Kill | Continue | Instead | Pick(i: Item)

  function At(s: State, t: Tid): Visitor {
    if t in s.visitors then s.visitors[t] else Outside
  }

  /** Queued from birth; the dedicated thread is about to start, with the init task waiting. */
  const INIT :=
    State(Shared(Queued, {0}, false, false, false, false), Binding, map[], Book(1, {}, map[0 := WhileAlive]))

  function Saw(mode: Mode, why: Why): Visitor {
    if mode == Idle || mode == InUse then Exchange(why, mode) else Outside
  }

  function Visit(sh: Shared, born: nat, v: Visitor, e: Event): (r: (Shared, Visitor)) {
    match v
    case Outside => (sh, if e.Send? then Bringing else if e.Kill? && !sh.dead then Killing else Outside)
    case Bringing => (sh.(work := sh.work + {born}), Note(Brought(born)))
    case Killing => (sh.(dead := true), Note(Killer))
    case Note(why) => (sh, Saw(sh.mode, why))
    case Exchange(why, cur) =>
      if sh.mode != cur || e.Instead? then (sh, Saw(sh.mode, why))
      else if cur == Idle then (sh.(mode := Queued), Interrupting)
      else (sh.(mode := Notified), Outside)
    case Interrupting => (if sh.bound then sh.(token := true) else sh, Outside)
  }

  function Execute(sh: Shared, x: Executor, e: Event): (r: (Shared, Executor)) {
    match x
    case Binding => (sh.(bound := true), Marking(Serving))
    case Marking(p) => (sh.(mode := InUse), if p == Serving then Entering else Scanning(p))
    case Entering => (sh, if sh.dead then Marking(Draining) else Scanning(Serving))
    case Scanning(p) =>
      // the budget of drain_service may run out, and it does nothing for a service that never ran
      if p == Draining && e.Instead? then (sh, Marking(Burying))
      else if sh.work == {} then (sh, Empty(p))
      else if e.Pick? && e.i in sh.work then
        (sh.(work := sh.work - {e.i}), if p == Serving then Working else Scanning(p))
      else (sh, Scanning(p))
    case Empty(p) =>
      if sh.mode == InUse then (sh.(mode := Idle), Settled(p))
      else if sh.mode == Notified then (sh, Resetting(p))
      else (sh.(panicked := true), Empty(p))
    case Resetting(p) => (sh.(mode := InUse), Scanning(p))
    case Working => (sh, if sh.dead then Marking(Draining) else Scanning(Serving))
    case Leaving => (sh, if sh.dead then Marking(Draining) else Blocking)
    case Blocking =>
      if sh.token then (sh.(token := false), Marking(Serving))
      else if e.Instead? then (sh, Marking(Serving))     // a timeout or a spurious return
      else (sh, Blocking)
    case Exited => (sh, Exited)
  }

  /** Where the executor goes once the mailbox is Idle. */
  function Settled(p: Phase): Executor {
    match p
    case Serving => Leaving
    case Draining => Marking(Burying)
    case Burying => Exited
  }

  /** Between putting the item into the bag and the end of its notify. */
  predicate Announces(v: Visitor, i: Item) {
    (v.Note? || v.Exchange?) && v.why == Brought(i)
  }

  function Now(s: State): When {
    if s.exec.Exited? then AfterExit else if s.sh.dead then WhileDying else WhileAlive
  }

  function VisitorStep(s: State, t: Tid, e: Event): State {
    var v := At(s, t);
    var (sh, v') := Visit(s.sh, s.book.born, v, e);
    var book :=
      if v.Bringing? then s.book.(born := s.book.born + 1)
      else if (v.Note? || v.Exchange?) && v.why.Brought? && !Announces(v', v.why.i) then
        s.book.(ended := s.book.ended[v.why.i := Now(s)])
      else s.book;
    State(sh, s.exec, s.visitors[t := v'], book)
  }

  function ExecutorStep(s: State, e: Event): State {
    var (sh, x) := Execute(s.sh, s.exec, e);
    State(sh, x, s.visitors, s.book.(taken := s.book.taken + (s.sh.work - sh.work)))
  }

  ghost predicate Step(s: State, s': State) {
    (exists t, e :: s' == VisitorStep(s, t, e)) || exists e :: s' == ExecutorStep(s, e)
  }

  ghost predicate IsRun(run: seq<State>) {
    && |run| > 0 && run[0] == INIT
    && forall i :: 0 <= i < |run| - 1 ==> Step(run[i], run[i + 1])
  }

  ghost predicate Reachable(s: State) {
    exists run :: IsRun(run) && run[|run| - 1] == s
  }

  // ------------------------------------------------------------ the invariant

  /** Holds the service and has marked it Running. */
  predicate Busy(x: Executor) {
    x.Entering? || x.Scanning? || x.Empty? || x.Resetting? || x.Working?
  }

  /** About to overwrite the state, whatever it is. */
  predicate Blind(x: Executor) {
    x.Marking? && x.p != Serving
  }

  predicate AfterLoop(x: Executor) {
    x.Exited? || ((x.Marking? || x.Scanning? || x.Empty? || x.Resetting?) && x.p != Serving)
  }

  predicate AnnouncesDeath(v: Visitor) {
    (v.Note? || v.Exchange?) && v.why == Killer
  }

  predicate Interrupts(v: Visitor) {
    v.Interrupting?
  }

  predicate Sane(born: nat, v: Visitor) {
    && (v.Exchange? ==> v.cur == Idle || v.cur == InUse)
    && ((v.Note? || v.Exchange?) && v.why.Brought? ==> v.why.i < born)
  }

  predicate Bound(sh: Shared, x: Executor) {
    && !sh.panicked
    && (Busy(x) ==> sh.mode == InUse || sh.mode == Notified)
    && (!Busy(x) && !Blind(x) ==> sh.mode == Idle || sh.mode == Queued)
    && (x.Resetting? ==> sh.mode == Notified)
    && (!x.Binding? ==> sh.bound)
    && (AfterLoop(x) ==> sh.dead)
  }

  ghost predicate Announced(s: State, i: Item) {
    exists t :: Announces(At(s, t), i)
  }

  /** Every item in the bag was put there by somebody who is still announcing it. */
  ghost predicate AllAnnounced(s: State) {
    forall i :: i in s.sh.work ==> Announced(s, i)
  }

  predicate EndedLate(b: Book, i: Item) {
    i in b.ended && b.ended[i].AfterExit?
  }

  ghost predicate WorkInv(s: State) {
    && (s.sh.mode == InUse && s.exec.Empty? ==> AllAnnounced(s))
    && (s.sh.mode == Idle && !Blind(s.exec) ==> AllAnnounced(s))
    && (s.exec.Exited? ==> forall i :: i in s.sh.work ==> Announced(s, i) || EndedLate(s.book, i))
  }

  ghost predicate WakeInv(s: State) {
    var sh, x := s.sh, s.exec;
    && (Those(s.visitors, Interrupts) == {} && sh.mode == Queued && (x.Leaving? || x.Blocking?) ==> sh.token)
    && (Those(s.visitors, AnnouncesDeath) == {} && sh.mode == Idle && x.Blocking? ==> !sh.dead)
    && (forall t :: Sane(s.book.born, At(s, t)))
  }

  /** Every item brought so far is in the bag or taken. */
  ghost predicate BookInv(s: State) {
    var b := s.book;
    && (forall i: Item :: i < b.born <==> i in s.sh.work || i in b.taken)
    && s.sh.work !! b.taken
    && (forall i :: i in b.ended ==> i < b.born && (b.ended[i].AfterExit? ==> s.exec.Exited?))
  }

  /** Every item has one notify, which goes on or has ended. */
  ghost predicate NotifyInv(s: State) {
    && (forall i: Item :: i < s.book.born ==> (Announced(s, i) <==> i !in s.book.ended))
    && (forall t, u, i :: Announces(At(s, t), i) && Announces(At(s, u), i) ==> t == u)
  }

  ghost predicate Inv(s: State) {
    Bound(s.sh, s.exec) && WorkInv(s) && WakeInv(s) && BookInv(s) && NotifyInv(s)
  }

  // ------------------------------------------------------------ a visitor moves

  /** What a visitor's step does to the announcing of an item: it begins with the bringing, and ends
      only when somebody is sure to look for work, which goes on record. */
  lemma AnnouncingMoves(s: State, t: Tid, e: Event, i: Item)
    requires Sane(s.book.born, At(s, t))
    ensures var s' := VisitorStep(s, t, e);
      var before, after := Announces(At(s, t), i), Announces(At(s', t), i);
      && (after ==> before || (At(s, t).Bringing? && i == s.book.born))
      && (At(s, t).Bringing? && i == s.book.born ==> after)
      && (before && !after ==>
            i in s'.book.ended && s'.book.ended[i] == Now(s) && s'.sh.mode != Idle && s'.sh.mode != InUse)
      && (!(before && !after) ==> (i in s'.book.ended <==> i in s.book.ended))
      && (i in s.book.ended && !before ==> i in s'.book.ended && s'.book.ended[i] == s.book.ended[i])
  {
  }

  lemma VisitorBound(s: State, t: Tid, e: Event)
    requires Bound(s.sh, s.exec) && Sane(s.book.born, At(s, t))
    ensures Bound(VisitorStep(s, t, e).sh, s.exec)
  {
  }

  lemma NotifyGoesOnOrEnds(s: State, t: Tid, e: Event, i: Item)
    requires Inv(s) && i < VisitorStep(s, t, e).book.born
    ensures Announced(VisitorStep(s, t, e), i) <==> i !in VisitorStep(s, t, e).book.ended
  {
    var s' := VisitorStep(s, t, e);
    assert Sane(s.book.born, At(s, t));
    AnnouncingMoves(s, t, e, i);
    if i == s.book.born {
      assert i !in s.book.ended && At(s, t).Bringing? && Announces(At(s', t), i);
      NobodyYet(s, i);
      assert !Announces(At(s, t), i);
    } else if Announced(s, i) {
      var u :| Announces(At(s, u), i);
      assert At(s', u) == if u == t then At(s', t) else At(s, u);
      if Announced(s', i) {
        var w :| Announces(At(s', w), i);
        assert w != t ==> Announces(At(s, w), i);
      }
      assert u != t ==> !Announces(At(s, t), i);
    } else {
      assert !Announces(At(s, t), i);
      forall w ensures !Announces(At(s', w), i) {
        assert !Announces(At(s, w), i);
      }
    }
  }

  lemma VisitorKeepsNotify(s: State, t: Tid, e: Event)
    requires Inv(s)
    ensures NotifyInv(VisitorStep(s, t, e))
  {
    var s' := VisitorStep(s, t, e);
    forall i: Item | i < s'.book.born ensures Announced(s', i) <==> i !in s'.book.ended {
      NotifyGoesOnOrEnds(s, t, e, i);
    }
    forall u, w, i | Announces(At(s', u), i) && Announces(At(s', w), i) ensures u == w {
      assert Sane(s.book.born, At(s, t));
      AnnouncingMoves(s, t, e, i);
      NobodyYet(s, s.book.born);
      assert u != t ==> Announces(At(s, u), i);
      assert w != t ==> Announces(At(s, w), i);
    }
  }

  lemma VisitorKeepsBook(s: State, t: Tid, e: Event)
    requires Inv(s)
    ensures BookInv(VisitorStep(s, t, e))
  {
    assert Sane(s.book.born, At(s, t));
  }

  lemma VisitorKeepsWake(s: State, t: Tid, e: Event)
    requires Inv(s)
    ensures WakeInv(VisitorStep(s, t, e))
  {
    var s' := VisitorStep(s, t, e);
    LastOne(s.visitors, t, At(s', t), AnnouncesDeath);
    LastOne(s.visitors, t, At(s', t), Interrupts);
    forall u ensures Sane(s'.book.born, At(s', u)) {
      assert Sane(s.book.born, At(s, u));
    }
  }

  lemma VisitorKeepsWork(s: State, t: Tid, e: Event)
    requires Inv(s)
    ensures WorkInv(VisitorStep(s, t, e))
  {
    var s' := VisitorStep(s, t, e);
    assert Sane(s.book.born, At(s, t));
    forall i | i in s'.sh.work && (i in s.sh.work ==> Announced(s, i))
      ensures
        || Announced(s', i)
        || ((s.exec.Exited? ==> EndedLate(s'.book, i)) && s'.sh.mode != Idle && s'.sh.mode != InUse)
    {
      AnnouncingMoves(s, t, e, i);
      if i in s.sh.work {
        var u :| Announces(At(s, u), i);
        assert u != t ==> Announces(At(s', u), i);
      } else {
        assert Announces(At(s', t), i);
      }
    }
    forall i | s.exec.Exited? && i in s'.sh.work ensures Announced(s', i) || EndedLate(s'.book, i) {
      AnnouncingMoves(s, t, e, i);
      if i in s.sh.work && !Announced(s, i) {
        assert EndedLate(s.book, i);
        assert !Announces(At(s, t), i);
      }
    }
  }

  lemma NobodyYet(s: State, i: Item)
    requires WakeInv(s) && i >= s.book.born
    ensures !Announced(s, i)
  {
    forall t ensures !Announces(At(s, t), i) {
      assert Sane(s.book.born, At(s, t));
    }
  }

  // ------------------------------------------------------------ the executor moves

  lemma SameVisitors(s: State, e: Event)
    ensures forall i :: Announced(ExecutorStep(s, e), i) <==> Announced(s, i)
  {
    forall i ensures Announced(ExecutorStep(s, e), i) <==> Announced(s, i) {
      assert forall t :: At(ExecutorStep(s, e), t) == At(s, t);
    }
  }

  lemma ExecutorKeepsBook(s: State, e: Event)
    requires Inv(s)
    ensures Bound(ExecutorStep(s, e).sh, ExecutorStep(s, e).exec) && BookInv(ExecutorStep(s, e))
  {
  }

  lemma ExecutorKeepsRest(s: State, e: Event)
    requires Inv(s)
    ensures WorkInv(ExecutorStep(s, e)) && WakeInv(ExecutorStep(s, e)) && NotifyInv(ExecutorStep(s, e))
  {
    var s' := ExecutorStep(s, e);
    SameVisitors(s, e);
    assert forall t :: At(s', t) == At(s, t);
  }

  // ------------------------------------------------------------ every run

  lemma InitIsGood()
    ensures Inv(INIT)
  {
    NobodyYet(INIT, 1);
    forall i ensures !Announced(INIT, i) {
    }
  }

  lemma StepKeeps(s: State, s': State)
    requires Inv(s) && Step(s, s')
    ensures Inv(s')
  {
    if e :| s' == ExecutorStep(s, e) {
      ExecutorKeepsBook(s, e);
      ExecutorKeepsRest(s, e);
    } else {
      var t, e :| s' == VisitorStep(s, t, e);
      assert Sane(s.book.born, At(s, t));
      VisitorBound(s, t, e);
      VisitorKeepsBook(s, t, e);
      VisitorKeepsNotify(s, t, e);
      VisitorKeepsWake(s, t, e);
      VisitorKeepsWork(s, t, e);
    }
  }

  lemma {:induction false} RunIsGood(run: seq<State>)
    requires IsRun(run)
    ensures Inv(run[|run| - 1])
  {
    if |run| == 1 {
      InitIsGood();
    } else {
      RunIsGood(run[..|run| - 1]);
      assert Step(run[|run| - 2], run[|run| - 1]);
      StepKeeps(run[|run| - 2], run[|run| - 1]);
    }
  }

  lemma ReachableIsGood(s: State)
    requires Reachable(s)
    ensures Inv(s)
  {
    var run :| IsRun(run) && run[|run| - 1] == s;
    RunIsGood(run);
  }

  // ------------------------------------------------------------ the promises

  lemma Somebody(s: State, p: Visitor -> bool)
    ensures Those(s.visitors, p) != {} ==> exists t :: p(At(s, t))
  {
    if Those(s.visitors, p) != {} {
      var t :| t in Those(s.visitors, p);
      assert p(At(s, t));
    }
  }

  /** The executor never sleeps on work or on its own death: if it is blocked and no token waits for
      it, either somebody is about to interrupt it, or every item in the bag has its own bringer still
      announcing it and a death its killer. The blind store of RUNNING never trips take_work or
      release. */
  lemma NeverSleepsOnWork(s: State)
    requires Reachable(s)
    ensures s.exec.Blocking? && !s.sh.token ==>
      (exists t :: Interrupts(At(s, t))) || forall i :: i in s.sh.work ==> Announced(s, i)
    ensures s.exec.Blocking? && !s.sh.token && s.sh.dead ==>
      exists t :: AnnouncesDeath(At(s, t)) || Interrupts(At(s, t))
    ensures !s.sh.panicked
  {
    ReachableIsGood(s);
    Somebody(s, AnnouncesDeath);
    Somebody(s, Interrupts);
  }

  /** Every item in an idle mailbox has its own bringer still announcing it, also after the thread has
      gone; only between a blind store and the next look is that not needed. */
  lemma NoLostWork(s: State, i: Item)
    requires Reachable(s) && s.sh.mode == Idle && !Blind(s.exec) && i in s.sh.work
    ensures Announced(s, i)
  {
    ReachableIsGood(s);
  }

  /** After the exit, exactly those items are stranded, in the bag with nobody announcing them, whose
      notify ended after the exit and which the executor had not taken before it. */
  lemma StrandedExactlyWhenLate(s: State, i: Item)
    requires Reachable(s) && s.exec.Exited? && i < s.book.born
    ensures i in s.sh.work && !Announced(s, i) <==> EndedLate(s.book, i) && i !in s.book.taken
  {
    ReachableIsGood(s);
  }

  /** What a caller can rely on: an item whose notify ended before the exit, as it did if the service
      was not dead then, has been taken by the time the thread is gone. */
  lemma EarlyItemsAreTaken(s: State, i: Item)
    requires Reachable(s) && s.exec.Exited? && i in s.book.ended && !s.book.ended[i].AfterExit?
    ensures i in s.book.taken
  {
    ReachableIsGood(s);
  }

  /** The record of an ended notify is true and final: it says what the service was like at the step
      that ended it, and no later step changes it. */
  lemma EndingsAreRecorded(s: State, s': State, i: Item)
    requires Reachable(s) && Step(s, s')
    ensures i in s.book.ended ==> i in s'.book.ended && s'.book.ended[i] == s.book.ended[i]
    ensures i !in s.book.ended && i in s'.book.ended ==> s'.book.ended[i] == Now(s) && Announced(s, i)
  {
    ReachableIsGood(s);
    if e :| s' == ExecutorStep(s, e) {
    } else {
      var t, e :| s' == VisitorStep(s, t, e);
      assert Sane(s.book.born, At(s, t));
      AnnouncingMoves(s, t, e, i);
    }
  }

  /** Once the thread has exited, nothing is ever taken again: in every later state of the run it is
      still gone, what it had taken is all it ever took, and what was left is still there. */
  lemma {:induction false} ExitIsForGood(run: seq<State>, i: nat, j: nat)
    requires IsRun(run) && i <= j < |run| && run[i].exec.Exited?
    ensures run[j].exec.Exited? && run[j].book.taken == run[i].book.taken && run[i].sh.work <= run[j].sh.work
    decreases j
  {
    if i < j {
      ExitIsForGood(run, i, j - 1);
      assert Step(run[j - 1], run[j - 1 + 1]);
      ExitedStep(run[j - 1], run[j]);
    }
  }

  lemma ExitedStep(s: State, s': State)
    requires Step(s, s') && s.exec.Exited?
    ensures s'.exec.Exited? && s'.book.taken == s.book.taken && s.sh.work <= s'.sh.work
  {
    if e :| s' == ExecutorStep(s, e) {
      assert s.sh.work - s.sh.work == {};
    } else {
      var t, e :| s' == VisitorStep(s, t, e);
    }
  }

  // ------------------------------------------------------------ the limit of the promise

  lemma Extend(s: State, s': State)
    requires Reachable(s) && Step(s, s')
    ensures Reachable(s')
  {
    var run :| IsRun(run) && run[|run| - 1] == s;
    var longer := run + [s'];
    forall i | 0 <= i < |longer| - 1 ensures Step(longer[i], longer[i + 1]) {
      assert i < |run| - 1 ==> Step(run[i], run[i + 1]);
    }
    assert IsRun(longer) && longer[|longer| - 1] == s';
  }

  lemma Executed(s: State, e: Event) returns (s': State)
    requires Reachable(s)
    ensures s' == ExecutorStep(s, e) && Reachable(s')
  {
    s' := ExecutorStep(s, e);
    Extend(s, s');
  }

  lemma Visited(s: State, t: Tid, e: Event) returns (s': State)
    requires Reachable(s)
    ensures s' == VisitorStep(s, t, e) && Reachable(s')
  {
    s' := VisitorStep(s, t, e);
    Extend(s, s');
  }

  lemma KilledAtBirth() returns (s: State)
    ensures Reachable(s) && s.exec == Scanning(Draining) && s.sh == Shared(InUse, {0}, true, true, false, false)
    ensures s.book.born == 1 && At(s, 0).Outside?
  {
    s := INIT;
    assert IsRun([s]) && [s][|[s]| - 1] == s;
    s := Visited(s, 0, Kill);
    s := Visited(s, 0, Continue);
    s := Visited(s, 0, Continue);
    assert At(s, 0).Outside? && s.sh.dead;
    s := Executed(s, Continue);
    s := Executed(s, Continue);
    s := Executed(s, Continue);
    s := Executed(s, Continue);
  }

  /** The thread can exit with nothing left behind. */
  lemma KilledAndGone() returns (s: State)
    ensures Reachable(s) && s.exec.Exited? && s.sh == Shared(Idle, {}, true, true, false, false)
    ensures s.book.born == 1 && At(s, 0).Outside?
  {
    s := KilledAtBirth();
    s := Executed(s, Instead);
    s := Executed(s, Continue);
    s := Executed(s, Pick(0));
    assert s.exec == Scanning(Burying) && s.sh.work == {};
    s := Executed(s, Continue);
    s := Executed(s, Continue);
  }

  /** So there are runs in which an item is stranded: its sender still held the service, put it into
      the mailbox after the exit, and went away. */
  lemma LateWorkIsStranded()
    ensures exists s, i :: Reachable(s) && s.exec.Exited? && i in s.sh.work && !Announced(s, i)
  {
    var s := KilledAndGone();
    s := Visited(s, 0, Send);
    s := Visited(s, 0, Continue);
    assert 1 in s.sh.work;
    s := Visited(s, 0, Continue);
    s := Visited(s, 0, Continue);
    assert 1 in s.book.ended && s.book.ended[1] == AfterExit;
    StrandedExactlyWhenLate(s, 1);
    ReachableIsGood(s);
  }
}
