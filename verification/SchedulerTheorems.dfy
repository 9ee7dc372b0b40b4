/** No lost wake-up: as long as something is queued, a worker that can take it will look for it
    before it sleeps, or has been told to wake, or is about to be told.
 */
module SchedulerTheorems {
  import opened SchedulerSteps
  import opened SchedulerSafety
  import opened Crew

  /** Will look at the injector before it sleeps, or cannot sleep before looking: its token is there. */
  predicate Alert(workers: nat, s: State, w: Tid) {
    w < workers && (!PastInjector(At(s, w)) || w in s.sh.tokens)
  }

  ghost predicate SomeAlert(workers: nat, s: State) {
    exists w: Tid :: Alert(workers, s, w)
  }

  predicate ClaimsOne(pc: Pc) {
    pc.Wake? || (pc.Push? && (pc.p.Offer? || pc.p.PlaceFor?))
  }

  /** An idle bit that a claim at this word is still going to come across. */
  ghost predicate BitAhead(sh: Shared, word: nat) {
    exists w :: w in sh.idle && w / WORD >= word
  }

  /** In the middle of a push, past the point where its item became visible, and bound to wake
      somebody if everybody sleeps. */
  ghost predicate Responsible(s: State, p: Tid) {
    || At(s, p).Recheck?
    || (At(s, p).Again? && BitAhead(s.sh, At(s, p).c.word))
    || ClaimsOne(At(s, p))
  }

  ghost predicate InjectorInv(workers: nat, s: State) {
    Occupied(s.sh, InInjector) && !SomeAlert(workers, s) ==> exists p: Tid :: Responsible(s, p)
  }

  ghost predicate SlotInv(s: State) {
    forall w: Tid :: Occupied(s.sh, InSlot(w)) ==> !PastSlot(At(s, w)) || w in s.sh.tokens || Claimed(s, w)
  }

  ghost predicate LocalInv(s: State) {
    forall w: Tid :: Occupied(s.sh, InLocal(w)) ==> !PastLocal(At(s, w))
  }

  ghost predicate Good(workers: nat, s: State) {
    Base(workers, s) && DozeInv(s) && InjectorInv(workers, s) && SlotInv(s) && LocalInv(s)
  }

  // ------------------------------------------------------------ falling asleep

  lemma NothingPending(workers: nat, sh: Shared, x: Spot)
    requires SharedOk(workers, sh) && sh.pending == 0
    ensures !Occupied(sh, x)
  {
    assert sh.spot == map[];
  }

  /** A worker passes the point of no return only when it has just seen the place empty. */
  lemma SleepsOnlyOnEmpty(workers: nat, sh: Shared, t: Tid, pc: Pc, e: Event)
    requires SharedOk(workers, sh)
    ensures var n := Advance(workers, sh, t, pc, e);
      && (!PastInjector(pc) && PastInjector(n.pc) ==> !Occupied(n.sh, InInjector))
      && (!PastLocal(pc) && PastLocal(n.pc) ==> !Occupied(n.sh, InLocal(t)))
      && (!PastSlot(pc) && PastSlot(n.pc) ==> !Occupied(n.sh, InSlot(t)))
  {
    if sh.pending == 0 {
      NothingPending(workers, sh, InInjector);
      NothingPending(workers, sh, InLocal(t));
      NothingPending(workers, sh, InSlot(t));
    }
  }

  /** Who fills a place: only an owner its own queue, only a claimer a slot. */
  lemma Fills(workers: nat, sh: Shared, t: Tid, pc: Pc, e: Event, w: Tid)
    ensures var n := Advance(workers, sh, t, pc, e);
      && (Occupied(n.sh, InLocal(w)) && !Occupied(sh, InLocal(w)) ==> w == t && !PastLocal(n.pc))
      && (Occupied(n.sh, InSlot(w)) && !Occupied(sh, InSlot(w)) ==> Claims(n.pc, w))
      && (Occupied(n.sh, InInjector) && !Occupied(sh, InInjector) ==>
            (t < workers && n.pc.Home?) || n.pc.Recheck? || ClaimsOne(n.pc))
  {
  }

  // ------------------------------------------------------------ slots and local queues

  lemma ActKeepsLocal(workers: nat, s: State, t: Tid, e: Event)
    requires Base(workers, s) && LocalInv(s)
    ensures LocalInv(Act(workers, s, t, e))
  {
    var s' := Act(workers, s, t, e);
    forall w: Tid | Occupied(s'.sh, InLocal(w)) ensures !PastLocal(At(s', w)) {
      Fills(workers, s.sh, t, At(s, t), e, w);
      SleepsOnlyOnEmpty(workers, s.sh, t, At(s, t), e);
    }
  }

  lemma ActKeepsSlot(workers: nat, s: State, t: Tid, e: Event)
    requires Base(workers, s) && SlotInv(s)
    ensures SlotInv(Act(workers, s, t, e))
  {
    var s' := Act(workers, s, t, e);
    forall w: Tid | Occupied(s'.sh, InSlot(w)) && PastSlot(At(s', w)) && w !in s'.sh.tokens ensures Claimed(s', w) {
      Fills(workers, s.sh, t, At(s, t), e, w);
      SleepsOnlyOnEmpty(workers, s.sh, t, At(s, t), e);
      if Claims(At(s', t), w) {
      } else {
        assert Occupied(s.sh, InSlot(w)) && PastSlot(At(s, w));
        if w == t {
          PastSlotStays(workers, s.sh, t, At(s, t), e);
        } else {
          BitMoves(workers, s.sh, t, At(s, t), e, w);
        }
        assert Claimed(s, w);
        StaysClaimed(workers, s, t, e, w);
      }
    }
  }

  /** Between the slot and the pillow nothing happens to the worker's token. */
  lemma PastSlotStays(workers: nat, sh: Shared, t: Tid, pc: Pc, e: Event)
    requires PastSlot(pc) && PastSlot(Advance(workers, sh, t, pc, e).pc)
    ensures Advance(workers, sh, t, pc, e).sh.tokens == sh.tokens
  {
  }

  // ------------------------------------------------------------ the injector

  /** If nobody is alert after a step over a filled injector, then nobody was before it. */
  lemma NobodyWasAlert(workers: nat, s: State, t: Tid, e: Event)
    requires Base(workers, s)
    requires Occupied(Act(workers, s, t, e).sh, InInjector) && !SomeAlert(workers, Act(workers, s, t, e))
    ensures !SomeAlert(workers, s)
  {
    var s' := Act(workers, s, t, e);
    forall w: Tid ensures !Alert(workers, s, w) {
      assert !Alert(workers, s', w);
      SleepsOnlyOnEmpty(workers, s.sh, t, At(s, t), e);
      if w != t {
        BitMoves(workers, s.sh, t, At(s, t), e, w);
      } else if PastInjector(At(s, t)) && w < workers {
        PastSlotStays(workers, s.sh, t, At(s, t), e);
      }
    }
  }

  /** A worker on its way to sleep, not woken, leaves everything as it is. */
  lemma AsleepTouchesNothing(workers: nat, sh: Shared, t: Tid, pc: Pc, e: Event)
    requires PastInjector(pc) && PastInjector(Advance(workers, sh, t, pc, e).pc)
    ensures Advance(workers, sh, t, pc, e).sh == sh && !ClaimsOne(pc) && !pc.Recheck? && !pc.Again?
  {
  }

  /** Another thread's step leaves a responsible thread responsible, or takes over from it. */
  lemma OthersStayResponsible(workers: nat, s: State, t: Tid, e: Event, p: Tid)
    requires p != t && Responsible(s, p) && t >= workers && SharedOk(workers, s.sh)
    ensures Responsible(Act(workers, s, t, e), p) || Responsible(Act(workers, s, t, e), t)
  {
    var s' := Act(workers, s, t, e);
    if At(s, p).Again? {
      var w :| w in s.sh.idle && w / WORD >= At(s, p).c.word;
      assert w < workers;
      BitMoves(workers, s.sh, t, At(s, t), e, w);
      assert w in s'.sh.idle || ClaimsOne(At(s', t));
    }
  }

  /** While everybody sleeps nobody searches, and every worker has its bit set or is claimed. */
  lemma AllAsleep(workers: nat, s: State)
    requires Base(workers, s) && DozeInv(s) && !SomeAlert(workers, s) && workers > 0
    ensures s.sh.searching == 0
    ensures 0 in s.sh.idle || Claimed(s, 0)
  {
    assert !Alert(workers, s, 0);
    forall t ensures t !in Those(s.threads, Searches) {
      assert !Alert(workers, s, t);
      assert PcOk(workers, s.sh, t, At(s, t));
    }
    assert Those(s.threads, Searches) == {};
  }

  /** A claim that still has a bit ahead of it does not come back empty-handed. */
  lemma ClaimGoesOn(workers: nat, sh: Shared, t: Tid, c: Claiming, e: Event)
    requires SharedOk(workers, sh) && BitAhead(sh, c.word)
    ensures var n := SecondClaim(workers, sh, c, e);
      ClaimsOne(n.pc) || (n.pc.Again? && n.sh == sh && BitAhead(sh, n.pc.c.word))
  {
    var w :| w in sh.idle && w / WORD >= c.word;
    assert w < workers;
    if w / WORD == c.word {
      assert w in Bits(sh.idle, c.word);
    } else {
      assert w / WORD >= c.word + 1;
    }
  }

  /** A responsible thread that moves stays responsible or has woken somebody. */
  lemma MoverStaysResponsible(workers: nat, s: State, t: Tid, e: Event)
    requires Good(workers, s) && workers > 0 && t >= workers && Responsible(s, t) && !SomeAlert(workers, s)
    ensures SomeAlert(workers, Act(workers, s, t, e)) || exists p: Tid :: Responsible(Act(workers, s, t, e), p)
  {
    var s' := Act(workers, s, t, e);
    assert PcOk(workers, s.sh, t, At(s, t));
    if At(s, t).Recheck? {
      AllAsleep(workers, s);
      if 0 in s.sh.idle {
        assert BitAhead(s'.sh, 0);
        assert Responsible(s', t);
      } else {
        var q :| Claims(At(s, q), 0);
        assert Responsible(s', q);
      }
    } else if At(s, t).Again? {
      ClaimGoesOn(workers, s.sh, t, At(s, t).c, e);
      assert Responsible(s', t);
    } else if At(s, t).Wake? {
      assert Claims(At(s, t), At(s, t).id);
      assert Alert(workers, s', At(s, t).id);
    } else {
      assert Responsible(s', t);
    }
  }

  lemma ActKeepsInjector(workers: nat, s: State, t: Tid, e: Event)
    requires Good(workers, s) && workers > 0
    ensures InjectorInv(workers, Act(workers, s, t, e))
  {
    var s' := Act(workers, s, t, e);
    if Occupied(s'.sh, InInjector) && !SomeAlert(workers, s') {
      NobodyWasAlert(workers, s, t, e);
      assert !Alert(workers, s, t) && !Alert(workers, s', t);
      if t < workers {
        AsleepTouchesNothing(workers, s.sh, t, At(s, t), e);
        var p :| Responsible(s, p);
        assert Responsible(s', p);
      } else if !Occupied(s.sh, InInjector) {
        Fills(workers, s.sh, t, At(s, t), e, t);
        assert Responsible(s', t);
      } else {
        var p :| Responsible(s, p);
        assert PcOk(workers, s.sh, t, At(s, t));
        if p == t {
          MoverStaysResponsible(workers, s, t, e);
        } else {
          OthersStayResponsible(workers, s, t, e, p);
        }
      }
    }
  }

  // ------------------------------------------------------------ every run

  lemma InitIsGood(workers: nat)
    ensures Good(workers, INIT)
  {
    assert Those(INIT.threads, Searches) == {};
  }

  lemma ActKeeps(workers: nat, s: State, t: Tid, e: Event)
    requires Good(workers, s) && workers > 0
    ensures Good(workers, Act(workers, s, t, e))
  {
    ActKeepsBase(workers, s, t, e);
    ActKeepsDoze(workers, s, t, e);
    ActKeepsInjector(workers, s, t, e);
    ActKeepsSlot(workers, s, t, e);
    ActKeepsLocal(workers, s, t, e);
  }

  lemma {:induction false} RunIsGood(workers: nat, run: seq<State>)
    requires IsRun(workers, run)
    ensures Good(workers, run[|run| - 1])
  {
    if |run| == 1 {
      InitIsGood(workers);
    } else {
      var before := run[..|run| - 1];
      forall i | 0 <= i < |before| - 1 ensures Step(workers, before[i], before[i + 1]) {
        assert Step(workers, run[i], run[i + 1]);
      }
      RunIsGood(workers, before);
      var s, s' := run[|run| - 2], run[|run| - 1];
      assert s == before[|before| - 1] && Step(workers, run[|run| - 2], run[|run| - 2 + 1]);
      var t, e :| s' == Act(workers, s, t, e);
      ActKeeps(workers, s, t, e);
    }
  }

  lemma ReachableIsGood(workers: nat, s: State)
    requires Reachable(workers, s)
    ensures workers > 0 && Good(workers, s)
  {
    var run :| IsRun(workers, run) && run[|run| - 1] == s;
    RunIsGood(workers, run);
  }

  /** In the middle of a push or a poke. */
  predicate MidPush(pc: Pc) {
    pc.Push? || pc.Hand? || pc.Recheck? || pc.Again? || pc.Wake?
  }

  /** The item has somebody: a worker able to take it who will look where it is before sleeping,
      or whose token is there; or it is in the hands of a thread that is taking or pushing it. */
  ghost predicate LookedAfter(workers: nat, s: State, i: Item)
    requires i in s.sh.spot
  {
    match s.sh.spot[i]
    case InInjector => SomeAlert(workers, s)
    case InSlot(w) => w < workers && (!PastSlot(At(s, w)) || w in s.sh.tokens)
    case InLocal(w) => w < workers && !PastLocal(At(s, w))
    case InHand(t) => Holds(At(s, t), i)
  }

  /** The counters are exact: `pending` counts the items in a queue or in somebody's hands, and
      `searching` the workers between raising it and lowering it. Neither goes below zero. */
  lemma CountersAreExact(workers: nat, s: State)
    requires Reachable(workers, s)
    ensures s.sh.pending == |s.sh.spot| && s.sh.searching == |Those(s.threads, Searches)|
  {
    ReachableIsGood(workers, s);
  }

  /** The main theorem. While nobody is in the middle of a push, whatever is queued is looked after:
      in the injector, some worker will look there before it sleeps or has a wake-up waiting; in a
      hand-off slot or a local queue, its own worker will. */
  lemma NoLostWakeup(workers: nat, s: State, i: Item)
    requires Reachable(workers, s) && i in s.sh.spot
    requires forall p: Tid :: !MidPush(At(s, p))
    ensures LookedAfter(workers, s, i)
  {
    ReachableIsGood(workers, s);
    assert OfAWorker(workers, s.sh.spot[i]);
    match s.sh.spot[i]
    case InInjector =>
      assert Occupied(s.sh, InInjector);
      if p: Tid :| Responsible(s, p) {
        assert MidPush(At(s, p));
      }
    case InSlot(w) =>
      assert Occupied(s.sh, InSlot(w));
      if p: Tid :| Claims(At(s, p), w) {
        assert MidPush(At(s, p));
      }
    case InLocal(w) => assert Occupied(s.sh, InLocal(w));
    case InHand(t) => assert PcOk(workers, s.sh, t, At(s, t)) && InHandOf(s.sh, t, i);
  }

  lemma AlertLasts(workers: nat, s: State, t: Tid, e: Event, w: Tid)
    requires SharedOk(workers, s.sh) && Alert(workers, s, w) && Occupied(Act(workers, s, t, e).sh, InInjector)
    ensures Alert(workers, Act(workers, s, t, e), w)
  {
    SleepsOnlyOnEmpty(workers, s.sh, t, At(s, t), e);
    if w != t {
      BitMoves(workers, s.sh, t, At(s, t), e, w);
    } else if PastInjector(At(s, t)) && PastInjector(At(Act(workers, s, t, e), t)) {
      PastSlotStays(workers, s.sh, t, At(s, t), e);
    }
  }

  /** And it lasts: an item that is looked after stays so, whatever step comes next, for as long as
      it lies where it is. A worker that was going to look never gives up before it has looked. */
  lemma LookedAfterUntilTaken(workers: nat, s: State, t: Tid, e: Event, i: Item)
    requires Reachable(workers, s) && i in s.sh.spot && !s.sh.spot[i].InHand? && LookedAfter(workers, s, i)
    requires i in Act(workers, s, t, e).sh.spot && Act(workers, s, t, e).sh.spot[i] == s.sh.spot[i]
    ensures LookedAfter(workers, Act(workers, s, t, e), i)
  {
    ReachableIsGood(workers, s);
    var s' := Act(workers, s, t, e);
    assert Occupied(s'.sh, s.sh.spot[i]);
    match s.sh.spot[i]
    case InInjector =>
      var w :| Alert(workers, s, w);
      AlertLasts(workers, s, t, e, w);
    case InSlot(w) =>
      SleepsOnlyOnEmpty(workers, s.sh, t, At(s, t), e);
      if w != t {
        BitMoves(workers, s.sh, t, At(s, t), e, w);
      } else if PastSlot(At(s, t)) && PastSlot(At(s', t)) {
        PastSlotStays(workers, s.sh, t, At(s, t), e);
      }
    case InLocal(w) => SleepsOnlyOnEmpty(workers, s.sh, t, At(s, t), e);
  }

  /** In the middle of a push there is always one more step: the pusher itself, or another, is bound
      to wake somebody, unless somebody is awake to take the work. */
  lemma InjectorIsNeverForgotten(workers: nat, s: State)
    requires Reachable(workers, s) && Occupied(s.sh, InInjector)
    ensures SomeAlert(workers, s) || exists p: Tid :: Responsible(s, p)
  {
    ReachableIsGood(workers, s);
  }

  /** If every worker is parked with no wake-up waiting and no other thread is inside the scheduler,
      then nothing is queued anywhere. */
  lemma EverybodySleepsOnlyOnNothing(workers: nat, s: State)
    requires Reachable(workers, s)
    requires forall w: Tid :: w < workers ==> At(s, w).Parking? && w !in s.sh.tokens
    requires forall t: Tid :: t >= workers ==> At(s, t).Home?
    ensures s.sh.spot == map[] && s.sh.pending == 0 && s.sh.searching == 0
  {
    ReachableIsGood(workers, s);
    forall i ensures i !in s.sh.spot {
      if i in s.sh.spot {
        NoLostWakeup(workers, s, i);
      }
    }
    AllAsleep(workers, s);
  }
}
