/** What every step of the scheduler keeps: the counters are exact, every dozing worker is attended
    to, and queued work always has somebody who will come for it.
 */
module SchedulerSafety {
  import opened SchedulerSteps
  import opened Crew

  // ------------------------------------------------------------ what a position tells

  /** Counted in `searching`. */
  predicate Searches(pc: Pc) {
    (pc.Scan? && pc.k.Spin?) || pc.Searching? || pc.Marking? || pc.Leaving? || pc.Found?
  }

  /** Its idle bit is set, unless somebody took it off. */
  predicate Dozes(pc: Pc) {
    pc.Leaving? || pc.Parking? || (pc.Scan? && pc.k.Final? && !pc.s.Discount?)
  }

  /** Took the worker's idle bit off and has yet to wake it. */
  predicate Claims(pc: Pc, w: Tid) {
    pc == Wake(w) || (pc.Push? && (pc.p == Offer(w) || pc.p == PlaceFor(w)))
  }

  /** Will not look at the injector again before it parks. */
  predicate PastInjector(pc: Pc) {
    pc.Parking? || (pc.Scan? && pc.k.Final? && pc.s.Steal?)
  }

  /** Will not look at its own queue again before it parks. */
  predicate PastLocal(pc: Pc) {
    PastInjector(pc) || (pc.Scan? && pc.k.Final? && pc.s.Injector?)
  }

  /** Will not look at its hand-off slot again before it parks. */
  predicate PastSlot(pc: Pc) {
    pc.Parking? || (pc.Scan? && pc.k.Final? && !pc.s.Slot? && !pc.s.Discount?)
  }

  /** Has the item in hand: on the way into a queue or on the way out of one. */
  predicate Holds(pc: Pc, i: Item) {
    || (pc.Push? && pc.i == i)
    || (pc.Hand? && pc.i == i)
    || (pc.Scan? && pc.s == Discount(i))
  }

  predicate OnlyWorkers(pc: Pc) {
    Searches(pc) || Dozes(pc) || pc.Clearing? || (pc.Scan? && !pc.k.Plain?)
  }

  // ------------------------------------------------------------ one thread

  predicate SharedOk(workers: nat, sh: Shared) {
    && Numbered(sh)
    && (forall w :: w in sh.idle ==> w < workers)
    && sh.pending == |sh.spot|
    && (forall i :: i in sh.spot ==> OfAWorker(workers, sh.spot[i]))
  }

  /** Item numbers are not used twice. */
  predicate Numbered(sh: Shared) {
    forall i :: i in sh.spot ==> i < sh.next
  }

  /** A slot or a local queue belongs to a worker. */
  predicate OfAWorker(workers: nat, x: Spot) {
    x.InSlot? || x.InLocal? ==> x.w < workers
  }

  predicate InHandOf(sh: Shared, t: Tid, i: Item) {
    i in sh.spot && sh.spot[i] == InHand(t)
  }

  ghost predicate PcOk(workers: nat, sh: Shared, t: Tid, pc: Pc) {
    && (OnlyWorkers(pc) ==> t < workers)
    && (forall w: Tid :: Claims(pc, w) ==> w < workers)
    && Hands(sh, t, pc)
  }

  ghost predicate Hands(sh: Shared, t: Tid, pc: Pc) {
    forall i: Item :: Holds(pc, i) <==> InHandOf(sh, t, i)
  }

  lemma PutKeepsShared(workers: nat, sh: Shared, i: Item, x: Spot)
    requires SharedOk(workers, sh) && i in sh.spot && OfAWorker(workers, x)
    ensures SharedOk(workers, Put(sh, i, x))
  {
    assert sh.spot[i := x].Keys == sh.spot.Keys;
  }

  lemma DropKeepsShared(workers: nat, sh: Shared, i: Item)
    requires SharedOk(workers, sh) && i in sh.spot
    ensures SharedOk(workers, sh.(spot := sh.spot - {i}, pending := sh.pending - 1))
  {
    assert (sh.spot - {i}).Keys == sh.spot.Keys - {i};
  }

  lemma ScannerKeepsShared(workers: nat, sh: Shared, t: Tid, k: Kind, x: Scanning, e: Event)
    requires SharedOk(workers, sh) && PcOk(workers, sh, t, Scan(k, x))
    ensures SharedOk(workers, Scanner(workers, sh, t, k, x, e).sh)
  {
    if e.Yield? && e.item in sh.spot {
      PutKeepsShared(workers, sh, e.item, InHand(t));
    }
    if x.Discount? {
      assert Holds(Scan(k, x), x.i);
      DropKeepsShared(workers, sh, x.i);
    }
  }

  lemma PusherKeepsShared(workers: nat, sh: Shared, t: Tid, i: Item, p: Pushing, e: Event)
    requires SharedOk(workers, sh) && PcOk(workers, sh, t, Push(i, p))
    ensures SharedOk(workers, Pusher(workers, sh, t, i, p, e).sh)
  {
    assert Holds(Push(i, p), i);
    PutKeepsShared(workers, sh, i, InInjector);
    if t < workers {
      PutKeepsShared(workers, sh, i, InLocal(t));
    }
    if p.Offer? {
      assert Claims(Push(i, p), p.id);
      PutKeepsShared(workers, sh, i, InSlot(p.id));
    }
  }

  lemma AdvanceKeepsShared(workers: nat, sh: Shared, t: Tid, pc: Pc, e: Event)
    requires SharedOk(workers, sh) && PcOk(workers, sh, t, pc)
    ensures SharedOk(workers, Advance(workers, sh, t, pc, e).sh)
  {
    match pc
    case Home =>
      if e.CallPush? {
        assert sh.spot[sh.next := InHand(t)].Keys == sh.spot.Keys + {sh.next};
      }
    case Scan(k, x) => ScannerKeepsShared(workers, sh, t, k, x, e);
    case Push(i, p) => PusherKeepsShared(workers, sh, t, i, p, e);
    case _ =>
  }

  /** A thread's items stay in its hands while others move. */
  ghost predicate KeepsHands(sh: Shared, sh': Shared, t: Tid) {
    forall u: Tid, i: Item :: u != t ==> (InHandOf(sh', u, i) <==> InHandOf(sh, u, i))
  }

  lemma AdvanceKeepsHands(workers: nat, sh: Shared, t: Tid, pc: Pc, e: Event)
    requires SharedOk(workers, sh) && PcOk(workers, sh, t, pc)
    ensures KeepsHands(sh, Advance(workers, sh, t, pc, e).sh, t)
  {
    match pc
    case Push(i, p) => assert Holds(pc, i);
    case Scan(k, x) => if x.Discount? { assert Holds(pc, x.i); }
    case _ =>
  }

  lemma AdvanceKeepsClaims(workers: nat, sh: Shared, t: Tid, pc: Pc, e: Event, w: Tid)
    requires w in sh.idle || Claims(pc, w) ==> w < workers
    ensures Claims(Advance(workers, sh, t, pc, e).pc, w) ==> w < workers
  {
  }

  lemma ScannerKeepsHeld(workers: nat, sh: Shared, t: Tid, k: Kind, x: Scanning, e: Event)
    requires Hands(sh, t, Scan(k, x))
    ensures Hands(Scanner(workers, sh, t, k, x, e).sh, t, Scanner(workers, sh, t, k, x, e).pc)
  {
    var n := Scanner(workers, sh, t, k, x, e);
    forall i: Item ensures Holds(n.pc, i) <==> InHandOf(n.sh, t, i) {
      assert Holds(Scan(k, x), i) <==> InHandOf(sh, t, i);
    }
  }

  lemma AdvanceKeepsHeld(workers: nat, sh: Shared, t: Tid, pc: Pc, e: Event)
    requires Numbered(sh) && Hands(sh, t, pc)
    ensures Hands(Advance(workers, sh, t, pc, e).sh, t, Advance(workers, sh, t, pc, e).pc)
  {
    if pc.Scan? {
      ScannerKeepsHeld(workers, sh, t, pc.k, pc.s, e);
    } else {
      var n := Advance(workers, sh, t, pc, e);
      forall i: Item ensures Holds(n.pc, i) <==> InHandOf(n.sh, t, i) {
        assert Holds(pc, i) <==> InHandOf(sh, t, i);
      }
    }
  }

  lemma AdvanceKeepsWorkers(workers: nat, sh: Shared, t: Tid, pc: Pc, e: Event)
    requires OnlyWorkers(pc) ==> t < workers
    ensures OnlyWorkers(Advance(workers, sh, t, pc, e).pc) ==> t < workers
  {
  }

  lemma AdvanceKeepsPc(workers: nat, sh: Shared, t: Tid, pc: Pc, e: Event)
    requires SharedOk(workers, sh) && PcOk(workers, sh, t, pc)
    ensures PcOk(workers, Advance(workers, sh, t, pc, e).sh, t, Advance(workers, sh, t, pc, e).pc)
  {
    var n := Advance(workers, sh, t, pc, e);
    AdvanceKeepsWorkers(workers, sh, t, pc, e);
    AdvanceKeepsHeld(workers, sh, t, pc, e);
    forall w: Tid ensures Claims(n.pc, w) ==> w < workers { AdvanceKeepsClaims(workers, sh, t, pc, e, w); }
  }

  // ------------------------------------------------------------ all threads

  ghost predicate Base(workers: nat, s: State) {
    && SharedOk(workers, s.sh)
    && (forall t: Tid :: PcOk(workers, s.sh, t, At(s, t)))
    && s.sh.searching == |Those(s.threads, Searches)|
  }

  lemma OthersKept(workers: nat, s: State, t: Tid, e: Event, u: Tid)
    requires Base(workers, s) && u != t
    ensures PcOk(workers, Act(workers, s, t, e).sh, u, At(s, u))
  {
    var n := Advance(workers, s.sh, t, At(s, t), e);
    AdvanceKeepsHands(workers, s.sh, t, At(s, t), e);
    assert PcOk(workers, s.sh, u, At(s, u));
    forall i: Item ensures Holds(At(s, u), i) <==> InHandOf(n.sh, u, i) {
      assert InHandOf(n.sh, u, i) <==> InHandOf(s.sh, u, i);
    }
  }

  lemma SearchingFollows(workers: nat, sh: Shared, t: Tid, pc: Pc, e: Event)
    requires OnlyWorkers(pc) ==> t < workers
    ensures Advance(workers, sh, t, pc, e).sh.searching + One(Searches(pc))
            == sh.searching + One(Searches(Advance(workers, sh, t, pc, e).pc))
  {
  }

  lemma ActKeepsBase(workers: nat, s: State, t: Tid, e: Event)
    requires Base(workers, s)
    ensures Base(workers, Act(workers, s, t, e))
  {
    var s' := Act(workers, s, t, e);
    assert PcOk(workers, s.sh, t, At(s, t));
    AdvanceKeepsShared(workers, s.sh, t, At(s, t), e);
    AdvanceKeepsPc(workers, s.sh, t, At(s, t), e);
    forall u: Tid ensures PcOk(workers, s'.sh, u, At(s', u)) {
      if u != t {
        OthersKept(workers, s, t, e, u);
      }
    }
    SearchingFollows(workers, s.sh, t, At(s, t), e);
    CountAfter(s.threads, t, At(s', t), Searches);
  }

  // ------------------------------------------------------------ dozing workers are attended to

  /** Somebody took the worker's idle bit off and is going to wake it. */
  ghost predicate Claimed(s: State, w: Tid) {
    exists p: Tid :: Claims(At(s, p), w)
  }

  ghost predicate Attended(s: State, w: Tid) {
    w in s.sh.idle || w in s.sh.tokens || Claimed(s, w)
  }

  ghost predicate DozeInv(s: State) {
    forall w: Tid :: Dozes(At(s, w)) ==> Attended(s, w)
  }

  /** What a step does to one worker's bit, token and claim; `w` is not the thread that moves. */
  lemma BitMoves(workers: nat, sh: Shared, t: Tid, pc: Pc, e: Event, w: Tid)
    requires w != t
    ensures var n := Advance(workers, sh, t, pc, e);
      && (w in sh.tokens ==> w in n.sh.tokens)
      && (w in sh.idle ==> w in n.sh.idle || Claims(n.pc, w))
      && (Claims(pc, w) ==> Claims(n.pc, w) || w in n.sh.tokens)
  {
  }

  /** What a step does to the moving worker's own. */
  lemma OwnBitMoves(workers: nat, sh: Shared, t: Tid, pc: Pc, e: Event)
    ensures var n := Advance(workers, sh, t, pc, e);
      && (Dozes(n.pc) && !Dozes(pc) ==> t in n.sh.idle)
      && (Dozes(n.pc) && Dozes(pc) ==> n.sh.idle == sh.idle && n.sh.tokens == sh.tokens)
      && (Dozes(pc) ==> forall w: Tid :: !Claims(pc, w))
  {
  }

  lemma StaysClaimed(workers: nat, s: State, t: Tid, e: Event, w: Tid)
    requires Claimed(s, w) && (w == t ==> Dozes(At(s, t)))
    ensures Claimed(Act(workers, s, t, e), w) || w in Act(workers, s, t, e).sh.tokens
  {
    var s' := Act(workers, s, t, e);
    var p :| Claims(At(s, p), w);
    if p == t {
      OwnBitMoves(workers, s.sh, t, At(s, t), e);
      BitMoves(workers, s.sh, t, At(s, t), e, w);
      assert Claims(At(s', t), w) || w in s'.sh.tokens;
    } else {
      assert Claims(At(s', p), w);
    }
  }

  lemma ActKeepsDoze(workers: nat, s: State, t: Tid, e: Event)
    requires DozeInv(s)
    ensures DozeInv(Act(workers, s, t, e))
  {
    var s' := Act(workers, s, t, e);
    forall w: Tid | Dozes(At(s', w)) ensures Attended(s', w) {
      OwnBitMoves(workers, s.sh, t, At(s, t), e);
      if w == t && !Dozes(At(s, t)) {
        assert w in s'.sh.idle;
      } else {
        assert Attended(s, w);
        if w != t {
          BitMoves(workers, s.sh, t, At(s, t), e, w);
          assert Claims(At(s', t), w) ==> Claimed(s', w);
        }
        if Claimed(s, w) {
          StaysClaimed(workers, s, t, e, w);
        }
      }
    }
  }
}
