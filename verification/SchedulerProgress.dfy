/** What the calls of the scheduler come to: no item is lost or handed out twice in any run, and a call
    that runs alone puts, takes or wakes exactly what it should.
 */
module SchedulerProgress {
  import opened SchedulerSteps
  import opened SchedulerSafety
  import opened SchedulerTheorems

  // ------------------------------------------------------------ where items go

  predicate Waiting(x: Spot) {
    x.InInjector? || x.InSlot? || x.InLocal?
  }

  /** What a step of `t` may do to an item: nothing; end its push by putting it where somebody waits for
      it; take it out of there; or, having taken it, give it to its caller. */
  predicate ItemMoves(s: State, s': State, t: Tid, i: Item)
    requires i in s.sh.spot
  {
    var x, pc, pc' := s.sh.spot[i], At(s, t), At(s', t);
    if i !in s'.sh.spot then x == InHand(t) && pc.Scan? && pc.s == Discount(i) && s'.sh.pending == s.sh.pending - 1
    else if s'.sh.spot[i] == x then true
    else if x == InHand(t) then pc.Push? && pc.i == i && Waiting(s'.sh.spot[i]) && !Holds(pc', i)
    else Waiting(x) && s'.sh.spot[i] == InHand(t) && pc.Scan? && pc' == Scan(pc.k, Discount(i))
  }

  lemma ScannerMovesItems(workers: nat, sh: Shared, t: Tid, k: Kind, x: Scanning, e: Event, i: Item)
    requires Hands(sh, t, Scan(k, x)) && i in sh.spot
    ensures var n := Scanner(workers, sh, t, k, x, e);
      if i !in n.sh.spot then sh.spot[i] == InHand(t) && x == Discount(i) && n.sh.pending == sh.pending - 1
      else n.sh.spot[i] == sh.spot[i]
           || (Waiting(sh.spot[i]) && n.sh.spot[i] == InHand(t) && n.pc == Scan(k, Discount(i)))
  {
    assert Holds(Scan(k, x), i) <==> InHandOf(sh, t, i);
  }

  lemma PusherMovesItems(workers: nat, sh: Shared, t: Tid, j: Item, p: Pushing, e: Event, i: Item)
    requires Hands(sh, t, Push(j, p)) && i in sh.spot
    ensures var n := Pusher(workers, sh, t, j, p, e);
      && i in n.sh.spot
      && (n.sh.spot[i] == sh.spot[i]
          || (sh.spot[i] == InHand(t) && i == j && Waiting(n.sh.spot[i]) && !Holds(n.pc, i)))
  {
    assert Holds(Push(j, p), j);
    assert Holds(Push(j, p), i) <==> InHandOf(sh, t, i);
  }

  lemma OthersMoveNothing(workers: nat, sh: Shared, t: Tid, pc: Pc, e: Event, i: Item)
    requires Numbered(sh) && i in sh.spot && !pc.Scan? && !pc.Push?
    ensures i in Advance(workers, sh, t, pc, e).sh.spot && Advance(workers, sh, t, pc, e).sh.spot[i] == sh.spot[i]
  {
  }

  /** In every reachable state, whatever step anybody takes. */
  lemma ItemsAreKept(workers: nat, s: State, t: Tid, e: Event, i: Item)
    requires Reachable(workers, s) && i in s.sh.spot
    ensures ItemMoves(s, Act(workers, s, t, e), t, i)
  {
    ReachableIsGood(workers, s);
    assert PcOk(workers, s.sh, t, At(s, t));
    match At(s, t)
    case Scan(k, x) => ScannerMovesItems(workers, s.sh, t, k, x, e, i);
    case Push(j, p) => PusherMovesItems(workers, s.sh, t, j, p, e, i);
    case _ => OthersMoveNothing(workers, s.sh, t, At(s, t), e, i);
  }

  /** Only a push brings a new item in, under the next number. */
  lemma Adds(workers: nat, sh: Shared, t: Tid, pc: Pc, e: Event, i: Item)
    requires Hands(sh, t, pc) && i !in sh.spot
    ensures var n := Advance(workers, sh, t, pc, e);
      && sh.next <= n.sh.next <= sh.next + 1
      && (i in n.sh.spot <==> i == sh.next && n.sh.next == sh.next + 1)
      && (n.sh.next == sh.next + 1 <==> pc.Home? && e.CallPush?)
  {
    match pc
    case Push(j, p) => assert Holds(pc, j);
    case _ =>
  }

  // ------------------------------------------------------------ over whole runs

  lemma PrefixIsGood(workers: nat, run: seq<State>, n: nat)
    requires IsRun(workers, run) && n < |run|
    ensures Base(workers, run[n])
  {
    var part := run[..n + 1];
    forall i | 0 <= i < |part| - 1 ensures Step(workers, part[i], part[i + 1]) {
      assert Step(workers, run[i], run[i + 1]);
    }
    RunIsGood(workers, part);
  }

  lemma StepAdds(workers: nat, run: seq<State>, n: nat, i: Item)
    requires IsRun(workers, run) && n + 1 < |run| && i !in run[n].sh.spot
    ensures run[n].sh.next <= run[n + 1].sh.next <= run[n].sh.next + 1
    ensures i in run[n + 1].sh.spot <==> i == run[n].sh.next && run[n + 1].sh.next == run[n].sh.next + 1
  {
    PrefixIsGood(workers, run, n);
    assert Step(workers, run[n], run[n + 1]);
    var t, e :| run[n + 1] == Act(workers, run[n], t, e);
    assert PcOk(workers, run[n].sh, t, At(run[n], t));
    Adds(workers, run[n].sh, t, At(run[n], t), e, i);
  }

  lemma NumbersGrow(workers: nat, run: seq<State>, n: nat)
    requires IsRun(workers, run) && n + 1 < |run|
    ensures run[n].sh.next <= run[n + 1].sh.next <= run[n].sh.next + 1
    ensures forall i :: i in run[n].sh.spot ==> i < run[n].sh.next
  {
    PrefixIsGood(workers, run, n);
    assert run[n].sh.next !in run[n].sh.spot;
    StepAdds(workers, run, n, run[n].sh.next);
  }

  /** The step from state `m` hands the item to the caller of a pop. */
  predicate PoppedAt(run: seq<State>, m: nat, i: Item) {
    m + 1 < |run| && i in run[m].sh.spot && i !in run[m + 1].sh.spot
  }

  lemma {:induction false} GoneForGood(workers: nat, run: seq<State>, m: nat, n: nat, i: Item)
    requires IsRun(workers, run) && m <= n < |run| && i < run[m].sh.next && i !in run[m].sh.spot
    ensures i < run[n].sh.next && i !in run[n].sh.spot
    decreases n
  {
    if m < n {
      GoneForGood(workers, run, m, n - 1, i);
      StepAdds(workers, run, n - 1, i);
    }
  }

  lemma {:induction false} PoppedSometime(workers: nat, run: seq<State>, n: nat, i: Item) returns (m: nat)
    requires IsRun(workers, run) && n < |run| && i < run[n].sh.next && i !in run[n].sh.spot
    ensures m < n && PoppedAt(run, m, i)
    decreases n
  {
    NumbersGrow(workers, run, n - 1);
    if i in run[n - 1].sh.spot {
      m := n - 1;
    } else {
      StepAdds(workers, run, n - 1, i);
      m := PoppedSometime(workers, run, n - 1, i);
    }
  }

  lemma GoneAfter(workers: nat, run: seq<State>, m: nat, n: nat, i: Item)
    requires IsRun(workers, run) && m < n < |run| && PoppedAt(run, m, i)
    ensures i !in run[n].sh.spot
  {
    NumbersGrow(workers, run, m);
    GoneForGood(workers, run, m + 1, n, i);
  }

  lemma PoppedOnce(workers: nat, run: seq<State>, m: nat, k: nat, i: Item)
    requires IsRun(workers, run) && PoppedAt(run, m, i) && PoppedAt(run, k, i)
    ensures m == k
  {
    if m < k {
      GoneAfter(workers, run, m, k, i);
    } else if k < m {
      GoneAfter(workers, run, k, m, i);
    }
  }

  /** Nothing is lost and nothing is handed out twice. In every state of every run, an item that was
      pushed is queued or in somebody's hands, or has been popped before, and never both; and no two
      steps pop it. */
  lemma EveryItemIsPoppedOnce(workers: nat, run: seq<State>, n: nat, i: Item)
    requires IsRun(workers, run) && n < |run| && i < run[n].sh.next
    ensures i !in run[n].sh.spot <==> exists m: nat :: m < n && PoppedAt(run, m, i)
    ensures forall m: nat, k: nat :: PoppedAt(run, m, i) && PoppedAt(run, k, i) ==> m == k
  {
    if i !in run[n].sh.spot {
      var m := PoppedSometime(workers, run, n, i);
    } else if m: nat :| m < n && PoppedAt(run, m, i) {
      GoneAfter(workers, run, m, n, i);
    }
    forall m: nat, k: nat | PoppedAt(run, m, i) && PoppedAt(run, k, i) ensures m == k {
      PoppedOnce(workers, run, m, k, i);
    }
  }

  // ------------------------------------------------------------ calls that run alone

  /** A thread takes `n` steps, nothing out of the ordinary, and nobody else any. */
  ghost function Solo(workers: nat, sh: Shared, t: Tid, pc: Pc, n: nat): Next
    decreases n
  {
    if n == 0 then Next(sh, pc)
    else
      var x := Advance(workers, sh, t, pc, Ordinary);
      Solo(workers, x.sh, t, x.pc, n - 1)
  }

  lemma {:induction false} SoloAdds(workers: nat, sh: Shared, t: Tid, pc: Pc, n: nat, m: nat)
    ensures var x := Solo(workers, sh, t, pc, n); Solo(workers, sh, t, pc, n + m) == Solo(workers, x.sh, t, x.pc, m)
    decreases n
  {
    if n > 0 {
      var x := Advance(workers, sh, t, pc, Ordinary);
      SoloAdds(workers, x.sh, t, x.pc, n - 1, m);
    }
  }

  lemma LowestOfWord(idle: set<Tid>, word: nat)
    requires Bits(idle, word) != {} && forall w :: w in idle ==> w / WORD >= word
    ensures idle != {} && Lowest(Bits(idle, word)) == Lowest(idle) && IsLowest(idle, Lowest(idle))
  {
    var bits := Bits(idle, word);
    LowestExists(bits);
    LowestExists(idle);
    var w := Lowest(bits);
    assert IsLowest(bits, w) && IsLowest(idle, Lowest(idle));
    forall v | v in idle ensures w <= v {
      assert v in bits || v / WORD > word;
    }
  }

  /** A first claim gets the lowest of the idle workers, and goes on to place the item if there is none. */
  ghost function Claimed1(sh: Shared, i: Item): Next {
    if sh.idle == {} then Next(sh, Push(i, Place))
    else Next(sh.(idle := sh.idle - {Lowest(sh.idle)}), Push(i, Offer(Lowest(sh.idle))))
  }

  lemma {:induction false} FirstClaimEnds(workers: nat, sh: Shared, t: Tid, i: Item, word: nat) returns (n: nat)
    requires forall w :: w in sh.idle ==> w < workers && w / WORD >= word
    ensures Solo(workers, sh, t, Hand(i, Load(word)), n) == Claimed1(sh, i)
    decreases if word * WORD < workers then workers - word * WORD else 0
  {
    if word * WORD >= workers {
      assert sh.idle == {};
      assert Solo(workers, sh, t, Push(i, Place), 0) == Next(sh, Push(i, Place));
      n := 1;
    } else if Bits(sh.idle, word) == {} {
      forall w | w in sh.idle ensures w / WORD >= word + 1 {
        assert w !in Bits(sh.idle, word);
      }
      n := FirstClaimEnds(workers, sh, t, i, word + 1);
      n := n + 1;
    } else {
      LowestOfWord(sh.idle, word);
      var x := Claimed1(sh, i);
      assert Solo(workers, x.sh, t, x.pc, 0) == x;
      assert Solo(workers, sh, t, Hand(i, Exchange(word, Bits(sh.idle, word))), 1) == x;
      n := 2;
    }
  }

  /** The lowest idle worker, if there is one, has been told to wake. */
  ghost function Woken(sh: Shared): Shared {
    if sh.idle == {} then sh
    else sh.(idle := sh.idle - {Lowest(sh.idle)}, tokens := sh.tokens + {Lowest(sh.idle)})
  }

  lemma {:induction false} SecondClaimEnds(workers: nat, sh: Shared, t: Tid, word: nat) returns (n: nat)
    requires forall w :: w in sh.idle ==> w < workers && w / WORD >= word
    ensures Solo(workers, sh, t, Again(Load(word)), n) == Next(Woken(sh), Home)
    decreases if word * WORD < workers then workers - word * WORD else 0
  {
    if word * WORD >= workers {
      assert sh.idle == {};
      assert Solo(workers, sh, t, Home, 0) == Next(sh, Home);
      n := 1;
    } else if Bits(sh.idle, word) == {} {
      forall w | w in sh.idle ensures w / WORD >= word + 1 {
        assert w !in Bits(sh.idle, word);
      }
      n := SecondClaimEnds(workers, sh, t, word + 1);
      n := n + 1;
    } else {
      LowestOfWord(sh.idle, word);
      var w := Lowest(sh.idle);
      var sh1 := sh.(idle := sh.idle - {w});
      assert Solo(workers, Woken(sh), t, Home, 0) == Next(Woken(sh), Home);
      assert Solo(workers, sh1, t, Wake(w), 1) == Next(Woken(sh), Home);
      assert Solo(workers, sh, t, Again(Exchange(word, Bits(sh.idle, word))), 2) == Next(Woken(sh), Home);
      n := 3;
    }
  }

  /** A poke that runs alone wakes the lowest idle worker if anything is pending. */
  lemma SoloPoke(workers: nat, s: State, t: Tid) returns (n: nat)
    requires Reachable(workers, s) && At(s, t).Home?
    ensures var x := Start(workers, s.sh, t, CallPoke);
      Solo(workers, x.sh, t, x.pc, n) == Next(if s.sh.pending > 0 then Woken(s.sh) else s.sh, Home)
  {
    ReachableIsGood(workers, s);
    if s.sh.pending > 0 {
      n := SecondClaimEnds(workers, s.sh, t, 0);
    } else {
      n := 0;
    }
  }

  /** Where a push that runs alone leaves its item, and whom it wakes: the injector if somebody
      searches; else with the lowest idle worker, in its slot if that is free, and the worker is told;
      else, or if the slot is taken, in the thread's own queue or the injector. */
  ghost function PushedAlone(workers: nat, sh: Shared, t: Tid): Shared {
    var own := if t < workers then InLocal(t) else InInjector;
    var spot :=
      if sh.searching > 0 then InInjector
      else if sh.idle == {} || Occupied(sh, InSlot(Lowest(sh.idle))) then own
      else InSlot(Lowest(sh.idle));
    var told := if sh.searching > 0 then sh else Woken(sh);
    Put(told, sh.next, spot).(pending := sh.pending + 1, next := sh.next + 1)
  }

  lemma SoloShare(workers: nat, sh: Shared, t: Tid, i: Item)
    requires sh.searching > 0
    ensures Solo(workers, sh, t, Push(i, Look), 3) == Next(Put(sh, i, InInjector), Home)
  {
    var sh1 := Put(sh, i, InInjector);
    assert Solo(workers, sh1, t, Home, 0) == Next(sh1, Home);
    assert Solo(workers, sh1, t, Recheck, 1) == Next(sh1, Home);
    assert Solo(workers, sh, t, Push(i, Share), 2) == Next(sh1, Home);
  }

  lemma SoloPlace(workers: nat, sh: Shared, t: Tid, i: Item) returns (n: nat)
    requires sh.searching == 0 && sh.idle == {}
    ensures var own := if t < workers then InLocal(t) else InInjector;
      Solo(workers, sh, t, Push(i, Place), n) == Next(Put(sh, i, own), Home)
  {
    var sh1 := Put(sh, i, if t < workers then InLocal(t) else InInjector);
    assert Solo(workers, sh1, t, Home, 0) == Next(sh1, Home);
    if t < workers {
      n := 1;
    } else {
      n := SecondClaimEnds(workers, sh1, t, 0);
      assert Solo(workers, sh1, t, Recheck, n + 1) == Next(sh1, Home);
      n := n + 2;
    }
  }

  lemma SoloOffer(workers: nat, sh: Shared, t: Tid, i: Item, w: Tid) returns (n: nat)
    ensures var own := if t < workers then InLocal(t) else InInjector;
      var x := if Occupied(sh, InSlot(w)) then own else InSlot(w);
      Solo(workers, sh, t, Push(i, Offer(w)), n) == Next(Put(sh, i, x).(tokens := sh.tokens + {w}), Home)
  {
    var own := if t < workers then InLocal(t) else InInjector;
    var sh1 := Put(sh, i, if Occupied(sh, InSlot(w)) then own else InSlot(w));
    var sh2 := sh1.(tokens := sh.tokens + {w});
    assert Solo(workers, sh2, t, Home, 0) == Next(sh2, Home);
    assert Solo(workers, sh1, t, Wake(w), 1) == Next(sh2, Home);
    if Occupied(sh, InSlot(w)) {
      assert Solo(workers, sh, t, Push(i, PlaceFor(w)), 2) == Next(sh2, Home);
      n := 3;
    } else {
      n := 2;
    }
  }

  lemma SoloSeek(workers: nat, sh: Shared, t: Tid, i: Item) returns (n: nat)
    requires sh.searching == 0 && forall w :: w in sh.idle ==> w < workers
    ensures var own := if t < workers then InLocal(t) else InInjector;
      Solo(workers, sh, t, Push(i, Look), n) ==
      if sh.idle == {} then Next(Put(sh, i, own), Home)
      else Next(Put(Woken(sh), i, if Occupied(sh, InSlot(Lowest(sh.idle))) then own else InSlot(Lowest(sh.idle))), Home)
  {
    var m := FirstClaimEnds(workers, sh, t, i, 0);
    var x := Claimed1(sh, i);
    var k: nat;
    if sh.idle == {} {
      k := SoloPlace(workers, sh, t, i);
    } else {
      k := SoloOffer(workers, x.sh, t, i, Lowest(sh.idle));
    }
    SoloAdds(workers, sh, t, Hand(i, Load(0)), m, k);
    n := 1 + m + k;
  }

  lemma SoloPush(workers: nat, s: State, t: Tid) returns (n: nat)
    requires Reachable(workers, s) && At(s, t).Home?
    ensures var x := Start(workers, s.sh, t, CallPush);
      Solo(workers, x.sh, t, x.pc, n) == Next(PushedAlone(workers, s.sh, t), Home)
  {
    ReachableIsGood(workers, s);
    var i, x := s.sh.next, Start(workers, s.sh, t, CallPush);
    assert i !in s.sh.spot;
    forall w: Tid ensures Occupied(x.sh, InSlot(w)) <==> Occupied(s.sh, InSlot(w)) {
      SameSlot(s.sh, x.sh, i, t, w);
    }
    if s.sh.searching > 0 {
      SoloShare(workers, x.sh, t, i);
      n := 3;
      assert Put(x.sh, i, InInjector).spot == PushedAlone(workers, s.sh, t).spot;
    } else {
      n := SoloSeek(workers, x.sh, t, i);
      assert Solo(workers, x.sh, t, x.pc, n).sh.spot == PushedAlone(workers, s.sh, t).spot;
    }
  }

  lemma SameSlot(sh: Shared, sh': Shared, i: Item, t: Tid, w: Tid)
    requires i !in sh.spot && sh'.spot == sh.spot[i := InHand(t)]
    ensures Occupied(sh', InSlot(w)) <==> Occupied(sh, InSlot(w))
  {
    if Occupied(sh, InSlot(w)) {
      var j :| j in sh.spot && sh.spot[j] == InSlot(w);
      assert sh'.spot[j] == InSlot(w);
    }
  }

  /** A thread takes one step after another, as the events say, and nobody else any. */
  ghost function Plays(workers: nat, sh: Shared, t: Tid, pc: Pc, events: seq<Event>): Next
    decreases |events|
  {
    if events == [] then Next(sh, pc)
    else
      var x := Advance(workers, sh, t, pc, events[0]);
      Plays(workers, x.sh, t, x.pc, events[1..])
  }

  lemma PlaysOne(workers: nat, sh: Shared, t: Tid, pc: Pc, e: Event, more: seq<Event>)
    ensures var x := Advance(workers, sh, t, pc, e);
      Plays(workers, sh, t, pc, [e] + more) == Plays(workers, x.sh, t, x.pc, more)
  {
    assert ([e] + more)[1..] == more;
  }

  /** The item a worker comes to first: in its slot, else in its own queue, else in the injector, else in
      somebody's queue. */
  ghost predicate ComesFirst(sh: Shared, t: Tid, i: Item) {
    && i in sh.spot && Waiting(sh.spot[i])
    && (Occupied(sh, InSlot(t)) ==> sh.spot[i] == InSlot(t))
    && (!Occupied(sh, InSlot(t)) && Occupied(sh, InLocal(t)) ==> sh.spot[i] == InLocal(t))
    && (!Occupied(sh, InSlot(t)) && !Occupied(sh, InLocal(t)) && Occupied(sh, InInjector) ==> sh.spot[i] == InInjector)
    && (sh.spot[i].InSlot? ==> sh.spot[i] == InSlot(t))
  }

  /** What a scan that found item `i` goes on to. */
  function Caught(k: Kind): Pc {
    match k case Plain => Home case Spin => Found case Final => Clearing
  }

  function Without(sh: Shared, i: Item): Shared {
    sh.(spot := sh.spot - {i}, pending := sh.pending - 1)
  }

  lemma TakesAt(workers: nat, sh: Shared, t: Tid, k: Kind, x: Scanning, i: Item)
    requires i in sh.spot && (x.Slot? || x.Local? || x.Injector? || x.Steal?)
    requires match x
      case Slot => sh.spot[i] == InSlot(t)
      case Local => sh.spot[i] == InLocal(t)
      case Injector => sh.spot[i] == InInjector
      case _ => sh.spot[i].InLocal?
    ensures Plays(workers, sh, t, Scan(k, x), [Yield(i), Ordinary]) == Next(Without(sh, i), Caught(k))
  {
    assert Occupied(sh, sh.spot[i]);
    var sh1 := Put(sh, i, InHand(t));
    assert sh1.spot - {i} == sh.spot - {i};
    assert Plays(workers, Without(sh, i), t, Caught(k), []) == Next(Without(sh, i), Caught(k));
    PlaysOne(workers, sh1, t, Scan(k, Discount(i)), Ordinary, []);
    PlaysOne(workers, sh, t, Scan(k, x), Yield(i), [Ordinary]);
    assert [Yield(i)] + [Ordinary] == [Yield(i), Ordinary] && [Ordinary] + [] == [Ordinary];
  }

  /** Past the places that are empty. */
  lemma PassesOn(workers: nat, sh: Shared, t: Tid, k: Kind, more: seq<Event>)
    requires t < workers
    ensures !Occupied(sh, InSlot(t)) && sh.pending > 0 ==>
      Plays(workers, sh, t, Scan(k, Slot), [Ordinary] + ([Ordinary] + more)) ==
      Plays(workers, sh, t, Scan(k, Local), more)
    ensures !Occupied(sh, InLocal(t)) ==>
      Plays(workers, sh, t, Scan(k, Local), [Ordinary] + more) == Plays(workers, sh, t, Scan(k, Injector), more)
    ensures !Occupied(sh, InInjector) ==>
      Plays(workers, sh, t, Scan(k, Injector), [Ordinary] + more) == Plays(workers, sh, t, Scan(k, Steal), more)
  {
    PlaysOne(workers, sh, t, Scan(k, Slot), Ordinary, [Ordinary] + more);
    PlaysOne(workers, sh, t, Scan(k, Pending), Ordinary, more);
    PlaysOne(workers, sh, t, Scan(k, Local), Ordinary, more);
    PlaysOne(workers, sh, t, Scan(k, Injector), Ordinary, more);
  }

  lemma ScanEnds(workers: nat, sh: Shared, t: Tid, k: Kind, i: Item) returns (events: seq<Event>)
    requires t < workers && ComesFirst(sh, t, i) && sh.pending > 0
    ensures Plays(workers, sh, t, Scan(k, Slot), events) == Next(Without(sh, i), Caught(k))
  {
    var take := [Yield(i), Ordinary];
    assert Occupied(sh, sh.spot[i]);
    if sh.spot[i] == InSlot(t) {
      TakesAt(workers, sh, t, k, Slot, i);
      events := take;
    } else if sh.spot[i] == InLocal(t) {
      TakesAt(workers, sh, t, k, Local, i);
      PassesOn(workers, sh, t, k, take);
      events := [Ordinary] + ([Ordinary] + take);
    } else if sh.spot[i] == InInjector {
      TakesAt(workers, sh, t, k, Injector, i);
      PassesOn(workers, sh, t, k, take);
      PassesOn(workers, sh, t, k, [Ordinary] + take);
      events := [Ordinary] + ([Ordinary] + ([Ordinary] + take));
    } else {
      TakesAt(workers, sh, t, k, Steal, i);
      PassesOn(workers, sh, t, k, take);
      PassesOn(workers, sh, t, k, [Ordinary] + take);
      PassesOn(workers, sh, t, k, [Ordinary] + ([Ordinary] + take));
      events := [Ordinary] + ([Ordinary] + ([Ordinary] + ([Ordinary] + take)));
    }
  }

  /** A worker that scans alone takes what it comes to first, whatever it scans for. */
  lemma SoloScan(workers: nat, s: State, t: Tid, k: Kind, i: Item) returns (events: seq<Event>)
    requires Reachable(workers, s) && t < workers && ComesFirst(s.sh, t, i)
    ensures Plays(workers, s.sh, t, Scan(k, Slot), events) == Next(Without(s.sh, i), Caught(k))
  {
    ReachableIsGood(workers, s);
    assert s.sh.pending > 0 by { assert i in s.sh.spot.Keys; }
    events := ScanEnds(workers, s.sh, t, k, i);
  }

  /** A worker alone with nothing queued, when it gives up searching, goes to sleep with its idle bit
      set. */
  lemma SoloPark(workers: nat, s: State, t: Tid)
    requires Reachable(workers, s) && t < workers && At(s, t).Home? && s.sh.spot == map[]
    ensures var x := Start(workers, s.sh, t, CallFind);
      var y := Advance(workers, x.sh, t, x.pc, Other);
      Solo(workers, y.sh, t, y.pc, 4) == Next(s.sh.(idle := s.sh.idle + {t}), Parking)
  {
    ReachableIsGood(workers, s);
    var sh0 := s.sh.(searching := s.sh.searching + 1);
    var sh1 := sh0.(idle := s.sh.idle + {t});
    var sh2 := s.sh.(idle := s.sh.idle + {t});
    assert !Occupied(sh2, InSlot(t)) && sh2.pending == 0;
    assert Solo(workers, sh2, t, Parking, 0) == Next(sh2, Parking);
    assert Solo(workers, sh2, t, Scan(Final, Pending), 1) == Next(sh2, Parking);
    assert Solo(workers, sh2, t, Scan(Final, Slot), 2) == Next(sh2, Parking);
    assert Solo(workers, sh1, t, Leaving, 3) == Next(sh2, Parking);
  }

  /** And once told it gets up, and its bit and its token are gone. */
  lemma SoloWake(workers: nat, sh: Shared, t: Tid)
    requires t in sh.tokens
    ensures Plays(workers, sh, t, Parking, [Ordinary, Ordinary]) ==
      Next(sh.(tokens := sh.tokens - {t}, idle := sh.idle - {t}), Home)
  {
    var sh1 := sh.(tokens := sh.tokens - {t});
    var sh2 := sh1.(idle := sh.idle - {t});
    assert Plays(workers, sh2, t, Home, []) == Next(sh2, Home);
    PlaysOne(workers, sh1, t, Clearing, Ordinary, []);
    PlaysOne(workers, sh, t, Parking, Ordinary, [Ordinary]);
    assert [Ordinary] + [] == [Ordinary] && [Ordinary] + [Ordinary] == [Ordinary, Ordinary];
  }

  /** A pop of a worker alone takes what it comes to first; one of any other thread takes from the
      injector, and comes back with nothing exactly if that is empty. */
  lemma SoloPop(workers: nat, s: State, t: Tid, i: Item) returns (events: seq<Event>)
    requires Reachable(workers, s) && At(s, t).Home?
    requires if t < workers then ComesFirst(s.sh, t, i) else i in s.sh.spot && s.sh.spot[i] == InInjector
    ensures var x := Start(workers, s.sh, t, CallPop);
      Plays(workers, x.sh, t, x.pc, events) == Next(Without(s.sh, i), Home)
  {
    if t < workers {
      events := SoloScan(workers, s, t, Plain, i);
    } else {
      TakesAt(workers, s.sh, t, Plain, Injector, i);
      events := [Yield(i), Ordinary];
    }
  }

  lemma OutsidersMissOnlyTheInjector(workers: nat, sh: Shared, t: Tid, e: Event)
    requires t >= workers && !Occupied(sh, InInjector)
    ensures var x := Start(workers, sh, t, CallPop); Advance(workers, x.sh, t, x.pc, e) == Next(sh, Home)
  {
  }

  /** A worker alone that searches takes what it comes to first, and is no longer counted as searching. */
  lemma SoloFind(workers: nat, s: State, t: Tid, i: Item) returns (events: seq<Event>)
    requires Reachable(workers, s) && At(s, t).Home? && t < workers && ComesFirst(s.sh, t, i)
    ensures var x := Start(workers, s.sh, t, CallFind);
      Plays(workers, x.sh, t, x.pc, events) == Next(Without(s.sh, i), Home)
  {
    ReachableIsGood(workers, s);
    var sh := s.sh.(searching := s.sh.searching + 1);
    assert forall x: Spot :: Occupied(sh, x) <==> Occupied(s.sh, x);
    assert sh.pending > 0 by { assert i in sh.spot.Keys; }
    var found := ScanEnds(workers, sh, t, Spin, i);
    var left := Without(sh, i);
    assert Plays(workers, Without(s.sh, i), t, Home, []) == Next(Without(s.sh, i), Home);
    PlaysOne(workers, left, t, Found, Ordinary, []);
    PlaysOn(workers, sh, t, Scan(Spin, Slot), found, [Ordinary] + []);
    PlaysOne(workers, sh, t, Searching, Ordinary, found + ([Ordinary] + []));
    events := [Ordinary] + (found + ([Ordinary] + []));
  }

  lemma {:induction false} PlaysOn(workers: nat, sh: Shared, t: Tid, pc: Pc, first: seq<Event>, more: seq<Event>)
    ensures var x := Plays(workers, sh, t, pc, first);
      Plays(workers, sh, t, pc, first + more) == Plays(workers, x.sh, t, x.pc, more)
    decreases |first|
  {
    if first == [] {
      assert first + more == more;
    } else {
      var x := Advance(workers, sh, t, pc, first[0]);
      PlaysOn(workers, x.sh, t, x.pc, first[1..], more);
      assert first + more == [first[0]] + (first[1..] + more);
      PlaysOne(workers, sh, t, pc, first[0], first[1..] + more);
    }
  }

  /** Every so often a scan looks at the injector before its own queue. */
  lemma TicksFavourTheInjector(workers: nat, sh: Shared, t: Tid, k: Kind, i: Item)
    requires sh.pending > 0 && i in sh.spot && sh.spot[i] == InInjector
    ensures Plays(workers, sh, t, Scan(k, Pending), [Other] + [Yield(i), Ordinary]) == Next(Without(sh, i), Caught(k))
  {
    assert Occupied(sh, InInjector);
    var sh1 := Put(sh, i, InHand(t));
    assert sh1.spot - {i} == sh.spot - {i};
    assert Plays(workers, Without(sh, i), t, Caught(k), []) == Next(Without(sh, i), Caught(k));
    PlaysOne(workers, sh1, t, Scan(k, Discount(i)), Ordinary, []);
    PlaysOne(workers, sh, t, Scan(k, Tick), Yield(i), [Ordinary]);
    PlaysOne(workers, sh, t, Scan(k, Pending), Other, [Yield(i), Ordinary]);
    assert [Yield(i)] + [Ordinary] == [Yield(i), Ordinary] && [Ordinary] + [] == [Ordinary];
  }

  /** A worker whose own queue is full puts its item into the injector. */
  lemma FullQueuesSpillOver(workers: nat, sh: Shared, t: Tid, i: Item, w: Tid)
    ensures Advance(workers, sh, t, Push(i, Place), Other).sh == Put(sh, i, InInjector)
    ensures Advance(workers, sh, t, Push(i, PlaceFor(w)), Other) == Next(Put(sh, i, InInjector), Wake(w))
  {
  }

  /** A parked worker that nobody has told stays so, unless park returns for no reason. */
  lemma ParkedUntilTold(workers: nat, sh: Shared, t: Tid, e: Event)
    requires t !in sh.tokens
    ensures Advance(workers, sh, t, Parking, e) == Next(sh, if e.Other? then Clearing else Parking)
  {
  }
}
