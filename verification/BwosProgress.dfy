/** What the calls of the block queue come to: in every schedule each step of a call takes it on, and a
    call that runs alone does to the queue what a deque would.
 */
module BwosProgress {
  import opened Basics
  import opened BwosLayout
  import opened BwosSteps
  import opened BwosSafety
  import opened BwosConservation
  import opened BwosOrder
  import opened BwosTheorems

  // ------------------------------------------------------------ push_back

  /** The owner's block is full, the window spans every block, and the oldest still holds a value. */
  predicate NoRoom(c: Config, s: State)
    requires Shape(c, s)
  {
    && s.blocks[Idx(c, s.last)].tail == c.size
    && s.last + 1 == s.start + c.blocks
    && Live(s, Idx(c, s.start), s.blocks[Idx(c, s.start)].lo)
  }

  lemma OnlyTestedIsRefused(c: Config, s: State, v: Value)
    requires Shape(c, s) && v in PushAct(c, s).place && PushAct(c, s).place[v].Refused?
    ensures (v in s.place && s.place[v].Refused?) || (s.owner == Testing(v) && PushAct(c, s).owner.Free?)
  {
  }

  lemma OwnerRefuses(c: Config, s: State, v: Value)
    requires Shape(c, s) && v in OwnerAct(c, s).place && OwnerAct(c, s).place[v].Refused?
    ensures (v in s.place && s.place[v].Refused?) || (s.owner == Testing(v) && OwnerAct(c, s).owner.Free?)
  {
    if OwnerAct(c, s) == PushAct(c, s) {
      OnlyTestedIsRefused(c, s, v);
    }
  }

  lemma ThievesRefuseNothing(c: Config, s: State, t: ThiefId, v: Value)
    requires Shape(c, s) && v in ThiefAct(c, s, t).place && ThiefAct(c, s, t).place[v].Refused?
    ensures v in s.place && s.place[v].Refused?
  {
  }

  /** Nothing becomes refused, at any step of anybody, unless there is no room at that moment. */
  lemma RefusedOnlyWhenFull(c: Config, s: State, e: Event, v: Value)
    requires Reachable(c, s)
    requires v in Act(c, s, e).place && Act(c, s, e).place[v].Refused? && !(v in s.place && s.place[v].Refused?)
    ensures e.OwnerStep? && Carried(s.owner) == Some(v) && NoRoom(c, s)
  {
    match e
    case ThiefStep(t) => ThievesRefuseNothing(c, s, t, v);
    case OwnerStep =>
      OwnerRefuses(c, s, v);
      ReachableIsGood(c, s);
      RefusalIsFull(c, s);
    case _ =>
  }

  /** How many steps of its own a push is from its end; a wait for thieves apart. */
  function PushRank(c: Config, s: State): nat
    requires Shape(c, s)
  {
    match s.owner
    case Putting(_, _) => if s.blocks[Idx(c, Cur(s))].tail < c.size then 2 else 14
    case Publishing(_, _) => 1
    case Testing(_) => 13
    case Opening(_) => 12
    case GrantLoading(_) => 11
    case GrantSwapping(_, _) => 10
    case GrantStoring(_, _) => 9
    case Spinning(_) => 8
    case ResetHead(_) => 7
    case ResetTail(_) => 6
    case ResetSteal(_) => 5
    case ResetCount(_) => 4
    case Landing(_) => 3
    case _ => 0
  }

  /** The generations are used up. */
  predicate Exhausted(c: Config, s: State)
    requires Shape(c, s)
  {
    s.owner.Putting? && s.blocks[Idx(c, Cur(s))].tail == c.size && Gen(c, Cur(s) + 1) > MAX_GENERATION
  }

  ghost predicate Waits(c: Config, s: State)
    requires Shape(c, s)
  {
    s.owner.Spinning? && Claimers(c, s, Idx(c, Cur(s))) != {}
  }

  /** There is room for the value the owner carries, or it has been made. */
  predicate Roomy(c: Config, s: State)
    requires Shape(c, s)
  {
    match s.owner
    case Putting(_, _) => !Exhausted(c, s) && (s.blocks[Idx(c, Cur(s))].tail == c.size ==> !NoRoom(c, s))
    case Testing(_) => !NoRoom(c, s)
    case _ => true
  }

  /** What the owner leaves alone in a whole call. */
  predicate SameBooks(s: State, s': State) {
    s'.thieves == s.thieves && s'.popped == s.popped && s'.stolen == s.stolen
  }

  /** What one step of a push comes to. */
  ghost predicate PushStep(c: Config, s: State, s': State, v: Value)
    requires Shape(c, s) && Shape(c, s')
  {
    if Exhausted(c, s) then s'.owner.Crashed?
    else if s.owner.Publishing? then
      s' == SetBlock(s, Idx(c, s.last), s'.blocks[Idx(c, s.last)]).(
              owner := Free, place := s.place[v := InSlot(Idx(c, s.last), s.blocks[Idx(c, s.last)].tail)])
    else if s.owner.Testing? && NoRoom(c, s) then s' == s.(owner := Free, place := s.place[v := Refused])
    else if Waits(c, s) then s' == s
    else
      && Carried(s'.owner) == Some(v) && PushRank(c, s') < PushRank(c, s) && (Roomy(c, s) ==> Roomy(c, s'))
      && s'.place == s.place && SameBooks(s, s')
  }

  lemma PutGoesOn(c: Config, s: State, v: Value)
    requires RingInv(c, s) && Carried(s.owner) == Some(v) && (s.owner.Putting? || s.owner.Publishing?)
    ensures PushStep(c, s, OwnerAct(c, s), v)
  {
  }

  lemma TestGoesOn(c: Config, s: State, v: Value)
    requires RingInv(c, s) && s.owner == Testing(v)
    ensures PushStep(c, s, OwnerAct(c, s), v)
  {
    RefusalIsFull(c, s);
  }

  lemma GrantGoesOn(c: Config, s: State, v: Value)
    requires RingInv(c, s) && Carried(s.owner) == Some(v)
    requires s.owner.Opening? || s.owner.GrantLoading? || s.owner.GrantSwapping? || s.owner.GrantStoring?
    ensures PushStep(c, s, OwnerAct(c, s), v)
  {
    GenMono(c, s.start + 1, Cur(s) + 1);
  }

  lemma ReclaimGoesOn(c: Config, s: State, v: Value)
    requires RingInv(c, s) && CountInv(c, s) && Carried(s.owner) == Some(v) && Reclaims(s.owner)
    ensures PushStep(c, s, OwnerAct(c, s), v)
  {
    if s.owner.Spinning? {
      SpinEndsWithTheThieves(c, s);
    }
  }

  lemma PushGoesOn(c: Config, s: State, v: Value)
    requires RingInv(c, s) && CountInv(c, s) && Carried(s.owner) == Some(v)
    ensures PushStep(c, s, OwnerAct(c, s), v)
  {
    match s.owner
    case Putting(_, _) | Publishing(_, _) => PutGoesOn(c, s, v);
    case Testing(_) => TestGoesOn(c, s, v);
    case Opening(_) | GrantLoading(_) | GrantSwapping(_, _) | GrantStoring(_, _) => GrantGoesOn(c, s, v);
    case _ => ReclaimGoesOn(c, s, v);
  }

  /** In every schedule a step of push_back takes it on: it is one step nearer to its end, waits for a
      thief, or ends; and it ends with the value in the next slot, or refused because there is no
      room, or when the generations are used up. */
  lemma PushMakesProgress(c: Config, s: State, v: Value)
    requires Reachable(c, s) && Carried(s.owner) == Some(v)
    ensures PushStep(c, s, OwnerAct(c, s), v)
  {
    ReachableIsGood(c, s);
    PushGoesOn(c, s, v);
  }

  /** The owner takes `n` steps, and nobody else any. */
  function OwnerRuns(c: Config, s: State, n: nat): (s': State)
    requires Shape(c, s)
    ensures Shape(c, s')
    decreases n
  {
    if n == 0 then s else OwnerRuns(c, OwnerAct(c, s), n - 1)
  }

  /** No thief is between its claim and its count. */
  ghost predicate NoClaims(s: State) {
    forall t :: t in s.thieves ==> !s.thieves[t].Reading? && !s.thieves[t].Counting?
  }

  lemma NoClaimsNoWait(c: Config, s: State)
    requires Shape(c, s) && NoClaims(s)
    ensures !Waits(c, s)
  {
    assert Claimers(c, s, Idx(c, Cur(s))) == {};
  }

  lemma {:induction false} SoloPushEnds(c: Config, s: State, v: Value) returns (n: nat)
    requires RingInv(c, s) && CountInv(c, s) && Carried(s.owner) == Some(v) && NoClaims(s) && Roomy(c, s)
    ensures var s' := OwnerRuns(c, s, n);
      && s'.owner.Free? && SameBooks(s, s')
      && v in s'.place && s'.place[v].InSlot? && s'.place == s.place[v := s'.place[v]]
    decreases PushRank(c, s)
  {
    PushGoesOn(c, s, v);
    NoClaimsNoWait(c, s);
    var s1 := OwnerAct(c, s);
    if s.owner.Publishing? {
      n := 1;
      assert OwnerRuns(c, s1, 0) == s1;
    } else {
      OwnerKeepsRing(c, s);
      OwnerKeepsCount(c, s);
      n := SoloPushEnds(c, s1, v);
      n := n + 1;
    }
  }

  lemma SoloPushFails(c: Config, s: State, v: Value) returns (n: nat)
    requires RingInv(c, s) && CountInv(c, s) && s.owner == Putting(v, false) && NoRoom(c, s) && !Exhausted(c, s)
    ensures var s' := OwnerRuns(c, s, n);
      s'.owner.Free? && SameBooks(s, s') && v in s'.place && s'.place[v].Refused? && s'.place == s.place[v := Refused]
  {
    PutGoesOn(c, s, v);
    OwnerKeepsRing(c, s);
    OwnerKeepsCount(c, s);
    var s1 := OwnerAct(c, s);
    assert s1 == s.(owner := Testing(v));
    TestGoesOn(c, s1, v);
    var s2 := OwnerAct(c, s1);
    assert OwnerRuns(c, s2, 0) == s2 && OwnerRuns(c, s1, 1) == s2;
    n := 2;
  }

  lemma EnterPush(c: Config, s: State)
    requires Reachable(c, s) && s.owner.Free?
    ensures var s0 := Act(c, s, CallPush); RingInv(c, s0) && CountInv(c, s0)
  {
    ReachableIsGood(c, s);
    CallPushKeeps(c, s);
  }

  lemma SoloPushFrom(c: Config, s: State, v: Value) returns (n: nat)
    requires RingInv(c, s) && CountInv(c, s) && s.owner == Putting(v, false) && NoClaims(s) && !Exhausted(c, s)
    ensures var s' := OwnerRuns(c, s, n);
      && s'.owner.Free? && SameBooks(s, s')
      && v in s'.place && s'.place == s.place[v := s'.place[v]]
      && (if NoRoom(c, s) then s'.place[v].Refused? else s'.place[v].InSlot?)
  {
    if NoRoom(c, s) {
      n := SoloPushFails(c, s, v);
    } else {
      n := SoloPushEnds(c, s, v);
    }
  }

  /** A push with nobody in the way, from any state between calls: its value ends in a slot exactly if
      there is room, and is refused exactly if there is none; nothing else moves. */
  lemma SoloPush(c: Config, s: State) returns (n: nat)
    requires Reachable(c, s) && s.owner.Free? && NoClaims(s)
    requires s.blocks[Idx(c, s.last)].tail == c.size ==> Gen(c, s.last + 1) <= MAX_GENERATION
    ensures var v, s' := |s.place|, OwnerRuns(c, Act(c, s, CallPush), n);
      && s'.owner.Free? && SameBooks(s, s')
      && v in s'.place && s'.place == s.place[v := s'.place[v]]
      && (if NoRoom(c, s) then s'.place[v].Refused? else s'.place[v].InSlot?)
  {
    EnterPush(c, s);
    n := SoloPushFrom(c, Act(c, s, CallPush), |s.place|);
  }

  // ------------------------------------------------------------ pop_back

  predicate InPop(o: Owner) {
    o.Popping? || o.ReduceLoading? || o.ReduceStoring? || o.TakeSwapping? || o.TakeStoring? || o.Backing?
  }

  /** How many steps of its own a pop that has found nothing yet is from its end at most. */
  function PopRank(s: State): int {
    var at := match s.owner
      case TakeSwapping => 9
      case TakeStoring(_) => 8
      case Backing => 7
      case Popping => 6
      case ReduceLoading => 5
      case _ => 4;
    (Cur(s) - s.start) * 10 + at
  }

  /** What one step of a pop comes to: it takes the top of the owner's block if there is one, gives up if
      that is the oldest block, and else goes one block back. */
  predicate PopStep(c: Config, s: State, s': State)
    requires Shape(c, s) && Shape(c, s')
  {
    var b := s.blocks[Idx(c, Cur(s))];
    if s.owner.Popping? && b.lo < b.tail then s' == s.(owner := Shrinking(b.ring[b.tail - 1]))
    else if s.owner.Popping? && s.start == s.last then s' == s.(owner := Free)
    else InPop(s'.owner) && PopRank(s') < PopRank(s) && s'.place == s.place && SameBooks(s, s')
  }

  lemma PopGoesOn(c: Config, s: State)
    requires RingInv(c, s) && InPop(s.owner)
    ensures PopStep(c, s, OwnerAct(c, s)) && PopRank(s) > 0
  {
  }

  /** In every schedule a step of pop_back takes it on. */
  lemma PopMakesProgress(c: Config, s: State)
    requires Reachable(c, s) && InPop(s.owner)
    ensures PopStep(c, s, OwnerAct(c, s)) && PopRank(s) > 0
  {
    ReachableIsGood(c, s);
    PopGoesOn(c, s);
  }

  /** The newest of the values in the slots. */
  ghost predicate Newest(s: State, v: Value) {
    && v in s.place && s.place[v].InSlot?
    && forall w :: w in s.place && s.place[w].InSlot? && w != v ==> w < v
  }

  ghost predicate NoneQueued(s: State) {
    forall v :: v in s.place ==> !s.place[v].InSlot?
  }

  /** Everything is as it was, but that the newest value, if there is one, has been popped. */
  ghost predicate TookNewest(s: State, s': State) {
    && s'.owner.Free? && s'.thieves == s.thieves && s'.stolen == s.stolen
    && (NoneQueued(s) ==> s'.place == s.place && s'.popped == s.popped)
    && (!NoneQueued(s) ==>
          |s'.popped| == |s.popped| + 1 && Newest(s, s'.popped[|s.popped|])
          && s'.popped == s.popped + [s'.popped[|s.popped|]] && s'.place == s.place[s'.popped[|s.popped|] := Popped])
  }

  /** The last two steps of a pop that finds something. */
  lemma PopTakes(c: Config, s: State)
    requires Good(c, s) && s.owner.Popping?
    requires var b := s.blocks[Idx(c, Cur(s))]; b.lo < b.tail
    ensures TookNewest(s, OwnerRuns(c, s, 2))
  {
    PopGoesOn(c, s);
    var b := s.blocks[Idx(c, Cur(s))];
    var v, s1 := b.ring[b.tail - 1], OwnerAct(c, s);
    TopIsTheNewest(c, s, Cur(s), b.tail - 1, v);
    var s2 := OwnerAct(c, s1);
    assert OwnerRuns(c, s1, 1) == OwnerRuns(c, s2, 0) == s2;
    assert s2.popped == s.popped + [v] && s2.place == s.place[v := Popped];
  }

  lemma PopGivesUp(c: Config, s: State)
    requires Good(c, s) && s.owner.Popping? && s.start == s.last
    requires var b := s.blocks[Idx(c, Cur(s))]; b.lo == b.tail
    ensures TookNewest(s, OwnerRuns(c, s, 1))
  {
    PopGoesOn(c, s);
    assert OwnerRuns(c, OwnerAct(c, s), 0) == OwnerAct(c, s);
    forall v | v in s.place ensures !s.place[v].InSlot? {
      if s.place[v].InSlot? {
        NothingLive(c, s, s.place[v].block, s.place[v].slot);
      }
    }
  }

  lemma {:induction false} SoloPopEnds(c: Config, s: State) returns (n: nat)
    requires Good(c, s) && InPop(s.owner)
    ensures TookNewest(s, OwnerRuns(c, s, n))
    decreases PopRank(s)
  {
    PopGoesOn(c, s);
    var b := s.blocks[Idx(c, Cur(s))];
    if s.owner.Popping? && b.lo < b.tail {
      PopTakes(c, s);
      n := 2;
    } else if s.owner.Popping? && s.start == s.last {
      PopGivesUp(c, s);
      n := 1;
    } else {
      OwnerStepKeeps(c, s);
      n := SoloPopEnds(c, OwnerAct(c, s));
      n := n + 1;
    }
  }

  /** A pop with nobody in the way, from any state between calls, takes the newest value in the queue,
      and nothing exactly if there is none. */
  lemma SoloPop(c: Config, s: State) returns (n: nat)
    requires Reachable(c, s) && s.owner.Free?
    ensures TookNewest(s, OwnerRuns(c, Act(c, s, CallPop), n))
  {
    ReachableIsGood(c, s);
    CallPopKeeps(c, s);
    n := SoloPopEnds(c, Act(c, s, CallPop));
  }

  // ------------------------------------------------------------ steal_front

  /** The thief takes `n` steps, and nobody else any. */
  function ThiefRuns(c: Config, s: State, t: ThiefId, n: nat): (s': State)
    requires Shape(c, s)
    ensures Shape(c, s')
    decreases n
  {
    if n == 0 then s else ThiefRuns(c, ThiefAct(c, s, t), t, n - 1)
  }

  ghost predicate Oldest(s: State, v: Value) {
    && v in s.place && s.place[v].InSlot?
    && forall w :: w in s.place && s.place[w].InSlot? && w != v ==> v < w
  }

  /** Nothing lies outside the owner's block. */
  ghost predicate NoneExposed(c: Config, s: State)
    requires c.blocks > 0
  {
    forall v :: v in s.place && s.place[v].InSlot? ==> s.place[v].block == Idx(c, s.last)
  }

  /** Everything is as it was, but that the oldest value has been stolen if anything lies outside the
      owner's block. */
  ghost predicate TookOldest(c: Config, s: State, s': State, t: ThiefId)
    requires c.blocks > 0
  {
    && s'.owner == s.owner && s'.popped == s.popped && ThiefAt(s', t).Resting?
    && (forall u :: u != t ==> ThiefAt(s', u) == ThiefAt(s, u))
    && (NoneExposed(c, s) ==> s'.place == s.place && s'.stolen == s.stolen)
    && (!NoneExposed(c, s) ==>
          |s'.stolen| == |s.stolen| + 1 && Oldest(s, s'.stolen[|s.stolen|])
          && s'.stolen == s.stolen + [s'.stolen[|s.stolen|]] && s'.place == s.place[s'.stolen[|s.stolen|] := Stolen])
  }

  /** The blocks before `q` are emptied. */
  ghost predicate DrainedTo(c: Config, s: State, q: nat)
    requires Shape(c, s)
  {
    forall x: nat :: s.start <= x < q ==> s.blocks[Idx(c, x)].lo == c.size
  }

  /** Where a value in a slot stands, if the owner is between calls. */
  lemma WhereItStands(c: Config, s: State, v: Value) returns (q: nat)
    requires Good(c, s) && s.owner.Free? && v in s.place && s.place[v].InSlot?
    ensures s.start <= q <= s.last && Idx(c, q) == s.place[v].block && Holds(c, s, q, s.place[v].slot, v)
  {
    var p := s.place[v];
    assert Found(c, s, p) == Some(v);
    q := Standing(c, s.start, p.block);
    assert q > s.last ==> OtherOk(c, s, q);
  }

  lemma NothingBehind(c: Config, s: State)
    requires Good(c, s) && s.owner.Free? && DrainedTo(c, s, s.last)
    ensures NoneExposed(c, s)
  {
    forall v | v in s.place && s.place[v].InSlot? ensures s.place[v].block == Idx(c, s.last) {
      var q := WhereItStands(c, s, v);
    }
  }

  lemma FirstIsOldest(c: Config, s: State, q: nat)
    requires Good(c, s) && s.owner.Free? && s.start <= q < s.last && DrainedTo(c, s, q)
    requires s.blocks[Idx(c, q)].lo < c.size
    ensures var b := s.blocks[Idx(c, q)]; Oldest(s, b.ring[b.lo]) && !NoneExposed(c, s)
    ensures s.place[s.blocks[Idx(c, q)].ring[s.blocks[Idx(c, q)].lo]] == InSlot(Idx(c, q), s.blocks[Idx(c, q)].lo)
  {
    var b := s.blocks[Idx(c, q)];
    var v := b.ring[b.lo];
    assert OtherOk(c, s, q);
    assert Holds(c, s, q, b.lo, v);
    HoldsIsPlaced(c, s, q, b.lo, v);
    DistinctWithinATurn(c, q, s.last);
    forall w | w in s.place && s.place[w].InSlot? && w != v ensures v < w {
      var x := WhereItStands(c, s, w);
      assert Earlier(q, b.lo, x, s.place[w].slot);
    }
  }

  /** The steps of a thief that finds the block it looks at open. */
  lemma StealTakes(c: Config, s: State, t: ThiefId, q: nat)
    requires Shape(c, s) && ThiefAt(s, t) == Loading(q) && Granted(c, s.blocks[Idx(c, q)], Gen(c, q))
    requires s.blocks[Idx(c, q)].lo < c.size
    ensures var s', v := ThiefRuns(c, s, t, 5), s.blocks[Idx(c, q)].ring[s.blocks[Idx(c, q)].lo];
      && s'.owner == s.owner && s'.popped == s.popped && ThiefAt(s', t).Resting?
      && (forall u :: u != t ==> ThiefAt(s', u) == ThiefAt(s, u))
      && s'.stolen == s.stolen + [v] && s'.place == s.place[v := Stolen]
  {
    var i, b := Idx(c, q), s.blocks[Idx(c, q)];
    var w, v := Word(Gen(c, q), b.lo), b.ring[b.lo];
    var s1 := ThiefAct(c, s, t);
    assert s1 == SetThief(s, t, Checking(q, w));
    var s2 := ThiefAct(c, s1, t);
    assert s2 == SetThief(s1, t, Swapping(q, w));
    var s3 := ThiefAct(c, s2, t);
    assert ThiefAt(s3, t) == Reading(q, b.lo) && s3.place == s.place[v := Taken(t)] && s3.blocks[i].ring == b.ring;
    var s4 := ThiefAct(c, s3, t);
    assert s4 == SetThief(s3, t, Counting(q, v));
    var s5 := ThiefAct(c, s4, t);
    assert s5.place == s.place[v := Taken(t)][v := Stolen] == s.place[v := Stolen];
    assert ThiefRuns(c, s4, t, 1) == ThiefRuns(c, s5, t, 0) == s5;
    assert ThiefRuns(c, s2, t, 3) == ThiefRuns(c, s3, t, 2) == s5;
    assert ThiefRuns(c, s, t, 5) == ThiefRuns(c, s1, t, 4) == s5;
  }

  /** The same but for where the thief is. */
  ghost predicate Alike(s: State, r: State, t: ThiefId) {
    r == s.(thieves := r.thieves) && forall u :: u != t ==> ThiefAt(r, u) == ThiefAt(s, u)
  }

  /** Two steps of a thief that finds the block it looks at emptied, or the owner in it. */
  lemma MovesOn(c: Config, s: State, r: State, t: ThiefId, q: nat)
    requires Shape(c, r) && Alike(s, r, t) && ThiefAt(r, t) == Loading(q)
    requires r.blocks[Idx(c, q)].stealTail == Word(Gen(c, q), c.size) && Gen(c, q + 1) <= MAX_GENERATION
    ensures var r2 := ThiefRuns(c, r, t, 2);
      Alike(s, r2, t) && ThiefAt(r2, t) == if q + 1 < r.last then Loading(q + 1) else Resting
  {
    var r1 := ThiefAct(c, r, t);
    assert r1 == SetThief(r, t, Moving(q));
    var r2 := ThiefAct(c, r1, t);
    assert ThiefRuns(c, r, t, 2) == ThiefRuns(c, r1, t, 1) == ThiefRuns(c, r2, t, 0) == r2;
  }

  lemma {:induction false} RunsAdd(c: Config, s: State, t: ThiefId, n: nat, m: nat)
    requires Shape(c, s)
    ensures ThiefRuns(c, s, t, n + m) == ThiefRuns(c, ThiefRuns(c, s, t, n), t, m)
    decreases n
  {
    if n > 0 {
      RunsAdd(c, ThiefAct(c, s, t), t, n - 1, m);
    }
  }

  /** The block a thief has found nothing in, with the owner between calls. */
  lemma EmptiedOrOwners(c: Config, s: State, q: nat)
    requires Good(c, s) && s.owner.Free? && s.start <= q <= s.last
    requires q == s.last || s.blocks[Idx(c, q)].lo >= c.size
    requires Gen(c, s.last) <= MAX_GENERATION
    ensures s.blocks[Idx(c, q)].stealTail == Word(Gen(c, q), c.size)
    ensures q < s.last ==> s.blocks[Idx(c, q)].lo == c.size && Gen(c, q + 1) <= MAX_GENERATION
  {
    if q < s.last {
      assert OtherOk(c, s, q);
      GenMono(c, q + 1, s.last);
    }
  }

  /** The thief has come to block `q` and found nothing; the owner is where it was in state `s`. */
  lemma {:induction false} SoloStealEnds(c: Config, s: State, r: State, t: ThiefId, q: nat) returns (n: nat)
    requires Good(c, s) && s.owner.Free? && DrainedTo(c, s, q)
    requires Shape(c, r) && Alike(s, r, t) && ThiefAt(r, t) == Loading(q)
    requires s.start <= q <= s.last && (q == s.last ==> s.start == s.last && Gen(c, q + 1) <= MAX_GENERATION)
    ensures TookOldest(c, s, ThiefRuns(c, r, t, n), t)
    decreases s.last - q
  {
    if q < s.last && s.blocks[Idx(c, q)].lo < c.size {
      GrantedBehind(c, s, q);
      FirstIsOldest(c, s, q);
      StealTakes(c, r, t, q);
      n := 5;
    } else {
      EmptiedOrOwners(c, s, q);
      MovesOn(c, s, r, t, q);
      var r2 := ThiefRuns(c, r, t, 2);
      if q + 1 < s.last {
        n := SoloStealEnds(c, s, r2, t, q + 1);
        RunsAdd(c, r, t, 2, n);
        n := n + 2;
      } else {
        NothingBehind(c, s);
        n := 2;
      }
    }
  }

  lemma GrantedBehind(c: Config, s: State, q: nat)
    requires RingInv(c, s) && s.owner.Free? && s.start <= q < s.last
    ensures Granted(c, s.blocks[Idx(c, q)], Gen(c, q))
  {
    assert OtherOk(c, s, q);
  }

  /** A steal with nobody in the way and the owner between calls takes the oldest value of all if any
      lies outside the owner's block, and nothing otherwise. */
  lemma SoloSteal(c: Config, s: State, t: ThiefId) returns (n: nat)
    requires Reachable(c, s) && s.owner.Free? && ThiefAt(s, t).Resting?
    requires s.start == s.last ==> Gen(c, s.last + 1) <= MAX_GENERATION
    ensures TookOldest(c, s, ThiefRuns(c, Act(c, s, CallSteal(t)), t, n), t)
  {
    ReachableIsGood(c, s);
    n := SoloStealEnds(c, s, Act(c, s, CallSteal(t)), t, s.start);
  }

  /** In every schedule a thief comes back with nothing only because the block it looks at is not of its
      generation, or empty, or because no other block is left before the owner's; losing a race makes it
      look again. */
  lemma ThievesGiveUpOnlyFor(c: Config, s: State, t: ThiefId)
    requires Reachable(c, s) && !ThiefAt(s, t).Resting? && ThiefAt(ThiefAct(c, s, t), t).Resting?
    ensures var pc := ThiefAt(s, t);
      || (pc.Loading? && s.blocks[Idx(c, pc.at)].stealTail.gen != Gen(c, pc.at))
      || (pc.Checking? && pc.spos.slot == s.blocks[Idx(c, pc.at)].tail)
      || (pc.Moving? && pc.at + 1 >= s.last)
      || (pc.Counting? && ThiefAct(c, s, t).stolen == s.stolen + [pc.v])
  {
  }

  lemma LosersLookAgain(c: Config, s: State, t: ThiefId)
    requires Reachable(c, s) && ThiefAt(s, t).Swapping? && !Wins(c, s, t)
    ensures ThiefAct(c, s, t) == SetThief(s, t, Loading(ThiefAt(s, t).at))
  {
  }
}
