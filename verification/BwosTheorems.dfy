/** The block queue's promises, for every schedule of one owner and any number of thieves.
 */
module BwosTheorems {
  import opened Basics
  import opened BwosLayout
  import opened BwosSteps
  import opened BwosSafety
  import opened BwosConservation
  import opened BwosOrder

  /** A thief past the generation test holds a boundary of its own sequence's generation. */
  ghost predicate Aimed(c: Config, s: State) {
    && Shape(c, s)
    && forall t :: t in s.thieves && (s.thieves[t].Checking? || s.thieves[t].Swapping?) ==>
         s.thieves[t].spos.gen == Gen(c, s.thieves[t].at) && s.thieves[t].spos.slot < c.size
  }

  ghost predicate Good(c: Config, s: State) {
    Inv(c, s) && Ordered(c, s) && Aimed(c, s)
  }

  // ------------------------------------------------------------ every step keeps it

  lemma InitIsGood(c: Config)
    requires ValidConfig(c)
    ensures Good(c, Init(c))
  {
    InitRing(c);
    var s := Init(c);
    forall p
      ensures Found(c, s, p) == None
    {
    }
  }

  lemma CallPushKeeps(c: Config, s: State)
    requires Good(c, s)
    ensures Good(c, Act(c, s, CallPush))
  {
    if s.owner.Free? {
      var s' := s.(owner := Putting(|s.place|, false), place := s.place[|s.place| := Argument]);
      assert |s.place| !in s.place;
      SameWindow(c, s, s');
      SameClaims(c, s, s');
      OfferIsPlaced(c, s, s');
      OfferIsNotLogged(s, s');
      OfferIsLast(c, s, s');
    }
  }

  lemma OfferIsPlaced(c: Config, s: State, s': State)
    requires Placed(c, s) && s.owner.Free? && |s.place| !in s.place
    requires s' == s.(owner := Putting(|s.place|, false), place := s.place[|s.place| := Argument])
    ensures Placed(c, s')
  {
    forall p
      ensures Found(c, s', p) == if p == Argument then Some(|s.place|) else Found(c, s, p)
    {
    }
  }

  lemma OfferIsNotLogged(s: State, s': State)
    requires Logged(s) && |s.place| !in s.place
    requires s' == s.(owner := Putting(|s.place|, false), place := s.place[|s.place| := Argument])
    ensures Logged(s')
  {
    assert s'.place.Keys == s.place.Keys + {|s.place|};
    assert |s'.place| == |s.place| + 1;
  }

  lemma OfferIsLast(c: Config, s: State, s': State)
    requires Ordered(c, s) && s.owner.Free? && |s.place| !in s.place
    requires s' == s.(owner := Putting(|s.place|, false), place := s.place[|s.place| := Argument])
    ensures Ordered(c, s')
  {
    assert s'.place.Keys == s.place.Keys + {|s.place|};
    assert |s'.place| == |s.place| + 1;
    forall q: nat, k: nat, w: Value
      ensures Holds(c, s', q, k, w) <==> Holds(c, s, q, k, w)
    {
    }
  }

  /** A call that offers no value changes the thread's own position only. */
  lemma EnterKeeps(c: Config, s: State, s': State)
    requires Good(c, s) && Shape(c, s')
    requires s'.blocks == s.blocks && s'.place == s.place && s'.start == s.start
    requires s'.popped == s.popped && s'.stolen == s.stolen
    requires Carried(s'.owner) == Carried(s.owner) && (s.owner.Crashed? ==> s'.owner.Crashed?)
    requires forall t :: Held(c, s', t) == Held(c, s, t)
    ensures Placed(c, s') && Logged(s') && Ordered(c, s')
  {
    forall p
      ensures Found(c, s', p) == Found(c, s, p)
    {
    }
    NothingMoves(c, s, s');
    NoArrivalKeepsOrder(c, s, s');
  }

  lemma CallPopKeeps(c: Config, s: State)
    requires Good(c, s)
    ensures Good(c, Act(c, s, CallPop))
  {
    if s.owner.Free? {
      var s' := s.(owner := Popping);
      SameWindow(c, s, s');
      SameClaims(c, s, s');
      EnterKeeps(c, s, s');
    }
  }

  /** Entering a call leaves the blocks as they are. */
  lemma SameWindow(c: Config, s: State, s': State)
    requires RingInv(c, s) && s.owner.Free? && (s'.owner.Putting? || s'.owner.Popping?)
    requires s'.blocks == s.blocks && s'.start == s.start && s'.last == s.last && s'.thieves == s.thieves
    ensures RingInv(c, s')
  {
    forall q: nat | s.start <= q < s.start + c.blocks && q != Cur(s)
      ensures OtherOk(c, s', q)
    {
      assert OtherOk(c, s, q);
    }
  }

  lemma SameClaims(c: Config, s: State, s': State)
    requires CountInv(c, s) && Shape(c, s') && s'.blocks == s.blocks && s'.thieves == s.thieves
    ensures CountInv(c, s')
  {
    forall i | 0 <= i < |s'.blocks|
      ensures s'.blocks[i].stealCount + |Claimers(c, s', i)| == s'.blocks[i].lo
    {
      assert Claimers(c, s', i) == Claimers(c, s, i);
    }
  }

  lemma CallStealKeeps(c: Config, s: State, t: ThiefId)
    requires Good(c, s)
    ensures Good(c, Act(c, s, CallSteal(t)))
  {
    if ThiefAt(s, t).Resting? {
      var s' := SetThief(s, t, Loading(s.start));
      SameRing(c, s, s');
      StartKeepsCount(c, s, t);
      EnterKeeps(c, s, s');
      assert Good(c, s');
    }
  }

  lemma StartKeepsCount(c: Config, s: State, t: ThiefId)
    requires CountInv(c, s) && ThiefAt(s, t).Resting?
    ensures CountInv(c, SetThief(s, t, Loading(s.start)))
  {
    var s' := SetThief(s, t, Loading(s.start));
    forall i | 0 <= i < |s'.blocks|
      ensures s'.blocks[i].stealCount + |Claimers(c, s', i)| == s'.blocks[i].lo
    {
      ClaimersAfter(c, s, t, Loading(s.start), i);
      assert Claimers(c, s', i) == Claimers(c, s, i);
    }
  }

  lemma OwnerKeepsRing(c: Config, s: State)
    requires RingInv(c, s) && CountInv(c, s)
    ensures RingInv(c, OwnerAct(c, s))
  {
    if s.owner.Opening? {
      OwnerOpens(c, s);
    } else if s.owner.GrantStoring? {
      OwnerGrants(c, s);
    } else if s.owner.ReduceStoring? {
      OwnerRetreats(c, s);
    } else if Reclaims(s.owner) {
      OwnerReclaims(c, s);
    } else if Pops(s.owner) {
      OwnerPops(c, s);
    } else if s.owner.Putting? || s.owner.Publishing? {
      OwnerPuts(c, s);
    } else if !s.owner.Free? && !s.owner.Crashed? {
      OwnerStays(c, s);
    }
  }

  lemma OwnerKeepsAim(c: Config, s: State)
    requires Aimed(c, s)
    ensures Aimed(c, OwnerAct(c, s))
  {
    PushKeepsCounts(c, s);
    PopKeepsCounts(c, s);
    assert OwnerAct(c, s).thieves == s.thieves;
  }

  lemma OwnerStepKeeps(c: Config, s: State)
    requires Good(c, s)
    ensures Good(c, Act(c, s, OwnerStep))
  {
    var s' := OwnerAct(c, s);
    assert Inv(c, s') by {
      OwnerKeepsRing(c, s);
      OwnerKeepsCount(c, s);
      OwnerKeepsReads(c, s);
      OwnerKeepsPlaces(c, s);
      OwnerKeepsLogs(c, s);
    }
    OwnerKeepsOrder(c, s);
    OwnerKeepsAim(c, s);
  }

  /** No thief ever sees a boundary past the end of a block. */
  lemma BoundariesInRange(c: Config, s: State, i: nat)
    requires RingInv(c, s) && i < c.blocks
    ensures s.blocks[i].stealTail.slot <= c.size
  {
    var x := Standing(c, s.start, i);
    assert x != Cur(s) ==> OtherOk(c, s, x);
  }

  lemma ThiefKeepsAim(c: Config, s: State, t: ThiefId)
    requires RingInv(c, s) && Aimed(c, s)
    ensures Aimed(c, ThiefAct(c, s, t))
  {
    if ThiefAt(s, t).Loading? {
      BoundariesInRange(c, s, Idx(c, ThiefAt(s, t).at));
    }
  }

  lemma ThiefStepKeeps(c: Config, s: State, t: ThiefId)
    requires Good(c, s)
    ensures Good(c, Act(c, s, ThiefStep(t)))
  {
    var s' := ThiefAct(c, s, t);
    ThiefKeepsCount(c, s, t);
    ThiefKeepsAim(c, s, t);
    if Wins(c, s, t) {
      ThiefWins(c, s, t);
      ThiefClaims(c, s, t);
    } else if ThiefAt(s, t).Counting? {
      ThiefCounts(c, s, t);
      ThiefReturns(c, s, t);
    } else {
      ThiefLooks(c, s, t);
      SameRing(c, s, s');
      ThiefLooksOn(c, s, t);
    }
    ThiefKeepsOrder(c, s, t);
  }

  lemma ActKeeps(c: Config, s: State, e: Event)
    requires Good(c, s)
    ensures Good(c, Act(c, s, e))
  {
    match e {
      case CallPush => CallPushKeeps(c, s);
      case CallPop => CallPopKeeps(c, s);
      case OwnerStep => OwnerStepKeeps(c, s);
      case CallSteal(t) => CallStealKeeps(c, s, t);
      case ThiefStep(t) => ThiefStepKeeps(c, s, t);
    }
  }

  lemma {:induction false} RunIsGood(c: Config, run: seq<State>)
    requires IsRun(c, run)
    ensures Good(c, run[|run| - 1])
  {
    if |run| == 1 {
      InitIsGood(c);
    } else {
      var before := run[..|run| - 1];
      RunIsGood(c, before);
      assert Step(c, run[|run| - 2], run[|run| - 1]);
      var e :| run[|run| - 1] == Act(c, run[|run| - 2], e);
      ActKeeps(c, run[|run| - 2], e);
    }
  }

  /** The invariant holds in every reachable state. */
  lemma ReachableIsGood(c: Config, s: State)
    requires Reachable(c, s)
    ensures Good(c, s)
  {
    var run :| IsRun(c, run) && run[|run| - 1] == s;
    RunIsGood(c, run);
  }

  // ------------------------------------------------------------ the promises

  function Lesser(a: nat, b: nat): nat {
    if a < b then a else b
  }

  /** The slots `Drop for Block` frees: from the lesser of the two boundaries up to `tail`. */
  predicate DropFrees(s: State, i: nat, k: nat) {
    && i < |s.blocks|
    && Lesser(s.blocks[i].head.slot, s.blocks[i].stealTail.slot) <= k < s.blocks[i].tail
    && k < |s.blocks[i].ring|
  }

  ghost function Accepted(s: State): set<Value> {
    set v | v in s.place && !s.place[v].Argument? && !s.place[v].Refused?
  }

  ghost function Elements(log: seq<Value>): set<Value> {
    set v | v in log
  }

  /** Values claimed by a thief's compare-exchange and not yet returned by steal_front. */
  ghost function InHands(c: Config, s: State): set<Value>
    requires Shape(c, s)
  {
    set t | t in s.thieves && Held(c, s, t).Some? :: Held(c, s, t).value
  }

  /** Values that dropping the queue now would free. */
  ghost function Freed(s: State): set<Value> {
    set i, k | 0 <= i < |s.blocks| && 0 <= k < |s.blocks[i].ring| && DropFrees(s, i, k) :: s.blocks[i].ring[k]
  }

  /** With no owner call in progress, the range Drop frees is exactly the live slots. */
  lemma DropRangeIsLive(c: Config, s: State, i: nat, k: nat)
    requires Good(c, s) && s.owner.Free? && i < c.blocks
    ensures DropFrees(s, i, k) <==> Live(s, i, k)
  {
    var x := Standing(c, s.start, i);
    assert x != Cur(s) ==> OtherOk(c, s, x);
  }

  /** Conservation. Whenever no owner call is in progress, the accepted values are those popped,
      those stolen, those in thieves' hands and those Drop would free: four disjoint sets; no
      value is popped or stolen twice, and no two slots or hands share a value. */
  lemma Conservation(c: Config, s: State)
    requires Reachable(c, s)
    ensures
      && NoRepeats(s.popped) && NoRepeats(s.stolen)
      && Elements(s.popped) !! Elements(s.stolen) !! InHands(c, s)
      && (s.owner.Free? ==>
            && Elements(s.popped) + Elements(s.stolen) + InHands(c, s) !! Freed(s)
            && Accepted(s) == Elements(s.popped) + Elements(s.stolen) + InHands(c, s) + Freed(s))
  {
    ReachableIsGood(c, s);
    forall v: Value
      ensures v in InHands(c, s) <==> v in s.place && s.place[v].Taken?
      ensures s.owner.Free? ==> (v in Freed(s) <==> v in s.place && s.place[v].InSlot?)
    {
      HandsArePlaced(c, s, v);
      if s.owner.Free? {
        FreedIsPlaced(c, s, v);
      }
    }
    PlacesPartition(c, s);
  }

  lemma PlacesPartition(c: Config, s: State)
    requires Logged(s) && Shape(c, s)
    requires forall v: Value :: v in InHands(c, s) <==> v in s.place && s.place[v].Taken?
    requires s.owner.Free? ==> forall v: Value :: v in Freed(s) <==> v in s.place && s.place[v].InSlot?
    ensures Elements(s.popped) !! Elements(s.stolen) !! InHands(c, s)
    ensures s.owner.Free? ==>
      && Elements(s.popped) + Elements(s.stolen) + InHands(c, s) !! Freed(s)
      && Accepted(s) == Elements(s.popped) + Elements(s.stolen) + InHands(c, s) + Freed(s)
  {
  }

  lemma HandsArePlaced(c: Config, s: State, v: Value)
    requires Placed(c, s)
    ensures v in InHands(c, s) <==> v in s.place && s.place[v].Taken?
  {
    if v in InHands(c, s) {
      var t :| t in s.thieves && Held(c, s, t) == Some(v);
      assert Found(c, s, Taken(t)) == Some(v);
    }
    if v in s.place && s.place[v].Taken? {
      assert Held(c, s, s.place[v].thief) == Some(v);
    }
  }

  lemma FreedIsPlaced(c: Config, s: State, v: Value)
    requires Good(c, s) && s.owner.Free?
    ensures v in Freed(s) <==> v in s.place && s.place[v].InSlot?
  {
    if v in Freed(s) {
      var i, k :| 0 <= i < |s.blocks| && 0 <= k < |s.blocks[i].ring| && DropFrees(s, i, k) && s.blocks[i].ring[k] == v;
      DropRangeIsLive(c, s, i, k);
      assert Found(c, s, InSlot(i, k)) == Some(v);
    }
    if v in s.place && s.place[v].InSlot? {
      var p := s.place[v];
      assert Found(c, s, p) == Some(v);
      DropRangeIsLive(c, s, p.block, p.slot);
    }
  }

  /** Drop frees each value once. */
  lemma DropFreesOnce(c: Config, s: State, i: nat, k: nat, i': nat, k': nat)
    requires Reachable(c, s)
    requires s.owner.Free? && DropFrees(s, i, k) && DropFrees(s, i', k') && (i != i' || k != k')
    ensures s.blocks[i].ring[k] != s.blocks[i'].ring[k']
  {
    ReachableIsGood(c, s);
    DropRangeIsLive(c, s, i, k);
    DropRangeIsLive(c, s, i', k');
    assert Found(c, s, InSlot(i, k)).Some? && Found(c, s, InSlot(i', k')).Some?;
  }

  /** The owner's next step writes slot `k` of block `i`. */
  predicate Writes(c: Config, s: State, i: nat, k: nat)
    requires Shape(c, s)
  {
    s.owner.Putting? && i == Idx(c, Cur(s)) && k == s.blocks[i].tail < c.size
  }

  /** The owner's next step reads slot `k` of block `i`. */
  predicate Reads(c: Config, s: State, i: nat, k: nat)
    requires Shape(c, s)
  {
    && s.owner.Popping? && i == Idx(c, Cur(s)) && s.blocks[i].tail == k + 1 && s.blocks[i].head.slot != s.blocks[i].tail
  }

  /** Slot safety. No two threads ever have the same slot: what the owner is about to write or
      read is not a slot a thief is about to read, no two thieves are about to read one slot, and
      a thief still finds in its slot the value its compare-exchange claimed. */
  lemma SlotSafety(c: Config, s: State, t: ThiefId)
    requires Reachable(c, s)
    requires ThiefAt(s, t).Reading?
    ensures var i, k := Idx(c, ThiefAt(s, t).at), ThiefAt(s, t).slot;
      && !Writes(c, s, i, k) && !Reads(c, s, i, k)
      && (forall u :: ThiefAt(s, u).Reading? && Idx(c, ThiefAt(s, u).at) == i && ThiefAt(s, u).slot == k ==> u == t)
      && k < c.size && s.blocks[i].ring[k] in s.place && s.place[s.blocks[i].ring[k]] == Taken(t)
  {
    ReachableIsGood(c, s);
    assert Found(c, s, Taken(t)).Some?;
    forall u |
      && ThiefAt(s, u).Reading? && Idx(c, ThiefAt(s, u).at) == Idx(c, ThiefAt(s, t).at)
      && ThiefAt(s, u).slot == ThiefAt(s, t).slot
      ensures u == t
    {
      assert Found(c, s, Taken(u)) == Found(c, s, Taken(t));
    }
  }

  /** Where the boundary of the block of sequence `q` stands. Behind the owner it is in `steal_tail`,
      ahead of it in `head`. In the owner's own block it is in `head`, except in the middle of a
      takeover or a grant, when it is still in `steal_tail` or carried by the owner between its two
      stores, and of a reclaim, when it has been reset and the count stands for it. */
  function BoundarySlot(c: Config, s: State, q: nat): nat
    requires Shape(c, s)
  {
    var b := s.blocks[Idx(c, q)];
    if q < Cur(s) then b.stealTail.slot
    else if q > Cur(s) then b.head.slot
    else
      match s.owner
      case GrantStoring(_, kept) => kept.slot
      case TakeSwapping => b.stealTail.slot
      case TakeStoring(spos) => spos.slot
      case ResetTail(_) => b.stealCount
      case ResetSteal(_) => b.stealCount
      case ResetCount(_) => b.stealCount
      case _ => b.head.slot
  }

  /** The count. In every reachable state, for every block of the window, the boundary slot is the
      steal count plus the thieves between their compare-exchange and their count; in particular no
      such thief is left while reclaim resets a block. */
  lemma BoundaryCountsThieves(c: Config, s: State, q: nat)
    requires Reachable(c, s) && s.start <= q < s.start + c.blocks
    ensures BoundarySlot(c, s, q) == s.blocks[Idx(c, q)].stealCount + |Claimers(c, s, Idx(c, q))|
  {
    ReachableIsGood(c, s);
    assert q != Cur(s) ==> OtherOk(c, s, q);
  }

  /** reclaim's wait ends exactly when no thief of the block's earlier turn is still reading. */
  lemma ReclaimWaitsForThieves(c: Config, s: State)
    requires Reachable(c, s) && s.owner.Spinning?
    ensures OwnerAct(c, s).owner.ResetHead? <==> Claimers(c, s, Idx(c, Cur(s))) == {}
  {
    ReachableIsGood(c, s);
    SpinEndsWithTheThieves(c, s);
  }

  /** No ABA. A compare-exchange that succeeds finds the very block the thief set out for: its
      sequence is inside the window, behind the owner, and granted in the thief's generation; the
      slot it takes is full and older than everything else in the block. */
  lemma StealIsSound(c: Config, s: State, t: ThiefId)
    requires Reachable(c, s)
    requires Wins(c, s, t)
    ensures var q := ThiefAt(s, t).at; var b := s.blocks[Idx(c, q)];
      && s.start <= q <= s.last && (q < Cur(s) || s.owner.TakeSwapping?)
      && Granted(c, b, Gen(c, q))
      && Live(s, Idx(c, q), b.lo) && ThiefAt(s, t).spos.slot == b.lo
      && ThiefAt(ThiefAct(c, s, t), t) == Reading(q, b.lo)
      && (forall k: nat, v :: Holds(c, s, q, k, v) && k != b.lo ==> b.ring[b.lo] < v)
  {
    ReachableIsGood(c, s);
    var q := ThiefAt(s, t).at;
    var x := OpenBlocksAreGranted(c, s, Idx(c, q));
    SequenceIsUnique(c, x, q);
    WinHitsAFullSlot(c, s, t);
    assert Holds(c, s, q, s.blocks[Idx(c, q)].lo, s.blocks[Idx(c, q)].ring[s.blocks[Idx(c, q)].lo]);
  }

  /** pop_back takes the newest value of all those in the queue. */
  lemma PopTakesTheNewest(c: Config, s: State)
    requires Reachable(c, s)
    requires s.owner.Popping? && OwnerAct(c, s).owner.Shrinking?
    ensures var v := OwnerAct(c, s).owner.v;
      && v in s.place && s.place[v].InSlot?
      && forall w :: w in s.place && s.place[w].InSlot? && w != v ==> w < v
  {
    ReachableIsGood(c, s);
    var b := s.blocks[Idx(c, Cur(s))];
    assert OwnerAct(c, s).owner.v == b.ring[b.tail - 1];
    TopIsTheNewest(c, s, Cur(s), b.tail - 1, b.ring[b.tail - 1]);
  }

  lemma TopIsTheNewest(c: Config, s: State, x: nat, k: nat, v: Value)
    requires Good(c, s) && x == Cur(s) && k + 1 == s.blocks[Idx(c, x)].tail && Holds(c, s, x, k, v)
    ensures v in s.place && s.place[v].InSlot?
    ensures forall w :: w in s.place && s.place[w].InSlot? && w != v ==> w < v
  {
    HoldsIsPlaced(c, s, x, k, v);
    NothingAhead(c, s);
    forall w | w in s.place && s.place[w].InSlot? && w != v
      ensures w < v
    {
      var p := s.place[w];
      assert Found(c, s, p) == Some(w);
      var q := Standing(c, s.start, p.block);
      assert Holds(c, s, q, p.slot, w);
    }
  }

  /** pop_back returns nothing only when no slot of the queue holds a value. */
  lemma PopFailsOnlyWhenEmpty(c: Config, s: State)
    requires Reachable(c, s)
    requires s.owner.Popping? && OwnerAct(c, s).owner.Free?
    ensures forall v :: v in s.place ==> !s.place[v].InSlot?
  {
    ReachableIsGood(c, s);
    forall v | v in s.place
      ensures !s.place[v].InSlot?
    {
      if s.place[v].InSlot? {
        NothingLive(c, s, s.place[v].block, s.place[v].slot);
      }
    }
  }

  lemma NothingLive(c: Config, s: State, i: nat, k: nat)
    requires RingInv(c, s) && s.owner.Popping? && s.start == s.last
    requires s.blocks[Idx(c, s.last)].tail == s.blocks[Idx(c, s.last)].lo
    ensures !Live(s, i, k)
  {
    if i < c.blocks {
      var q := Standing(c, s.start, i);
      assert q != Cur(s) ==> OtherOk(c, s, q);
    }
  }

  /** push_back hands a value back exactly when the owner's block is full, the window spans every
      block, and the oldest block still holds a value. */
  lemma PushFailsExactlyWhenFull(c: Config, s: State)
    requires Reachable(c, s) && s.owner.Testing?
    ensures OwnerAct(c, s).owner.Free? <==>
      && s.blocks[Idx(c, s.last)].tail == c.size
      && s.last + 1 == s.start + c.blocks
      && Live(s, Idx(c, s.start), s.blocks[Idx(c, s.start)].lo)
  {
    ReachableIsGood(c, s);
    RefusalIsFull(c, s);
  }

  lemma RefusalIsFull(c: Config, s: State)
    requires RingInv(c, s) && s.owner.Testing?
    ensures OwnerAct(c, s).owner.Free? <==>
      && s.blocks[Idx(c, s.last)].tail == c.size
      && s.last + 1 == s.start + c.blocks
      && Live(s, Idx(c, s.start), s.blocks[Idx(c, s.start)].lo)
  {
    var next := s.last + 1;
    assert next < s.start + c.blocks ==> OtherOk(c, s, next);
    assert s.start < s.last ==> OtherOk(c, s, s.start);
  }

  /** The owner panics only when the generations run out. */
  lemma OwnerFailsOnlyAtTheLastGeneration(c: Config, s: State)
    requires Reachable(c, s)
    requires !s.owner.Crashed? && OwnerAct(c, s).owner.Crashed?
    ensures Gen(c, s.last + 1) > MAX_GENERATION
  {
    ReachableIsGood(c, s);
    FailureIsExhaustion(c, s);
  }

  lemma PopsDoNotFail(c: Config, s: State)
    requires RingInv(c, s) && !s.owner.Crashed?
    ensures !PopAct(c, s).owner.Crashed?
  {
  }

  lemma FailureIsExhaustion(c: Config, s: State)
    requires RingInv(c, s) && !s.owner.Crashed? && OwnerAct(c, s).owner.Crashed?
    ensures Gen(c, s.last + 1) > MAX_GENERATION
  {
    PopsDoNotFail(c, s);
    if s.owner.Opening? {
      GenMono(c, s.start + 1, Cur(s) + 1);
    }
  }
}
