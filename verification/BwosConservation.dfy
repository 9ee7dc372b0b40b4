/** Every accepted value is in exactly one place at every moment of every schedule, and leaves
    the queue exactly once.
 */
module BwosConservation {
  import opened Basics
  import opened BwosLayout
  import opened BwosSteps
  import opened BwosSafety

  /** The value push_back is still carrying. */
  function Carried(o: Owner): Option<Value> {
    match o
    case Putting(v, _) => Some(v)
    case Publishing(v, _) => Some(v)
    case Testing(v) => Some(v)
    case Opening(v) => Some(v)
    case GrantLoading(v) => Some(v)
    case GrantSwapping(v, _) => Some(v)
    case GrantStoring(v, _) => Some(v)
    case Spinning(v) => Some(v)
    case ResetHead(v) => Some(v)
    case ResetTail(v) => Some(v)
    case ResetSteal(v) => Some(v)
    case ResetCount(v) => Some(v)
    case Landing(v) => Some(v)
    case _ => None
  }

  predicate Live(s: State, i: nat, k: nat) {
    i < |s.blocks| && s.blocks[i].lo <= k < s.blocks[i].tail && k < |s.blocks[i].ring|
  }

  /** The value a thief has claimed and not yet returned. */
  function Held(c: Config, s: State, t: ThiefId): Option<Value>
    requires Shape(c, s)
  {
    match ThiefAt(s, t)
    case Reading(q, k) => if k < c.size then Some(s.blocks[Idx(c, q)].ring[k]) else None
    case Counting(_, v) => Some(v)
    case _ => None
  }

  /** What the words, slots and threads really have at a place inside the queue. */
  function Found(c: Config, s: State, p: Place): Option<Value>
    requires Shape(c, s)
  {
    match p
    case InSlot(i, k) => if Live(s, i, k) then Some(s.blocks[i].ring[k]) else None
    case Taken(t) => Held(c, s, t)
    case Argument => Carried(s.owner)
    case _ => None
  }

  predicate Inside(p: Place) {
    p.InSlot? || p.Taken? || p.Argument?
  }

  /** `place` is exactly the inverse of what the queue holds. */
  ghost predicate Placed(c: Config, s: State) {
    && Shape(c, s)
    && (forall p :: Found(c, s, p).Some? ==> Found(c, s, p).value in s.place && s.place[Found(c, s, p).value] == p)
    && (forall v :: v in s.place && Inside(s.place[v]) ==>
          Found(c, s, s.place[v]) == Some(v) || (s.place[v].Argument? && s.owner.Crashed?))
  }

  /** A thief reads below the boundary, where the owner never writes. */
  ghost predicate ReadsBelow(c: Config, s: State) {
    && Shape(c, s)
    && forall t :: t in s.thieves && s.thieves[t].Reading? ==>
         s.thieves[t].slot < s.blocks[Idx(c, s.thieves[t].at)].lo && s.thieves[t].slot < c.size
  }

  ghost predicate Logged(s: State) {
    && NoRepeats(s.popped) && NoRepeats(s.stolen)
    && (forall v :: v in s.popped <==> v in s.place && s.place[v] == Popped)
    && (forall v :: v in s.stolen <==> v in s.place && s.place[v] == Stolen)
    && (forall v :: v in s.place ==> v < |s.place|)
  }

  ghost predicate Inv(c: Config, s: State) {
    RingInv(c, s) && CountInv(c, s) && ReadsBelow(c, s) && Placed(c, s) && Logged(s)
  }

  /** One value moves from where it was to `p`; everything else stays. */
  ghost predicate Transfers(c: Config, s: State, s': State, v: Value, p: Place)
    requires Placed(c, s) && Shape(c, s')
  {
    && v in s.place
    && s'.place == s.place[v := p]
    && (forall x :: Found(c, s', x) ==
         if x == p && Inside(p) then Some(v) else if x == s.place[v] then None else Found(c, s, x))
    && (s.owner.Crashed? ==> s'.owner.Crashed?)
  }

  lemma TransferKeepsPlaced(c: Config, s: State, s': State, v: Value, p: Place)
    requires Placed(c, s) && Shape(c, s') && Transfers(c, s, s', v, p)
    requires Found(c, s, p) == None
    ensures Placed(c, s')
  {
  }

  lemma NothingMoves(c: Config, s: State, s': State)
    requires Placed(c, s) && Shape(c, s') && s'.place == s.place
    requires forall x ::
      Found(c, s', x) == Found(c, s, x) || (x == Argument && s'.owner.Crashed? && Found(c, s', x) == None)
    requires s.owner.Crashed? ==> s'.owner.Crashed?
    ensures Placed(c, s')
  {
  }

  // ------------------------------------------------------------ owner steps

  /** put writes above every live slot and above every slot a thief may still read. */
  lemma PutWrites(c: Config, s: State)
    requires Inv(c, s) && s.owner.Putting? && s.blocks[Idx(c, Cur(s))].tail < c.size
    ensures Placed(c, OwnerAct(c, s))
  {
    var s' := OwnerAct(c, s);
    forall x
      ensures Found(c, s', x) == Found(c, s, x)
    {
    }
    NothingMoves(c, s, s');
  }

  lemma PutPublishes(c: Config, s: State)
    requires Inv(c, s) && s.owner.Publishing?
    ensures Placed(c, OwnerAct(c, s))
  {
    var s', i := OwnerAct(c, s), Idx(c, Cur(s));
    var p := InSlot(i, s.blocks[i].tail);
    assert Found(c, s, Argument) == Some(s.owner.v);
    forall x
      ensures Found(c, s', x) == if x == p then Some(s.owner.v) else if x == Argument then None else Found(c, s, x)
    {
    }
    TransferKeepsPlaced(c, s, s', s.owner.v, p);
  }

  lemma PushRefuses(c: Config, s: State)
    requires Inv(c, s) && s.owner.Testing? && OwnerAct(c, s).owner.Free?
    ensures Placed(c, OwnerAct(c, s))
  {
    var s' := OwnerAct(c, s);
    assert Found(c, s, Argument) == Some(s.owner.v);
    forall x
      ensures Found(c, s', x) == if x == Argument then None else Found(c, s, x)
    {
    }
    TransferKeepsPlaced(c, s, s', s.owner.v, Refused);
  }

  lemma PopTakes(c: Config, s: State)
    requires Inv(c, s) && s.owner.Shrinking?
    ensures Placed(c, OwnerAct(c, s))
  {
    var s', i := OwnerAct(c, s), Idx(c, Cur(s));
    var p := InSlot(i, s.blocks[i].tail - 1);
    assert Found(c, s, p) == Some(s.owner.v);
    forall x
      ensures Found(c, s', x) == if x == p then None else Found(c, s, x)
    {
    }
    TransferKeepsPlaced(c, s, s', s.owner.v, Popped);
  }

  /** reclaim moves the boundaries of a block that holds no value and no claim. */
  lemma ReclaimMovesNothing(c: Config, s: State)
    requires Inv(c, s) && Reclaims(s.owner)
    ensures Placed(c, OwnerAct(c, s)) && ReadsBelow(c, OwnerAct(c, s))
  {
    ReclaimReadsBelow(c, s);
    ReclaimFindsTheSame(c, s);
    NothingMoves(c, s, ReclaimAct(c, s));
  }

  lemma ReclaimReadsBelow(c: Config, s: State)
    requires RingInv(c, s) && CountInv(c, s) && ReadsBelow(c, s) && Reclaims(s.owner)
    ensures ReadsBelow(c, ReclaimAct(c, s))
  {
    if s.owner.ResetCount? {
      NoClaims(c, s, Idx(c, Cur(s)));
    }
  }

  lemma ReclaimFindsTheSame(c: Config, s: State)
    requires RingInv(c, s) && Reclaims(s.owner)
    ensures forall x :: Found(c, ReclaimAct(c, s), x) == Found(c, s, x)
  {
    var s' := ReclaimAct(c, s);
    forall x
      ensures Found(c, s', x) == Found(c, s, x)
    {
      assert x.InSlot? && x.block < c.blocks ==> s'.blocks[x.block].ring == s.blocks[x.block].ring;
    }
  }

  lemma NoClaims(c: Config, s: State, i: nat)
    requires CountInv(c, s) && i < c.blocks && s.blocks[i].stealCount == s.blocks[i].lo
    ensures forall t :: t in s.thieves && s.thieves[t].Reading? ==> Idx(c, s.thieves[t].at) != i
  {
    forall t | t in s.thieves && s.thieves[t].Reading?
      ensures Idx(c, s.thieves[t].at) != i
    {
      assert t !in Claimers(c, s, i);
    }
  }

  predicate MovesValue(c: Config, s: State)
    requires Shape(c, s)
  {
    || s.owner.Publishing? || s.owner.Shrinking?
    || (s.owner.Putting? && s.blocks[Idx(c, Cur(s))].tail < c.size)
    || (s.owner.Testing? && OwnerAct(c, s).owner.Free?)
  }

  /** All the other steps of the owner rewrite boundary words only. */
  lemma WordsMoveNothing(c: Config, s: State)
    requires Inv(c, s) && !Reclaims(s.owner) && !MovesValue(c, s)
    ensures Placed(c, OwnerAct(c, s))
  {
    SlotsUntouched(c, s);
    CarriesOn(c, s);
    SameSlotsFindTheSame(c, s, OwnerAct(c, s));
    NothingMoves(c, s, OwnerAct(c, s));
  }

  lemma CarriesOn(c: Config, s: State)
    requires Shape(c, s) && !Reclaims(s.owner) && !MovesValue(c, s)
    ensures var o := OwnerAct(c, s).owner;
      && (Carried(o) == Carried(s.owner) || (o.Crashed? && Carried(o) == None))
      && (s.owner.Crashed? ==> o.Crashed?)
  {
  }

  lemma SameSlotsFindTheSame(c: Config, s: State, s': State)
    requires Shape(c, s) && Shape(c, s') && SameSlots(s, s')
    ensures forall x: Place :: !x.Argument? ==> Found(c, s', x) == Found(c, s, x)
  {
  }

  predicate SameSlots(s: State, s': State) {
    && s'.place == s.place && s'.thieves == s.thieves && s'.popped == s.popped && s'.stolen == s.stolen
    && |s'.blocks| == |s.blocks|
    && forall i :: 0 <= i < |s.blocks| ==>
         && s'.blocks[i].ring == s.blocks[i].ring && s'.blocks[i].tail == s.blocks[i].tail
         && s'.blocks[i].lo == s.blocks[i].lo
  }

  lemma PushLeavesSlots(c: Config, s: State)
    requires Shape(c, s) && !MovesValue(c, s)
    ensures SameSlots(s, PushAct(c, s))
  {
  }

  lemma PopLeavesSlots(c: Config, s: State)
    requires Shape(c, s) && !MovesValue(c, s)
    ensures SameSlots(s, PopAct(c, s))
  {
  }

  lemma SlotsUntouched(c: Config, s: State)
    requires Shape(c, s) && !Reclaims(s.owner) && !MovesValue(c, s)
    ensures SameSlots(s, OwnerAct(c, s))
  {
    PushLeavesSlots(c, s);
    PopLeavesSlots(c, s);
  }

  lemma OwnerKeepsPlaces(c: Config, s: State)
    requires Inv(c, s)
    ensures Placed(c, OwnerAct(c, s))
  {
    if Reclaims(s.owner) {
      ReclaimMovesNothing(c, s);
    } else if !MovesValue(c, s) {
      WordsMoveNothing(c, s);
    } else if s.owner.Shrinking? {
      PopTakes(c, s);
    } else if s.owner.Publishing? {
      PutPublishes(c, s);
    } else if s.owner.Putting? {
      PutWrites(c, s);
    } else {
      PushRefuses(c, s);
    }
  }

  lemma OwnerKeepsReads(c: Config, s: State)
    requires Inv(c, s)
    ensures ReadsBelow(c, OwnerAct(c, s))
  {
    if Reclaims(s.owner) {
      ReclaimMovesNothing(c, s);
    } else {
      PushKeepsCounts(c, s);
      PopKeepsCounts(c, s);
    }
  }

  lemma MoveKeepsLogs(s: State, s': State, v: Value, p: Place)
    requires Logged(s) && v in s.place && Inside(s.place[v])
    requires s'.place == s.place[v := p]
    requires s'.popped == if p == Popped then s.popped + [v] else s.popped
    requires s'.stolen == if p == Stolen then s.stolen + [v] else s.stolen
    ensures Logged(s')
  {
    assert |s'.place| == |s.place| by { assert s'.place.Keys == s.place.Keys; }
  }

  lemma OwnerKeepsLogs(c: Config, s: State)
    requires Inv(c, s)
    ensures Logged(OwnerAct(c, s))
  {
    var s', i := OwnerAct(c, s), Idx(c, Cur(s));
    assert Found(c, s, Argument) == Carried(s.owner);
    if s.owner.Shrinking? {
      assert Found(c, s, InSlot(i, s.blocks[i].tail - 1)) == Some(s.owner.v);
      MoveKeepsLogs(s, s', s.owner.v, Popped);
    } else if s.owner.Publishing? {
      MoveKeepsLogs(s, s', s.owner.v, InSlot(i, s.blocks[i].tail));
    } else if s.owner.Testing? && s'.owner.Free? {
      MoveKeepsLogs(s, s', s.owner.v, Refused);
    } else if !Reclaims(s.owner) && !MovesValue(c, s) {
      SlotsUntouched(c, s);
    }
  }

  // ------------------------------------------------------------ thief steps

  /** A successful compare-exchange claims a full slot of a block granted in the thief's own
      generation. */
  lemma WinHitsAFullSlot(c: Config, s: State, t: ThiefId)
    requires Inv(c, s) && Wins(c, s, t)
    ensures var i := Idx(c, ThiefAt(s, t).at);
      && ThiefAt(s, t).spos == s.blocks[i].stealTail == Word(s.blocks[i].head.gen, s.blocks[i].lo)
      && s.blocks[i].tail == c.size
      && Live(s, i, s.blocks[i].lo)
  {
    var x := OpenBlocksAreGranted(c, s, Idx(c, ThiefAt(s, t).at));
  }

  lemma ThiefClaims(c: Config, s: State, t: ThiefId)
    requires Inv(c, s) && Wins(c, s, t)
    ensures Placed(c, ThiefAct(c, s, t)) && ReadsBelow(c, ThiefAct(c, s, t)) && Logged(ThiefAct(c, s, t))
  {
    var i := Idx(c, ThiefAt(s, t).at);
    WinHitsAFullSlot(c, s, t);
    var p := InSlot(i, s.blocks[i].lo);
    assert Found(c, s, p) == Some(s.blocks[i].ring[s.blocks[i].lo]);
    ClaimTransfers(c, s, t);
    TransferKeepsPlaced(c, s, ThiefAct(c, s, t), Found(c, s, p).value, Taken(t));
    MoveKeepsLogs(s, ThiefAct(c, s, t), Found(c, s, p).value, Taken(t));
  }

  lemma ClaimTransfers(c: Config, s: State, t: ThiefId)
    requires ReadsBelow(c, s) && Placed(c, s) && Wins(c, s, t)
    requires var b := s.blocks[Idx(c, ThiefAt(s, t).at)]; b.lo == ThiefAt(s, t).spos.slot && b.tail == c.size
    ensures ReadsBelow(c, ThiefAct(c, s, t))
    ensures var b := s.blocks[Idx(c, ThiefAt(s, t).at)]; Transfers(c, s, ThiefAct(c, s, t), b.ring[b.lo], Taken(t))
  {
    var s', i := ThiefAct(c, s, t), Idx(c, ThiefAt(s, t).at);
    var p := InSlot(i, s.blocks[i].lo);
    assert Found(c, s, p).Some?;
    forall x
      ensures Found(c, s', x) == if x == Taken(t) then Found(c, s, p) else if x == p then None else Found(c, s, x)
    {
    }
  }

  lemma ThiefReturns(c: Config, s: State, t: ThiefId)
    requires Inv(c, s) && ThiefAt(s, t).Counting?
    ensures Placed(c, ThiefAct(c, s, t)) && ReadsBelow(c, ThiefAct(c, s, t)) && Logged(ThiefAct(c, s, t))
  {
    var s', v := ThiefAct(c, s, t), ThiefAt(s, t).v;
    assert Found(c, s, Taken(t)) == Some(v);
    forall x
      ensures Found(c, s', x) == if x == Taken(t) then None else Found(c, s, x)
    {
    }
    TransferKeepsPlaced(c, s, s', v, Stolen);
    MoveKeepsLogs(s, s', v, Stolen);
  }

  lemma ThiefLooksOn(c: Config, s: State, t: ThiefId)
    requires Inv(c, s) && !Wins(c, s, t) && !ThiefAt(s, t).Counting?
    ensures Placed(c, ThiefAct(c, s, t)) && ReadsBelow(c, ThiefAct(c, s, t)) && Logged(ThiefAct(c, s, t))
  {
    ThiefLooks(c, s, t);
    LookHoldsNothing(c, s, t);
    NothingMoves(c, s, ThiefAct(c, s, t));
  }

  lemma LookHoldsNothing(c: Config, s: State, t: ThiefId)
    requires ReadsBelow(c, s) && !Wins(c, s, t) && !ThiefAt(s, t).Counting?
    ensures ReadsBelow(c, ThiefAct(c, s, t))
    ensures forall x :: Found(c, ThiefAct(c, s, t), x) == Found(c, s, x)
  {
    ThiefLooks(c, s, t);
    forall x
      ensures Found(c, ThiefAct(c, s, t), x) == Found(c, s, x)
    {
    }
  }
}
