/** What every interleaving of one owner with any number of thieves keeps, and what follows:
    no value is lost, duplicated, or read from a slot that somebody else is using.
 */
module BwosSafety {
  import opened BwosLayout
  import opened BwosSteps

  // ------------------------------------------------------------ block phases

  /** The owner works here: its boundary is `head`, thieves see the block as emptied. */
  predicate Active(c: Config, b: Block, g: nat) {
    b.head == Word(g, b.lo) && b.stealTail == Word(g, c.size) && b.lo <= b.tail <= c.size
  }

  /** Handed to thieves: the boundary is `stealTail`, and every slot above it is full. */
  predicate Granted(c: Config, b: Block, g: nat) {
    b.head == Word(g, c.size) && b.stealTail == Word(g, b.lo) && b.lo <= b.tail == c.size
  }

  /** Empty and parked one generation back, so that generation `g` may reclaim it. */
  predicate Vacant(c: Config, b: Block, g: nat) {
    b.head.slot == b.lo == b.tail <= c.size && b.stealTail == Word(Before(g), c.size)
  }

  /** Between the two stores of grant or takeover both words say "emptied", and the owner
      carries the real boundary. */
  predicate Between(c: Config, b: Block, g: nat, carried: Word) {
    b.head == b.stealTail == Word(g, c.size) && carried == Word(g, b.lo) && b.lo <= b.tail == c.size
  }

  predicate CurOk(c: Config, s: State, b: Block, g: nat) {
    match s.owner
    case Free => Active(c, b, g)
    case Crashed => Active(c, b, g)
    case Putting(_, _) => Active(c, b, g)
    case Popping => Active(c, b, g)
    case Backing => Active(c, b, g)
    case Publishing(v, _) => Active(c, b, g) && b.tail < c.size && b.tail < |b.ring| && b.ring[b.tail] == v
    case Testing(_) => Active(c, b, g) && b.tail == c.size
    case Opening(_) => Active(c, b, g) && b.tail == c.size
    case GrantLoading(_) => Active(c, b, g) && b.tail == c.size
    case GrantSwapping(_, end) => Active(c, b, g) && b.tail == c.size && end == b.stealTail
    case GrantStoring(_, kept) => Between(c, b, g, kept)
    case Spinning(_) => Vacant(c, b, g)
    case ResetHead(_) => Vacant(c, b, g) && b.stealCount == b.lo
    case ResetTail(_) =>
      b.head == Word(g, 0) && b.lo == b.tail && b.stealTail == Word(Before(g), c.size) && b.stealCount == b.lo
    case ResetSteal(_) =>
      b.head == Word(g, 0) && b.tail == 0 && b.stealTail == Word(Before(g), c.size) && b.stealCount == b.lo
    case ResetCount(_) => b.head == Word(g, 0) && b.tail == 0 && b.stealTail == Word(g, c.size) && b.stealCount == b.lo
    case Landing(_) => Active(c, b, g) && b.tail == 0
    case Shrinking(v) => Active(c, b, g) && b.lo < b.tail <= |b.ring| && v == b.ring[b.tail - 1]
    case ReduceLoading => Active(c, b, g) && b.lo == b.tail && s.start < s.last
    case ReduceStoring(w) => Active(c, b, g) && b.lo == b.tail && s.start < s.last && w == b.stealTail
    case TakeSwapping => Granted(c, b, g)
    case TakeStoring(spos) => Between(c, b, g, spos)
  }

  /** Blocks behind the owner are granted, blocks ahead of it are vacant. */
  predicate OtherOk(c: Config, s: State, q: nat)
    requires c.blocks > 0 && |s.blocks| == c.blocks
  {
    if q < Cur(s) then Granted(c, s.blocks[Idx(c, q)], Gen(c, q))
    else Vacant(c, s.blocks[Idx(c, q)], Gen(c, q))
  }

  ghost predicate RingInv(c: Config, s: State) {
    && Shape(c, s)
    && s.start <= Cur(s) < s.start + c.blocks
    && Gen(c, Cur(s)) <= MAX_GENERATION
    && (forall q: nat :: s.start <= q < s.start + c.blocks && q != Cur(s) ==> OtherOk(c, s, q))
    && CurOk(c, s, s.blocks[Idx(c, Cur(s))], Gen(c, Cur(s)))
    && (s.owner.Opening? ==>
          s.blocks[Idx(c, Cur(s) + 1)].stealTail == Word(Before(Gen(c, Cur(s) + 1)), c.size)
          && Gen(c, Cur(s) + 1) <= MAX_GENERATION)
    && (s.owner.Testing? ==> Gen(c, Cur(s) + 1) <= MAX_GENERATION)
    && ((s.owner.GrantLoading? || s.owner.GrantSwapping? || s.owner.GrantStoring?) ==>
          Cur(s) + 1 < s.start + c.blocks && Gen(c, Cur(s) + 1) <= MAX_GENERATION)
  }

  /** The thieves that have claimed a slot of block `i` and not yet counted it. */
  ghost function Claimers(c: Config, s: State, i: nat): set<ThiefId>
    requires c.blocks > 0
  {
    set t | t in s.thieves && Claims(c, s.thieves[t], i)
  }

  predicate Claims(c: Config, pc: Thief, i: nat)
    requires c.blocks > 0
  {
    (pc.Reading? || pc.Counting?) && Idx(c, pc.at) == i
  }

  ghost predicate CountInv(c: Config, s: State) {
    && Shape(c, s)
    && forall i :: 0 <= i < |s.blocks| ==> s.blocks[i].stealCount + |Claimers(c, s, i)| == s.blocks[i].lo
  }

  // ------------------------------------------------------------ the window

  lemma Apart(c: Config, start: nat, x: nat)
    requires c.blocks > 0 && start <= x < start + c.blocks
    ensures forall q: nat :: start <= q < start + c.blocks && q != x ==> Idx(c, q) != Idx(c, x)
  {
    forall q: nat | start <= q < start + c.blocks && q != x
      ensures Idx(c, q) != Idx(c, x)
    {
      if q < x {
        DistinctWithinATurn(c, q, x);
      } else {
        DistinctWithinATurn(c, x, q);
      }
    }
  }

  // ------------------------------------------------------------ the owner keeps the ring

  lemma InitRing(c: Config)
    requires ValidConfig(c)
    ensures RingInv(c, Init(c)) && CountInv(c, Init(c))
  {
    var s := Init(c);
    forall i | 0 <= i < |s.blocks|
      ensures s.blocks[i].stealCount + |Claimers(c, s, i)| == s.blocks[i].lo
    {
      assert Claimers(c, s, i) == {};
    }
  }

  /** A step that leaves the owner in its block touches no other block of the window. */
  lemma Undisturbed(c: Config, s: State, s': State)
    requires RingInv(c, s) && Shape(c, s')
    requires s'.start == s.start && Cur(s') == Cur(s)
    requires forall i :: 0 <= i < c.blocks && i != Idx(c, Cur(s)) ==> s'.blocks[i] == s.blocks[i]
    ensures forall q: nat :: s.start <= q < s.start + c.blocks && q != Cur(s) ==> OtherOk(c, s', q)
  {
    Apart(c, s.start, Cur(s));
    forall q: nat | s.start <= q < s.start + c.blocks && q != Cur(s)
      ensures OtherOk(c, s', q)
    {
      assert OtherOk(c, s, q);
    }
  }

  predicate Reclaims(o: Owner) {
    o.Spinning? || o.ResetHead? || o.ResetTail? || o.ResetSteal? || o.ResetCount? || o.Landing?
  }

  predicate Pops(o: Owner) {
    o.Popping? || o.Shrinking? || o.ReduceLoading? || o.TakeSwapping? || o.TakeStoring? || o.Backing?
  }

  lemma OwnerReclaims(c: Config, s: State)
    requires RingInv(c, s) && CountInv(c, s) && Reclaims(s.owner)
    ensures RingInv(c, OwnerAct(c, s))
  {
    Undisturbed(c, s, OwnerAct(c, s));
    if s.owner.Spinning? {
      SpinEndsWithTheThieves(c, s);
    }
  }

  lemma OwnerPops(c: Config, s: State)
    requires RingInv(c, s) && Pops(s.owner)
    ensures RingInv(c, OwnerAct(c, s))
  {
    Undisturbed(c, s, OwnerAct(c, s));
  }

  lemma OwnerPuts(c: Config, s: State)
    requires RingInv(c, s) && (s.owner.Putting? || s.owner.Publishing?)
    ensures RingInv(c, OwnerAct(c, s))
  {
    Undisturbed(c, s, OwnerAct(c, s));
  }

  lemma OwnerStays(c: Config, s: State)
    requires RingInv(c, s)
    requires s.owner.Testing? || s.owner.GrantLoading? || s.owner.GrantSwapping?
    ensures RingInv(c, OwnerAct(c, s))
  {
    Undisturbed(c, s, OwnerAct(c, s));
  }

  lemma OwnerOpens(c: Config, s: State)
    requires RingInv(c, s) && s.owner.Opening?
    ensures RingInv(c, OwnerAct(c, s))
  {
    var s', x := OwnerAct(c, s), Cur(s);
    if Idx(c, x + 1) == Idx(c, s.start) {
      OpeningReusesTheOldest(c, s);
    }
    forall q: nat | s'.start <= q < s'.start + c.blocks && q != x
      ensures OtherOk(c, s', q)
    {
      assert q < s.start + c.blocks ==> OtherOk(c, s, q);
    }
  }

  lemma OwnerGrants(c: Config, s: State)
    requires RingInv(c, s) && s.owner.GrantStoring?
    ensures RingInv(c, OwnerAct(c, s))
  {
    var s', x := OwnerAct(c, s), Cur(s);
    Apart(c, s.start, x);
    assert OtherOk(c, s, x + 1);
    forall q: nat | s.start <= q < s.start + c.blocks && q != x + 1
      ensures OtherOk(c, s', q)
    {
      assert q != x ==> OtherOk(c, s, q);
    }
  }

  lemma OwnerRetreats(c: Config, s: State)
    requires RingInv(c, s) && s.owner.ReduceStoring?
    ensures RingInv(c, OwnerAct(c, s))
  {
    var s', x := OwnerAct(c, s), Cur(s);
    Apart(c, s.start, x);
    assert OtherOk(c, s, x - 1);
    GenGrows(c, x - 1);
    forall q: nat | s.start <= q < s.start + c.blocks && q != x - 1
      ensures OtherOk(c, s', q)
    {
      assert q != x ==> OtherOk(c, s, q);
    }
  }

  lemma OpeningReusesTheOldest(c: Config, s: State)
    requires RingInv(c, s) && s.owner.Opening?
    requires Idx(c, Cur(s) + 1) == Idx(c, s.start)
    ensures Cur(s) + 1 == s.start + c.blocks
    ensures Vacant(c, s.blocks[Idx(c, Cur(s) + 1)], Gen(c, Cur(s) + 1))
  {
    if Cur(s) + 1 < s.start + c.blocks {
      DistinctWithinATurn(c, s.start, Cur(s) + 1);
    }
    assert OtherOk(c, s, s.start);
  }

  /** reclaim stops waiting exactly when no thief holds a claim on the block. */
  lemma SpinEndsWithTheThieves(c: Config, s: State)
    requires RingInv(c, s) && CountInv(c, s) && s.owner.Spinning?
    ensures var b := s.blocks[Idx(c, Cur(s))];
      && b.head.slot - b.stealCount == |Claimers(c, s, Idx(c, Cur(s)))|
      && (b.stealCount == b.head.slot <==> Claimers(c, s, Idx(c, Cur(s))) == {})
  {
  }

  // ------------------------------------------------------------ thieves keep the ring

  /** Only a granted block shows a thief a slot below the block size. */
  lemma OpenBlocksAreGranted(c: Config, s: State, i: nat) returns (x: nat)
    requires RingInv(c, s) && i < c.blocks && s.blocks[i].stealTail.slot < c.size
    ensures s.start <= x <= Cur(s) && Idx(c, x) == i
    ensures x < Cur(s) || s.owner.TakeSwapping?
    ensures Granted(c, s.blocks[i], Gen(c, x))
  {
    x := Standing(c, s.start, i);
    assert x != Cur(s) ==> OtherOk(c, s, x);
  }

  predicate Wins(c: Config, s: State, t: ThiefId)
    requires c.blocks > 0 && |s.blocks| == c.blocks
  {
    var pc := ThiefAt(s, t);
    pc.Swapping? && s.blocks[Idx(c, pc.at)].stealTail == pc.spos && pc.spos.slot < c.size
  }

  lemma ThiefWins(c: Config, s: State, t: ThiefId)
    requires RingInv(c, s) && Wins(c, s, t)
    ensures RingInv(c, ThiefAct(c, s, t))
  {
    var s', i := ThiefAct(c, s, t), Idx(c, ThiefAt(s, t).at);
    var x := OpenBlocksAreGranted(c, s, i);
    ClaimKeepsRing(c, s, s', x);
  }

  /** Taking one slot off a granted block leaves it granted. */
  lemma ClaimKeepsRing(c: Config, s: State, s': State, x: nat)
    requires RingInv(c, s) && Shape(c, s')
    requires s.start <= x <= Cur(s) && (x < Cur(s) || s.owner.TakeSwapping?)
    requires var b := s.blocks[Idx(c, x)];
      && Granted(c, b, Gen(c, x)) && b.lo < c.size
      && s'.blocks == s.blocks[Idx(c, x) := b.(stealTail := Word(Gen(c, x), b.lo + 1), lo := b.lo + 1)]
    requires s'.start == s.start && s'.last == s.last && s'.owner == s.owner
    ensures RingInv(c, s')
  {
    Apart(c, s.start, x);
    forall q: nat | s.start <= q < s.start + c.blocks && q != Cur(s)
      ensures OtherOk(c, s', q)
    {
      assert OtherOk(c, s, q);
    }
  }

  lemma ThiefCounts(c: Config, s: State, t: ThiefId)
    requires RingInv(c, s) && CountInv(c, s) && ThiefAt(s, t).Counting?
    ensures RingInv(c, ThiefAct(c, s, t))
  {
    var s', i := ThiefAct(c, s, t), Idx(c, ThiefAt(s, t).at);
    var b := s.blocks[i];
    assert s'.blocks == s.blocks[i := b.(stealCount := b.stealCount + 1)];
    assert t in Claimers(c, s, i);
    CountIsNotPhase(c, s, s', i);
  }

  lemma CountIsNotPhase(c: Config, s: State, s': State, i: nat)
    requires RingInv(c, s) && Shape(c, s') && i < c.blocks
    requires s'.start == s.start && s'.last == s.last && s'.owner == s.owner
    requires s'.blocks == s.blocks[i := s.blocks[i].(stealCount := s'.blocks[i].stealCount)]
    requires s.blocks[i].stealCount != s.blocks[i].lo
    ensures RingInv(c, s')
  {
    forall q: nat | s.start <= q < s.start + c.blocks && q != Cur(s)
      ensures OtherOk(c, s', q)
    {
      assert OtherOk(c, s, q);
    }
  }

  /** Every other thief step changes nothing but the thief. */
  lemma ThiefLooks(c: Config, s: State, t: ThiefId)
    requires Shape(c, s) && !Wins(c, s, t) && !ThiefAt(s, t).Counting?
    ensures var s' := ThiefAct(c, s, t);
      && s' == s.(thieves := s'.thieves)
      && (s' == s || s' == SetThief(s, t, ThiefAt(s', t)))
      && forall i :: Claims(c, ThiefAt(s', t), i) <==> Claims(c, ThiefAt(s, t), i)
  {
  }

  lemma SameRing(c: Config, s: State, s': State)
    requires RingInv(c, s)
    requires s' == s.(thieves := s'.thieves)
    ensures RingInv(c, s')
  {
    forall q: nat | s.start <= q < s.start + c.blocks && q != Cur(s)
      ensures OtherOk(c, s', q)
    {
      assert OtherOk(c, s, q);
    }
  }

  // ------------------------------------------------------------ claims are counted exactly

  lemma ClaimersAfter(c: Config, s: State, t: ThiefId, pc: Thief, i: nat)
    requires c.blocks > 0
    ensures Claimers(c, SetThief(s, t, pc), i) ==
            if Claims(c, pc, i) then Claimers(c, s, i) + {t} else Claimers(c, s, i) - {t}
    ensures t in Claimers(c, s, i) <==> Claims(c, ThiefAt(s, t), i)
  {
  }

  predicate SameCounts(s: State, s': State) {
    && s'.thieves == s.thieves
    && |s'.blocks| == |s.blocks|
    && forall i :: 0 <= i < |s.blocks| ==>
         s'.blocks[i].stealCount == s.blocks[i].stealCount && s'.blocks[i].lo == s.blocks[i].lo
  }

  lemma PushKeepsCounts(c: Config, s: State)
    requires Shape(c, s)
    ensures SameCounts(s, PushAct(c, s))
  {
  }

  lemma PopKeepsCounts(c: Config, s: State)
    requires Shape(c, s)
    ensures SameCounts(s, PopAct(c, s))
  {
  }

  lemma OwnerKeepsCount(c: Config, s: State)
    requires RingInv(c, s) && CountInv(c, s)
    ensures CountInv(c, OwnerAct(c, s))
  {
    var s' := OwnerAct(c, s);
    PushKeepsCounts(c, s);
    PopKeepsCounts(c, s);
    forall i | 0 <= i < |s'.blocks|
      ensures s'.blocks[i].stealCount + |Claimers(c, s', i)| == s'.blocks[i].lo
    {
      assert Claimers(c, s', i) == Claimers(c, s, i);
    }
  }

  lemma ThiefKeepsCount(c: Config, s: State, t: ThiefId)
    requires CountInv(c, s)
    ensures CountInv(c, ThiefAct(c, s, t))
  {
    if Wins(c, s, t) {
      WinKeepsCount(c, s, t);
    } else if ThiefAt(s, t).Counting? {
      CountKeepsCount(c, s, t);
    } else {
      LookKeepsCount(c, s, t);
    }
  }

  lemma WinKeepsCount(c: Config, s: State, t: ThiefId)
    requires CountInv(c, s) && Wins(c, s, t)
    ensures CountInv(c, ThiefAct(c, s, t))
  {
    var s' := ThiefAct(c, s, t);
    forall i | 0 <= i < |s'.blocks|
      ensures s'.blocks[i].stealCount + |Claimers(c, s', i)| == s'.blocks[i].lo
    {
      ClaimersAfter(c, s, t, ThiefAt(s', t), i);
      assert Claimers(c, s', i) == Claimers(c, SetThief(s, t, ThiefAt(s', t)), i);
    }
  }

  lemma CountKeepsCount(c: Config, s: State, t: ThiefId)
    requires CountInv(c, s) && ThiefAt(s, t).Counting?
    ensures CountInv(c, ThiefAct(c, s, t))
  {
    var s' := ThiefAct(c, s, t);
    forall i | 0 <= i < |s'.blocks|
      ensures s'.blocks[i].stealCount + |Claimers(c, s', i)| == s'.blocks[i].lo
    {
      ClaimersAfter(c, s, t, Resting, i);
      assert Claimers(c, s', i) == Claimers(c, SetThief(s, t, Resting), i);
    }
  }

  lemma LookKeepsCount(c: Config, s: State, t: ThiefId)
    requires CountInv(c, s) && !Wins(c, s, t) && !ThiefAt(s, t).Counting?
    ensures CountInv(c, ThiefAct(c, s, t))
  {
    var s' := ThiefAct(c, s, t);
    ThiefLooks(c, s, t);
    forall i | 0 <= i < |s'.blocks|
      ensures s'.blocks[i].stealCount + |Claimers(c, s', i)| == s'.blocks[i].lo
    {
      ClaimersAfter(c, s, t, ThiefAt(s', t), i);
      assert Claimers(c, s', i) == Claimers(c, s, i);
    }
  }
}
