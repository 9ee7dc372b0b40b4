/** Order: in every schedule the slots, read from the oldest block to the newest, hold values in
    the order they were pushed.
 */
module BwosOrder {
  import opened Basics
  import opened BwosLayout
  import opened BwosSteps
  import opened BwosSafety
  import opened BwosConservation

  /** The value in slot `k` of the block that sequence `q` names. */
  predicate Holds(c: Config, s: State, q: nat, k: nat, v: Value)
    requires c.blocks > 0
  {
    Live(s, Idx(c, q), k) && s.blocks[Idx(c, q)].ring[k] == v
  }

  predicate Earlier(q: nat, k: nat, q': nat, k': nat) {
    q < q' || (q == q' && k < k')
  }

  predicate Windowed(c: Config, s: State, q: nat) {
    s.start <= q < s.start + c.blocks
  }

  ghost predicate Ordered(c: Config, s: State) {
    && Shape(c, s)
    && (forall q: nat, k: nat, v, q': nat, k': nat, v' ::
          && Windowed(c, s, q) && Windowed(c, s, q') && Holds(c, s, q, k, v) && Holds(c, s, q', k', v')
          && Earlier(q, k, q', k')
          ==> v < v')
    && (Carried(s.owner).Some? ==> Carried(s.owner).value == |s.place| - 1)
  }

  /** A step that only lets slots go keeps the order of the rest. */
  lemma FewerKeepOrder(c: Config, s: State, s': State)
    requires Ordered(c, s) && Shape(c, s')
    requires forall q: nat, k: nat, v ::
      Windowed(c, s', q) && Holds(c, s', q, k, v) ==> Windowed(c, s, q) && Holds(c, s, q, k, v)
    requires |s'.place| == |s.place|
    requires Carried(s'.owner).Some? ==> Carried(s'.owner) == Carried(s.owner)
    ensures Ordered(c, s')
  {
  }

  lemma HoldsIsPlaced(c: Config, s: State, q: nat, k: nat, v: Value)
    requires Placed(c, s)
    ensures Holds(c, s, q, k, v) <==> v in s.place && s.place[v] == InSlot(Idx(c, q), k)
  {
    assert Found(c, s, InSlot(Idx(c, q), k)) ==
      if Live(s, Idx(c, q), k) then Some(s.blocks[Idx(c, q)].ring[k]) else None;
  }

  /** A step that puts no value into a slot and keeps the window keeps the order. */
  lemma NoArrivalKeepsOrder(c: Config, s: State, s': State)
    requires Ordered(c, s) && Placed(c, s) && Placed(c, s')
    requires s'.start == s.start
    requires forall v :: v in s'.place && s'.place[v].InSlot? ==> v in s.place && s.place[v] == s'.place[v]
    requires |s'.place| == |s.place|
    requires Carried(s'.owner).Some? ==> Carried(s'.owner) == Carried(s.owner)
    ensures Ordered(c, s')
  {
    forall q: nat, k: nat, v | Windowed(c, s', q) && Holds(c, s', q, k, v)
      ensures Holds(c, s, q, k, v)
    {
      HoldsIsPlaced(c, s, q, k, v);
      HoldsIsPlaced(c, s', q, k, v);
    }
    FewerKeepOrder(c, s, s');
  }

  /** No value waits ahead of the owner. */
  lemma NothingAhead(c: Config, s: State)
    requires RingInv(c, s)
    ensures forall q: nat, k: nat, v: Value :: Windowed(c, s, q) && Holds(c, s, q, k, v) ==> q <= Cur(s)
  {
    forall q: nat, k: nat, v: Value | Windowed(c, s, q) && Holds(c, s, q, k, v)
      ensures q <= Cur(s)
    {
      assert q != Cur(s) ==> OtherOk(c, s, q);
    }
  }

  /** The newest value of all, put on top of the owner's block, keeps the order. */
  lemma TopKeepsOrder(c: Config, s: State, s': State, x: nat, v: Value)
    requires Ordered(c, s) && Placed(c, s) && Shape(c, s')
    requires s'.start == s.start && Windowed(c, s, x) && s'.place.Keys == s.place.Keys && Carried(s'.owner) == None
    requires forall w :: w in s.place ==> w <= v
    requires v in s.place && !s.place[v].InSlot?
    requires forall q: nat, k: nat, w: Value :: Windowed(c, s, q) && Holds(c, s, q, k, w) ==> q <= x
    requires forall q: nat, k: nat, w: Value :: Windowed(c, s, q) && Holds(c, s', q, k, w) ==>
               Holds(c, s, q, k, w) || (q == x && k == s.blocks[Idx(c, x)].tail && w == v)
    ensures Ordered(c, s')
  {
    assert |s'.place| == |s.place|;
    forall q: nat, k: nat, w: Value | Windowed(c, s, q) && Holds(c, s, q, k, w)
      ensures w < v && Earlier(q, k, x, s.blocks[Idx(c, x)].tail)
    {
      HoldsIsPlaced(c, s, q, k, w);
    }
    forall q: nat, k: nat, a: Value, q': nat, k': nat, b: Value |
      && Windowed(c, s', q) && Windowed(c, s', q') && Holds(c, s', q, k, a) && Holds(c, s', q', k', b)
      && Earlier(q, k, q', k')
      ensures a < b
    {
      if Holds(c, s, q, k, a) {
        assert Holds(c, s, q', k', b) || b == v;
      }
    }
  }

  lemma PublishKeepsOrder(c: Config, s: State)
    requires Inv(c, s) && Ordered(c, s) && s.owner.Publishing?
    ensures Ordered(c, OwnerAct(c, s))
  {
    var s', x := OwnerAct(c, s), Cur(s);
    assert Found(c, s, Argument) == Some(s.owner.v);
    NothingAhead(c, s);
    Apart(c, s.start, x);
    TopKeepsOrder(c, s, s', x, s.owner.v);
  }

  lemma OpenKeepsOrder(c: Config, s: State)
    requires RingInv(c, s) && Ordered(c, s) && s.owner.Opening?
    ensures Ordered(c, OwnerAct(c, s))
  {
    var s', x := OwnerAct(c, s), Cur(s);
    assert s'.blocks == s.blocks && s'.place == s.place;
    if Idx(c, x + 1) == Idx(c, s.start) {
      OpeningReusesTheOldest(c, s);
    }
    forall q: nat, k: nat, v: Value | Windowed(c, s', q) && Holds(c, s', q, k, v)
      ensures Windowed(c, s, q) && Holds(c, s, q, k, v)
    {
    }
    FewerKeepOrder(c, s, s');
  }

  lemma OwnerKeepsOrder(c: Config, s: State)
    requires Inv(c, s) && Ordered(c, s)
    ensures Ordered(c, OwnerAct(c, s))
  {
    var s' := OwnerAct(c, s);
    if s.owner.Publishing? {
      PublishKeepsOrder(c, s);
    } else if s.owner.Opening? {
      OpenKeepsOrder(c, s);
    } else {
      OwnerKeepsPlaces(c, s);
      OwnerMovesAtMostOut(c, s);
      NoArrivalKeepsOrder(c, s, s');
    }
  }

  predicate MovesOut(s: State, s': State) {
    && s'.start == s.start && s'.place.Keys == s.place.Keys
    && (forall v :: v in s'.place && s'.place[v].InSlot? ==> v in s.place && s.place[v] == s'.place[v])
    && (Carried(s'.owner).Some? ==> Carried(s'.owner) == Carried(s.owner))
  }

  lemma PushMovesOut(c: Config, s: State)
    requires Shape(c, s) && !s.owner.Publishing? && !s.owner.Opening?
    requires Carried(s.owner).Some? ==> Carried(s.owner).value in s.place
    ensures MovesOut(s, PushAct(c, s))
  {
  }

  lemma PopMovesOut(c: Config, s: State)
    requires Shape(c, s) && (s.owner.Shrinking? ==> s.owner.v in s.place)
    ensures MovesOut(s, PopAct(c, s))
  {
  }

  lemma OwnerMovesAtMostOut(c: Config, s: State)
    requires Inv(c, s) && !s.owner.Publishing? && !s.owner.Opening?
    ensures MovesOut(s, OwnerAct(c, s)) && |OwnerAct(c, s).place| == |s.place|
  {
    var i := Idx(c, Cur(s));
    assert Found(c, s, Argument) == Carried(s.owner);
    if s.owner.Shrinking? {
      assert Found(c, s, InSlot(i, s.blocks[i].tail - 1)) == Some(s.owner.v);
    }
    PushMovesOut(c, s);
    PopMovesOut(c, s);
    assert |OwnerAct(c, s).place| == |OwnerAct(c, s).place.Keys|;
  }

  lemma ThiefKeepsOrder(c: Config, s: State, t: ThiefId)
    requires Inv(c, s) && Ordered(c, s) && Placed(c, ThiefAct(c, s, t))
    ensures Ordered(c, ThiefAct(c, s, t))
  {
    var s' := ThiefAct(c, s, t);
    if Wins(c, s, t) {
      WinHitsAFullSlot(c, s, t);
      var i := Idx(c, ThiefAt(s, t).at);
      assert Found(c, s, InSlot(i, s.blocks[i].lo)) == Some(s.blocks[i].ring[s.blocks[i].lo]);
    } else if ThiefAt(s, t).Counting? {
      assert Found(c, s, Taken(t)) == Some(ThiefAt(s, t).v);
    } else {
      ThiefLooks(c, s, t);
    }
    assert s'.place.Keys == s.place.Keys;
    NoArrivalKeepsOrder(c, s, s');
  }
}
