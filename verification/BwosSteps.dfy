/** The block work-stealing queue as a transition system, one step per atomic access or slot
    access: one owner, any number of thieves, sequentially consistent memory.

    Loads of a location that only the loading thread ever writes (the owner's `tail`, `head`,
    `last_block` and `start_block`) are folded into the access that follows them.

    A pushed value is named by the number of the push call that brought it: values are moved,
    so each argument is one resource. `place` is bookkeeping: it says where each value is, and
    the invariant ties it to the words and slots the threads really use.
 */
module BwosSteps {
  import opened BwosLayout

  type Value = nat
  type ThiefId = nat

  /** `lo` is bookkeeping: the first slot of the block not yet claimed by a thief. */
  datatype Block = Block(head: Word, tail: nat, stealCount: nat, stealTail: Word, ring: seq<Value>, lo: nat)

  datatype Owner =
    | Free
    // push_back
    | Putting(v: Value, granted: bool)    // Block::put: about to write the slot at `tail`
    | Publishing(v: Value, granted: bool) // about to store tail + 1
    | Testing(v: Value)                   // is_writable: about to load the next steal_tail
    | Opening(v: Value)                   // about to advance start_block when its block is reused
    | GrantLoading(v: Value)              // grant: about to load steal_tail
    | GrantSwapping(v: Value, end: Word)  // about to swap head
    | GrantStoring(v: Value, kept: Word)   // about to store steal_tail
    | Spinning(v: Value)                  // reclaim: about to load steal_count
    | ResetHead(v: Value)
    | ResetTail(v: Value)
    | ResetSteal(v: Value)
    | ResetCount(v: Value)
    | Landing(v: Value)                   // about to store last_block
    // pop_back
    | Popping                             // Block::get: about to read the slot below `tail`
    | Shrinking(v: Value)                 // about to store tail - 1
    | ReduceLoading                       // reduce_generation: about to load steal_tail
    | ReduceStoring(w: Word)              // about to store it one generation back
    | TakeSwapping                        // takeover: about to swap the predecessor's steal_tail
    | TakeStoring(spos: Word)             // about to store the predecessor's head
    | Backing                             // about to store last_block
    | Crashed                             // a fail-fast panic in next_sequence / previous_sequence

  datatype Thief =
    | Resting
    | Loading(at: nat)                  // Block::steal: about to load steal_tail
    | Checking(at: nat, spos: Word)     // about to load tail
    | Swapping(at: nat, spos: Word)     // about to compare-exchange steal_tail
    | Reading(at: nat, slot: nat)       // won: about to read the slot
    | Counting(at: nat, v: Value)       // about to add one to steal_count
    | Moving(at: nat)                   // advance_steal_index: about to load last_block
    | Failed                            // a fail-fast panic in next_sequence

  datatype Place =
    | Argument                            // with the owner, inside push_back
    | Refused                             // handed back by push_back
    | InSlot(block: nat, slot: nat)
    | Taken(thief: ThiefId)               // with a thief, inside steal_front
    | Popped
    | Stolen

  datatype State = State(
    blocks: seq<Block>, start: nat, last: nat,
    owner: Owner, thieves: map<ThiefId, Thief>,
    place: map<Value, Place>, popped: seq<Value>, stolen: seq<Value>)

  /** What the environment may schedule next. */
  datatype Event = CallPush | CallPop | OwnerStep | CallSteal(t: ThiefId) | ThiefStep(t: ThiefId)

  function ThiefAt(s: State, t: ThiefId): Thief {
    if t in s.thieves then s.thieves[t] else Resting
  }

  /** The block the owner is working in, which `last_block` trails while the owner moves. */
  function Cur(s: State): int {
    match s.owner
    case Spinning(_) | ResetHead(_) | ResetTail(_) | ResetSteal(_) | ResetCount(_) | Landing(_) => s.last + 1
    case TakeSwapping | TakeStoring(_) | Backing => s.last - 1
    case _ => s.last
  }

  /** Index bounds only. Guards such as `w.slot < c.size` below make the step functions total;
      the invariant shows that they never fail. */
  ghost predicate Shape(c: Config, s: State) {
    && ValidConfig(c)
    && |s.blocks| == c.blocks
    && (forall i :: 0 <= i < |s.blocks| ==> |s.blocks[i].ring| == c.size && s.blocks[i].tail <= c.size)
    && Cur(s) >= 0
  }

  function EmptyBlock(c: Config): Block {
    Block(Word(MAX_GENERATION, c.size), c.size, c.size, Word(MAX_GENERATION, c.size), seq(c.size, _ => 0), c.size)
  }

  function FirstBlock(c: Config): Block {
    Block(Word(0, 0), 0, 0, Word(0, c.size), seq(c.size, _ => 0), 0)
  }

  /** `LifoQueue::new`: every block unused, block 0 reclaimed for generation 0. */
  function Init(c: Config): (s: State)
    requires ValidConfig(c)
    ensures Shape(c, s)
  {
    State([FirstBlock(c)] + seq(c.blocks - 1, _ => EmptyBlock(c)), 0, 0, Free, map[], map[], [], [])
  }

  function SetBlock(s: State, i: nat, b: Block): State
    requires i < |s.blocks|
  {
    s.(blocks := s.blocks[i := b])
  }

  function Act(c: Config, s: State, e: Event): (s': State)
    requires Shape(c, s)
    ensures Shape(c, s')
  {
    match e
    case CallPush =>
      if s.owner.Free? then
        var v := |s.place|;
        s.(owner := Putting(v, false), place := s.place[v := Argument])
      else s
    case CallPop => if s.owner.Free? then s.(owner := Popping) else s
    case OwnerStep => OwnerAct(c, s)
    case CallSteal(t) =>
      // load start_block
      if ThiefAt(s, t).Resting? then SetThief(s, t, Loading(s.start)) else s
    case ThiefStep(t) => ThiefAct(c, s, t)
  }

  function SetThief(s: State, t: ThiefId, pc: Thief): State {
    s.(thieves := s.thieves[t := pc])
  }

  function OwnerAct(c: Config, s: State): (s': State)
    requires Shape(c, s)
    ensures Shape(c, s')
  {
    match s.owner
    case Free | Crashed => s
    case Popping | Shrinking(_) | ReduceLoading | ReduceStoring(_)
       | TakeSwapping | TakeStoring(_) | Backing => PopAct(c, s)
    case Spinning(_) | ResetHead(_) | ResetTail(_) | ResetSteal(_) | ResetCount(_) | Landing(_) => ReclaimAct(c, s)
    case _ => PushAct(c, s)
  }

  /** `push_back` with `put`, `advance_put_index`, `is_writable` and `grant`. */
  function PushAct(c: Config, s: State): (s': State)
    requires Shape(c, s)
    ensures Shape(c, s')
  {
    var i := Idx(c, Cur(s));
    var b := s.blocks[i];
    var next := Cur(s) + 1;
    var nextGen := Gen(c, next);
    match s.owner
    case Putting(v, granted) =>
      if b.tail < c.size then
        SetBlock(s, i, b.(ring := b.ring[b.tail := v])).(owner := Publishing(v, granted))
      else if nextGen > MAX_GENERATION then
        s.(owner := Crashed)
      else
        s.(owner := Testing(v))
    case Publishing(v, granted) =>
      if b.tail < c.size then
        SetBlock(s, i, b.(tail := b.tail + 1)).(owner := Free, place := s.place[v := InSlot(i, b.tail)])
      else s
    case Testing(v) =>
      if s.blocks[Idx(c, next)].stealTail == Word(Before(nextGen), c.size) then s.(owner := Opening(v))
      else s.(owner := Free, place := s.place[v := Refused])
    case Opening(v) =>
      if Idx(c, next) == Idx(c, s.start) then
        if Gen(c, s.start + 1) > MAX_GENERATION then s.(owner := Crashed)
        else s.(start := s.start + 1, owner := GrantLoading(v))
      else s.(owner := GrantLoading(v))
    case GrantLoading(v) => s.(owner := GrantSwapping(v, b.stealTail))
    case GrantSwapping(v, end) => SetBlock(s, i, b.(head := end)).(owner := GrantStoring(v, b.head))
    case GrantStoring(v, kept) => SetBlock(s, i, b.(stealTail := kept)).(owner := Spinning(v))
    case _ => s
  }

  /** `reclaim`, then the store of `last_block` that ends `advance_put_index`. */
  function ReclaimAct(c: Config, s: State): (s': State)
    requires Shape(c, s)
    ensures Shape(c, s')
  {
    var i := Idx(c, Cur(s));
    var b := s.blocks[i];
    match s.owner
    case Spinning(v) => if b.stealCount == b.head.slot then s.(owner := ResetHead(v)) else s
    case ResetHead(v) => SetBlock(s, i, b.(head := Word(Gen(c, Cur(s)), 0))).(owner := ResetTail(v))
    case ResetTail(v) => SetBlock(s, i, b.(tail := 0)).(owner := ResetSteal(v))
    case ResetSteal(v) => SetBlock(s, i, b.(stealTail := Word(Gen(c, Cur(s)), c.size))).(owner := ResetCount(v))
    case ResetCount(v) => SetBlock(s, i, b.(stealCount := 0, lo := 0)).(owner := Landing(v))
    case Landing(v) => s.(last := s.last + 1, owner := Putting(v, true))
    case _ => s
  }

  /** `pop_back` with `get`, `advance_get_index`, `reduce_generation` and `takeover`. */
  function PopAct(c: Config, s: State): (s': State)
    requires Shape(c, s)
    ensures Shape(c, s')
  {
    var i := Idx(c, Cur(s));
    var b := s.blocks[i];
    match s.owner
    case Popping =>
      if b.tail == 0 || b.head.slot == b.tail then
        if s.start == s.last then s.(owner := Free)
        else if s.last == 0 then s.(owner := Crashed)
        else s.(owner := ReduceLoading)
      else s.(owner := Shrinking(b.ring[b.tail - 1]))
    case Shrinking(v) =>
      if b.tail > 0 then
        SetBlock(s, i, b.(tail := b.tail - 1)).(owner := Free, place := s.place[v := Popped], popped := s.popped + [v])
      else s
    case ReduceLoading => s.(owner := ReduceStoring(b.stealTail))
    case ReduceStoring(w) =>
      if s.last == 0 then s.(owner := Crashed)
      else SetBlock(s, i, b.(stealTail := Word(Before(w.gen), w.slot))).(owner := TakeSwapping)
    case TakeSwapping => SetBlock(s, i, b.(stealTail := b.head)).(owner := TakeStoring(b.stealTail))
    case TakeStoring(spos) => SetBlock(s, i, b.(head := spos)).(owner := Backing)
    case Backing => s.(last := s.last - 1, owner := Popping)
    case _ => s
  }

  function ThiefAct(c: Config, s: State, t: ThiefId): (s': State)
    requires Shape(c, s)
    ensures Shape(c, s')
  {
    match ThiefAt(s, t)
    case Resting | Failed => s
    case Loading(q) =>
      var w := s.blocks[Idx(c, q)].stealTail;
      if w.gen != Gen(c, q) then SetThief(s, t, Resting)       // Steal::Empty
      else if w.slot == c.size then SetThief(s, t, Moving(q))  // Steal::Done
      else SetThief(s, t, Checking(q, w))
    case Checking(q, w) =>
      if w.slot == s.blocks[Idx(c, q)].tail then SetThief(s, t, Resting)
      else SetThief(s, t, Swapping(q, w))
    case Swapping(q, w) =>
      var i := Idx(c, q);
      var b := s.blocks[i];
      if b.stealTail == w && w.slot < c.size then
        var v := b.ring[w.slot];
        SetThief(SetBlock(s, i, b.(stealTail := Word(w.gen, w.slot + 1), lo := b.lo + 1)), t, Reading(q, w.slot))
        .(place := s.place[v := Taken(t)])
      else SetThief(s, t, Loading(q))                          // Steal::Conflict
    case Reading(q, k) =>
      if k < c.size then SetThief(s, t, Counting(q, s.blocks[Idx(c, q)].ring[k])) else s
    case Counting(q, v) =>
      var i := Idx(c, q);
      var b := s.blocks[i];
      SetThief(SetBlock(s, i, b.(stealCount := b.stealCount + 1)), t, Resting)
      .(place := s.place[v := Stolen], stolen := s.stolen + [v])
    case Moving(q) =>
      if Gen(c, q + 1) > MAX_GENERATION then SetThief(s, t, Failed)
      else if q + 1 < s.last then SetThief(s, t, Loading(q + 1))
      else SetThief(s, t, Resting)
  }

  ghost predicate Step(c: Config, s: State, s': State) {
    Shape(c, s) && exists e :: s' == Act(c, s, e)
  }

  /** A finite run: an initial state, then one event after another, in any order. */
  ghost predicate IsRun(c: Config, run: seq<State>) {
    && ValidConfig(c) && |run| > 0 && run[0] == Init(c)
    && forall i :: 0 <= i < |run| - 1 ==> Step(c, run[i], run[i + 1])
  }

  ghost predicate Reachable(c: Config, s: State) {
    Shape(c, s) && exists run :: IsRun(c, run) && run[|run| - 1] == s
  }
}
