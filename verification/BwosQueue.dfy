/** The block work-stealing queue with its operations taken one at a time: a class that updates
    blocks in place and refines a bounded double-ended queue.
 */
module BwosQueue {
  import opened Basics
  import opened BwosLayout

  /** A slot holds a value or nothing; reading a slot moves its value out. */
  datatype Slot<T> = Uninit | Written(value: T)

  datatype Block<T> = Block(head: Word, tail: nat, stealCount: nat, stealTail: Word, ring: seq<Slot<T>>)

  datatype Pushed<T> =
    | Local
    | Granted
    | Refused(back: T)
    | Exhausted          // the fail-fast panic of next_sequence

  datatype Stolen<T> = Taken(value: T) | Nothing | OutOfSequences

  /** Exactly the slots from `lo` up to `hi` hold a value. */
  predicate Filled<T>(b: Block<T>, size: nat, lo: nat, hi: nat) {
    lo <= hi <= size == |b.ring| && forall k :: 0 <= k < size ==> (b.ring[k].Written? <==> lo <= k < hi)
  }

  /** The block the owner works in: taken values below `head`, live ones up to `tail`. */
  predicate IsActive<T>(c: Config, b: Block<T>, g: nat) {
    && b.head == Word(g, b.stealCount)
    && b.stealTail == Word(g, c.size)
    && Filled(b, c.size, b.stealCount, b.tail)
  }

  /** A block handed to the thieves: full, except for what they took from its front. */
  predicate IsGranted<T>(c: Config, b: Block<T>, g: nat) {
    && b.head == Word(g, c.size)
    && b.stealTail == Word(g, b.stealCount)
    && b.tail == c.size
    && Filled(b, c.size, b.stealCount, c.size)
  }

  /** A block that generation `g` may write into next. */
  predicate IsVacant<T>(c: Config, b: Block<T>, g: nat) {
    && b.head.slot == b.stealCount
    && b.stealTail == Word(Before(g), c.size)
    && Filled(b, c.size, 0, 0)
  }

  /** The block of sequence `q`, when the owner is at `last`. */
  predicate InOrder<T>(c: Config, b: Block<T>, q: nat, last: nat)
    requires c.blocks > 0
  {
    if q < last then IsGranted(c, b, Gen(c, q))
    else if q == last then IsActive(c, b, Gen(c, q))
    else IsVacant(c, b, Gen(c, q))
  }

  function BlockOf<T>(c: Config, bs: seq<Block<T>>, q: nat): Block<T>
    requires c.blocks > 0 && |bs| == c.blocks
  {
    bs[Idx(c, q)]
  }

  ghost predicate Ring<T>(c: Config, bs: seq<Block<T>>, start: nat, last: nat) {
    && ValidConfig(c) && |bs| == c.blocks
    && start <= last <= start + c.blocks - 1
    && Gen(c, last) <= MAX_GENERATION
    && forall q :: start <= q < start + c.blocks ==> InOrder(c, BlockOf(c, bs, q), q, last)
  }

  /** The live slots of a block in use: one of its two boundaries stands at their front. */
  function Live<T>(b: Block<T>): seq<Slot<T>> {
    if b.stealCount <= b.tail <= |b.ring| then b.ring[b.stealCount..b.tail] else []
  }

  function Join<X>(parts: seq<seq<X>>): seq<X> {
    if parts == [] then [] else parts[0] + Join(parts[1..])
  }

  function Lives<T>(c: Config, bs: seq<Block<T>>, a: nat, z: nat): seq<seq<Slot<T>>>
    requires c.blocks > 0 && |bs| == c.blocks && a <= z
  {
    seq(z - a, k requires 0 <= k < z - a => Live(BlockOf(c, bs, a + k)))
  }

  /** The live slots of the blocks from `a` up to, not including, `z`, oldest first. */
  function Flat<T>(c: Config, bs: seq<Block<T>>, a: nat, z: nat): seq<Slot<T>>
    requires c.blocks > 0 && |bs| == c.blocks && a <= z
  {
    Join(Lives(c, bs, a, z))
  }

  lemma {:induction false} JoinAppend<X>(p: seq<seq<X>>, r: seq<seq<X>>)
    ensures Join(p + r) == Join(p) + Join(r)
  {
    if p == [] {
      assert p + r == r;
    } else {
      JoinAppend(p[1..], r);
      assert (p + r)[1..] == p[1..] + r;
    }
  }

  lemma FlatAround<T>(c: Config, bs: seq<Block<T>>, a: nat, q: nat, z: nat)
    requires c.blocks > 0 && |bs| == c.blocks && a <= q < z
    ensures Flat(c, bs, a, z) == Flat(c, bs, a, q) + Live(BlockOf(c, bs, q)) + Flat(c, bs, q + 1, z)
  {
    var live := Live(BlockOf(c, bs, q));
    assert Lives(c, bs, a, z) == (Lives(c, bs, a, q) + [live]) + Lives(c, bs, q + 1, z);
    JoinAppend(Lives(c, bs, a, q) + [live], Lives(c, bs, q + 1, z));
    JoinAppend(Lives(c, bs, a, q), [live]);
    assert Join([live]) == live;
  }

  lemma FlatNone<T>(c: Config, bs: seq<Block<T>>, a: nat)
    requires c.blocks > 0 && |bs| == c.blocks
    ensures Flat(c, bs, a, a) == []
  {
  }

  lemma FlatLast<T>(c: Config, bs: seq<Block<T>>, a: nat, z: nat)
    requires c.blocks > 0 && |bs| == c.blocks && a <= z
    ensures Flat(c, bs, a, z + 1) == Flat(c, bs, a, z) + Live(BlockOf(c, bs, z))
  {
    FlatAround(c, bs, a, z, z + 1);
    FlatNone(c, bs, z + 1);
  }

  lemma FlatSame<T>(c: Config, bs: seq<Block<T>>, bs': seq<Block<T>>, a: nat, z: nat)
    requires c.blocks > 0 && |bs| == |bs'| == c.blocks && a <= z
    requires forall q :: a <= q < z ==> Live(BlockOf(c, bs', q)) == Live(BlockOf(c, bs, q))
    ensures Flat(c, bs', a, z) == Flat(c, bs, a, z)
  {
    assert Lives(c, bs', a, z) == Lives(c, bs, a, z);
  }

  // ------------------------------------------------------------ changing one block

  lemma OtherBlocks<T>(c: Config, bs: seq<Block<T>>, x: nat, b: Block<T>, q: nat)
    requires c.blocks > 0 && |bs| == c.blocks && q != x && q < x + c.blocks && x < q + c.blocks
    ensures BlockOf(c, bs[Idx(c, x) := b], q) == BlockOf(c, bs, q)
  {
    if q < x { DistinctWithinATurn(c, q, x); } else { DistinctWithinATurn(c, x, q); }
  }

  lemma RingWith<T>(c: Config, bs: seq<Block<T>>, start: nat, last: nat, x: nat, b: Block<T>)
    requires Ring(c, bs, start, last) && start <= x < start + c.blocks && InOrder(c, b, x, last)
    ensures Ring(c, bs[Idx(c, x) := b], start, last)
  {
    var bs' := bs[Idx(c, x) := b];
    forall q | start <= q < start + c.blocks ensures InOrder(c, BlockOf(c, bs', q), q, last) {
      if q != x {
        OtherBlocks(c, bs, x, b, q);
        assert InOrder(c, BlockOf(c, bs, q), q, last);
      }
    }
  }

  // ------------------------------------------------------------ the owner moves

  /** `grant` and `takeover`: the two boundaries change places. */
  function Swapped<T>(b: Block<T>): Block<T> {
    b.(head := b.stealTail, stealTail := b.head)
  }

  function Reclaim<T>(c: Config, b: Block<T>, g: nat): Block<T> {
    b.(head := Word(g, 0), tail := 0, stealTail := Word(g, c.size), stealCount := 0)
  }

  /** The blocks after `advance_put_index` from `last`. */
  function Advanced<T>(c: Config, bs: seq<Block<T>>, last: nat): (r: seq<Block<T>>)
    requires c.blocks > 0 && |bs| == c.blocks
  {
    bs[Idx(c, last) := Swapped(BlockOf(c, bs, last))]
      [Idx(c, last + 1) := Reclaim(c, BlockOf(c, bs, last + 1), Gen(c, last + 1))]
  }

  lemma AdvancedBlocks<T>(c: Config, bs: seq<Block<T>>, last: nat, q: nat)
    requires c.blocks > 1 && |bs| == c.blocks
    requires q < last + c.blocks && last + 1 < q + c.blocks
    ensures BlockOf(c, Advanced(c, bs, last), q)
         == if q == last + 1 then Reclaim(c, BlockOf(c, bs, q), Gen(c, q))
            else if q == last then Swapped(BlockOf(c, bs, q)) else BlockOf(c, bs, q)
  {
    var mid := bs[Idx(c, last) := Swapped(BlockOf(c, bs, last))];
    if q != last + 1 {
      OtherBlocks(c, mid, last + 1, Reclaim(c, BlockOf(c, bs, last + 1), Gen(c, last + 1)), q);
    }
    if q != last {
      OtherBlocks(c, bs, last, Swapped(BlockOf(c, bs, last)), q);
    }
  }

  /** The owner may move on: its block is full, and the next one is free or has been emptied. */
  ghost predicate MayAdvance<T>(c: Config, bs: seq<Block<T>>, start: nat, last: nat)
    requires Ring(c, bs, start, last)
  {
    && BlockOf(c, bs, last).tail == c.size
    && Gen(c, last + 1) <= MAX_GENERATION
    && (last + 1 == start + c.blocks ==> Live(BlockOf(c, bs, start)) == [])
  }

  /** `start_block` moves with the reuse of its block. */
  function Start(c: Config, start: nat, last: nat): nat {
    if last + 1 < start + c.blocks then start else start + 1
  }

  lemma NextIsVacant<T>(c: Config, bs: seq<Block<T>>, start: nat, last: nat)
    requires Ring(c, bs, start, last)
    ensures BlockOf(c, bs, last + 1).stealTail == Word(Before(Gen(c, last + 1)), c.size)
        <==> (last + 1 == start + c.blocks ==> Live(BlockOf(c, bs, start)) == [])
    ensures MayAdvance(c, bs, start, last) ==> IsVacant(c, BlockOf(c, bs, last + 1), Gen(c, last + 1))
    ensures Idx(c, last + 1) == Idx(c, start) <==> last + 1 == start + c.blocks
  {
    if last + 1 < start + c.blocks {
      assert InOrder(c, BlockOf(c, bs, last + 1), last + 1, last);
      DistinctWithinATurn(c, start, last + 1);
    } else {
      assert InOrder(c, BlockOf(c, bs, start), start, last);
    }
  }

  lemma AdvancedRing<T>(c: Config, bs: seq<Block<T>>, start: nat, last: nat)
    requires Ring(c, bs, start, last) && MayAdvance(c, bs, start, last)
    ensures Ring(c, Advanced(c, bs, last), Start(c, start, last), last + 1)
  {
    var bs', s' := Advanced(c, bs, last), Start(c, start, last);
    forall q | s' <= q < s' + c.blocks ensures InOrder(c, BlockOf(c, bs', q), q, last + 1) {
      AdvancedBlocks(c, bs, last, q);
      if q == last + 1 {
        NextIsVacant(c, bs, start, last);
      } else {
        assert InOrder(c, BlockOf(c, bs, q), q, last);
      }
    }
  }

  lemma AdvancedBody<T>(c: Config, bs: seq<Block<T>>, a: nat, last: nat)
    requires c.blocks > 1 && |bs| == c.blocks && a <= last + 1 < a + c.blocks
    ensures Flat(c, Advanced(c, bs, last), a, last + 1) == Flat(c, bs, a, last + 1)
  {
    var bs' := Advanced(c, bs, last);
    forall q | a <= q < last + 1 ensures Live(BlockOf(c, bs', q)) == Live(BlockOf(c, bs, q)) {
      AdvancedBlocks(c, bs, last, q);
    }
    FlatSame(c, bs, bs', a, last + 1);
  }

  lemma AdvancedTail<T>(c: Config, bs: seq<Block<T>>, a: nat, last: nat)
    requires c.blocks > 1 && |bs| == c.blocks && a <= last + 1 < a + c.blocks
    ensures Flat(c, Advanced(c, bs, last), a, last + 2) == Flat(c, Advanced(c, bs, last), a, last + 1)
  {
    AdvancedBlocks(c, bs, last, last + 1);
    FlatLast(c, Advanced(c, bs, last), a, last + 1);
  }

  lemma AdvancedFlat<T>(c: Config, bs: seq<Block<T>>, start: nat, last: nat)
    requires Ring(c, bs, start, last) && MayAdvance(c, bs, start, last)
    ensures Flat(c, bs, Start(c, start, last), last + 1) == Flat(c, bs, start, last + 1)
  {
    if Start(c, start, last) != start {
      FlatAround(c, bs, start, start, last + 1);
      FlatNone(c, bs, start);
    }
  }

  lemma AdvancedQueue<T>(c: Config, bs: seq<Block<T>>, start: nat, last: nat,
                         bs': seq<Block<T>>, start': nat, last': nat)
    requires Ring(c, bs, start, last) && MayAdvance(c, bs, start, last)
    requires last' == last + 1 && start' == Start(c, start, last) && bs' == Advanced(c, bs, last)
    ensures Ring(c, bs', start', last') && BlockOf(c, bs', last').tail == 0
    ensures Flat(c, bs', start', last' + 1) == Flat(c, bs', start', last') == Flat(c, bs, start, last + 1)
  {
    AdvancedRing(c, bs, start, last);
    AdvancedFlat(c, bs, start, last);
    AdvancedBody(c, bs, start', last);
    AdvancedTail(c, bs, start', last);
    AdvancedBlocks(c, bs, last, last + 1);
  }

  /** The blocks after `advance_get_index` from `last`. */
  function Retreated<T>(c: Config, bs: seq<Block<T>>, last: nat): (r: seq<Block<T>>)
    requires c.blocks > 0 && |bs| == c.blocks && last > 0
  {
    var b := BlockOf(c, bs, last);
    bs[Idx(c, last) := b.(stealTail := Word(Before(b.stealTail.gen), b.stealTail.slot))]
      [Idx(c, last - 1) := Swapped(BlockOf(c, bs, last - 1))]
  }

  lemma RetreatedBlocks<T>(c: Config, bs: seq<Block<T>>, last: nat, q: nat)
    requires c.blocks > 1 && |bs| == c.blocks && last > 0
    requires q < last - 1 + c.blocks && last < q + c.blocks
    ensures BlockOf(c, Retreated(c, bs, last), q)
         == var b := BlockOf(c, bs, q);
            if q == last then b.(stealTail := Word(Before(b.stealTail.gen), b.stealTail.slot))
            else if q == last - 1 then Swapped(b) else b
  {
    var b := BlockOf(c, bs, last);
    var b' := b.(stealTail := Word(Before(b.stealTail.gen), b.stealTail.slot));
    if q != last {
      OtherBlocks(c, bs, last, b', q);
    }
    if q != last - 1 {
      OtherBlocks(c, bs[Idx(c, last) := b'], last - 1, Swapped(BlockOf(c, bs, last - 1)), q);
    }
  }

  lemma RetreatedRing<T>(c: Config, bs: seq<Block<T>>, start: nat, last: nat)
    requires Ring(c, bs, start, last) && start < last && Live(BlockOf(c, bs, last)) == []
    ensures Ring(c, Retreated(c, bs, last), start, last - 1)
    ensures Flat(c, Retreated(c, bs, last), start, last) == Flat(c, bs, start, last + 1)
  {
    var bs' := Retreated(c, bs, last);
    forall q | start <= q < start + c.blocks ensures InOrder(c, BlockOf(c, bs', q), q, last - 1) {
      assert InOrder(c, BlockOf(c, bs, q), q, last);
      RetreatedBlocks(c, bs, last, q);
    }
    forall q | start <= q < last ensures Live(BlockOf(c, bs', q)) == Live(BlockOf(c, bs, q)) {
      RetreatedBlocks(c, bs, last, q);
    }
    FlatSame(c, bs, bs', start, last);
    FlatLast(c, bs, start, last);
    GenGrows(c, last - 1);
  }

  // ------------------------------------------------------------ one value moves

  /** `put`: a value written at `tail`. */
  function Grown<T>(b: Block<T>, v: T): Block<T>
    requires b.tail < |b.ring|
  {
    b.(ring := b.ring[b.tail := Written(v)], tail := b.tail + 1)
  }

  /** `get`: the value below `tail` moved out. */
  function Shrunk<T>(b: Block<T>): Block<T>
    requires 0 < b.tail <= |b.ring|
  {
    b.(ring := b.ring[b.tail - 1 := Uninit], tail := b.tail - 1)
  }

  /** `steal`: the value at the thieves' boundary moved out and counted. */
  function Bitten<T>(b: Block<T>): Block<T>
    requires b.stealTail.slot < |b.ring|
  {
    var k := b.stealTail.slot;
    b.(ring := b.ring[k := Uninit], stealTail := Word(b.stealTail.gen, k + 1), stealCount := b.stealCount + 1)
  }

  lemma GrownIsActive<T>(c: Config, b: Block<T>, g: nat, v: T)
    requires IsActive(c, b, g) && b.tail < c.size
    ensures IsActive(c, Grown(b, v), g) && Live(Grown(b, v)) == Live(b) + [Written(v)] && b.ring[b.tail].Uninit?
  {
  }

  lemma ShrunkIsActive<T>(c: Config, b: Block<T>, g: nat)
    requires IsActive(c, b, g)
    ensures b.tail == 0 || b.head.slot == b.tail <==> Live(b) == []
    ensures Live(b) != [] ==> 0 < b.tail <= |b.ring| && b.ring[b.tail - 1].Written? && IsActive(c, Shrunk(b), g)
    ensures Live(b) != [] ==> Live(b) == Live(Shrunk(b)) + [b.ring[b.tail - 1]]
  {
  }

  lemma BittenIsGranted<T>(c: Config, b: Block<T>, g: nat)
    requires IsGranted(c, b, g) && b.stealTail.slot < c.size
    ensures IsGranted(c, Bitten(b), g) && b.ring[b.stealTail.slot].Written?
    ensures Live(b) == [b.ring[b.stealTail.slot]] + Live(Bitten(b))
  {
  }

  /** When one block of the window changes, the contents change there and nowhere else. */
  lemma FlatChanged<T>(c: Config, bs: seq<Block<T>>, start: nat, last: nat, q: nat, b: Block<T>)
    requires c.blocks > 0 && |bs| == c.blocks && start <= q <= last < start + c.blocks
    ensures Flat(c, bs[Idx(c, q) := b], start, last + 1) ==
      Flat(c, bs, start, q) + Live(b) + Flat(c, bs, q + 1, last + 1)
  {
    FlatAround(c, bs[Idx(c, q) := b], start, q, last + 1);
    FlatBeside(c, bs, q, b, start, q);
    FlatBeside(c, bs, q, b, q + 1, last + 1);
  }

  lemma FlatBeside<T>(c: Config, bs: seq<Block<T>>, q: nat, b: Block<T>, a: nat, z: nat)
    requires c.blocks > 0 && |bs| == c.blocks && a <= z && (z <= q < a + c.blocks || (q < a && z <= q + c.blocks))
    ensures Flat(c, bs[Idx(c, q) := b], a, z) == Flat(c, bs, a, z)
  {
    var bs' := bs[Idx(c, q) := b];
    forall x | a <= x < z ensures Live(BlockOf(c, bs', x)) == Live(BlockOf(c, bs, x)) {
      OtherBlocks(c, bs, q, b, x);
    }
    FlatSame(c, bs, bs', a, z);
  }

  lemma PutAtBack<T>(c: Config, bs: seq<Block<T>>, start: nat, last: nat, v: T)
    requires Ring(c, bs, start, last) && BlockOf(c, bs, last).tail < c.size
    ensures BlockOf(c, bs, last).tail < |BlockOf(c, bs, last).ring|
    ensures var bs' := bs[Idx(c, last) := Grown(BlockOf(c, bs, last), v)];
      && Ring(c, bs', start, last) && Flat(c, bs', start, last + 1) == Flat(c, bs, start, last + 1) + [Written(v)]
      && Flat(c, bs', start, last) == Flat(c, bs, start, last)
  {
    var b := BlockOf(c, bs, last);
    assert InOrder(c, b, last, last);
    GrownIsActive(c, b, Gen(c, last), v);
    RingWith(c, bs, start, last, last, Grown(b, v));
    FlatAround(c, bs, start, last, last + 1);
    FlatChanged(c, bs, start, last, last, Grown(b, v));
    FlatNone(c, bs, last + 1);
    FlatBeside(c, bs, last, Grown(b, v), start, last);
  }

  lemma GetFromBack<T>(c: Config, bs: seq<Block<T>>, start: nat, last: nat)
    requires Ring(c, bs, start, last) && Live(BlockOf(c, bs, last)) != []
    ensures 0 < BlockOf(c, bs, last).tail <= |BlockOf(c, bs, last).ring|
    ensures var b := BlockOf(c, bs, last);
      var bs' := bs[Idx(c, last) := Shrunk(b)];
      Ring(c, bs', start, last) && Flat(c, bs, start, last + 1) == Flat(c, bs', start, last + 1) + [b.ring[b.tail - 1]]
  {
    var b := BlockOf(c, bs, last);
    assert InOrder(c, b, last, last);
    ShrunkIsActive(c, b, Gen(c, last));
    RingWith(c, bs, start, last, last, Shrunk(b));
    FlatAround(c, bs, start, last, last + 1);
    FlatChanged(c, bs, start, last, last, Shrunk(b));
    FlatNone(c, bs, last + 1);
  }

  /** Taking from the front of the first granted block that is not empty. */
  lemma StealFromFront<T>(c: Config, bs: seq<Block<T>>, start: nat, last: nat, q: nat)
    requires Ring(c, bs, start, last) && start <= q < last && Flat(c, bs, start, q) == []
    requires BlockOf(c, bs, q).stealTail.slot < c.size
    ensures BlockOf(c, bs, q).stealTail.slot < |BlockOf(c, bs, q).ring|
    ensures var b := BlockOf(c, bs, q);
      var bs' := bs[Idx(c, q) := Bitten(b)];
      && Ring(c, bs', start, last)
      && Flat(c, bs, start, last + 1) == [b.ring[b.stealTail.slot]] + Flat(c, bs', start, last + 1)
  {
    var b := BlockOf(c, bs, q);
    assert InOrder(c, b, q, last);
    BittenIsGranted(c, b, Gen(c, q));
    RingWith(c, bs, start, last, q, Bitten(b));
    FlatAround(c, bs, start, q, last + 1);
    FlatChanged(c, bs, start, last, q, Bitten(b));
  }

  // ------------------------------------------------------------ the queue

  class LifoQueue<T> {
    const c: Config
    const blocks: array<Block<T>>
    var start: nat
    var last: nat

    ghost predicate Valid()
      reads this, blocks
    {
      Ring(c, blocks[..], start, last)
    }

    /** Everything in the queue, oldest first. */
    ghost function Contents(): seq<Slot<T>>
      requires Valid()
      reads this, blocks
    {
      Flat(c, blocks[..], start, last + 1)
    }

    constructor (numBlocks: nat, blockSize: nat)
      requires ValidConfig(Config(numBlocks, blockSize))
      ensures Valid() && fresh(blocks) && c == Config(numBlocks, blockSize)
      ensures Contents() == []
    {
      c := Config(numBlocks, blockSize);
      start, last := 0, 0;
      var full := Word(MAX_GENERATION, blockSize);
      var unused: Block<T> := Block(full, blockSize, blockSize, full, seq(blockSize, _ => Uninit));
      blocks := new Block<T>[numBlocks](_ => unused);
      new;
      blocks[0] := Reclaim(c, blocks[0], 0);
      forall q | 0 <= q < c.blocks ensures InOrder(c, BlockOf(c, blocks[..], q), q, 0) {
        assert Idx(c, q) == q;
      }
      FlatLast(c, blocks[..], 0, 0);
      FlatNone(c, blocks[..], 0);
    }

    /** The owner's block has no slot left. */
    ghost predicate ActiveFull()
      requires Valid()
      reads this, blocks
    {
      BlockOf(c, blocks[..], last).tail == c.size
    }

    /** The window spans every block and the oldest one still holds something. */
    ghost predicate NoRoomAhead()
      requires Valid()
      reads this, blocks
    {
      last + 1 == start + c.blocks && Live(BlockOf(c, blocks[..], start)) != []
    }

    /** What thieves can see: everything but the owner's block. */
    ghost function Exposed(): seq<Slot<T>>
      requires Valid()
      reads this, blocks
    {
      Flat(c, blocks[..], start, last)
    }

    /** The second half of `advance_put_index`: grant this block and reclaim the next. Nothing is
        left to wait for in `reclaim`: the thieves that took from the block have all counted
        themselves. */
    method EnterNext()
      requires Valid() && MayAdvance(c, blocks[..], start, last)
      modifies this, blocks
      ensures Valid() && !ActiveFull()
      ensures Contents() == Exposed() == old(Contents())
    {
      ghost var bs := blocks[..];
      NextIsVacant(c, bs, start, last);
      DistinctWithinATurn(c, last, last + 1);
      var i, next := Idx(c, last), Idx(c, last + 1);
      assert BlockOf(c, bs, last + 1).stealCount == BlockOf(c, bs, last + 1).head.slot;
      if next == Idx(c, start) {
        start := start + 1;
      }
      blocks[i] := Swapped(blocks[i]);
      assert blocks[..] == bs[i := Swapped(bs[i])];
      blocks[next] := Reclaim(c, blocks[next], Gen(c, last + 1));
      assert blocks[..] == bs[i := Swapped(bs[i])][next := Reclaim(c, bs[next], Gen(c, last + 1))];
      last := last + 1;
      AdvancedQueue(c, bs, old(start), old(last), blocks[..], start, last);
    }

    /** `advance_put_index`. */
    method AdvancePut() returns (moved: bool)
      requires Valid() && ActiveFull() && Gen(c, last + 1) <= MAX_GENERATION
      modifies this, blocks
      ensures Valid() && Contents() == old(Contents())
      ensures moved <==> !old(NoRoomAhead())
      ensures moved ==> !ActiveFull() && Exposed() == old(Contents())
      ensures !moved ==> start == old(start) && last == old(last) && blocks[..] == old(blocks[..])
    {
      NextIsVacant(c, blocks[..], start, last);
      var next := Idx(c, last + 1);
      if blocks[next].stealTail != Word(Before(Gen(c, last + 1)), c.size) {
        return false;
      }
      EnterNext();
      return true;
    }

    /** `Block::put` on the owner's block. */
    method Put(v: T) returns (ok: bool)
      requires Valid()
      modifies blocks
      ensures Valid()
      ensures ok <==> !old(ActiveFull())
      ensures ok ==> Contents() == old(Contents()) + [Written(v)] && Exposed() == old(Exposed())
      ensures !ok ==> blocks[..] == old(blocks[..])
    {
      ghost var bs := blocks[..];
      var i := Idx(c, last);
      assert InOrder(c, BlockOf(c, bs, last), last, last);
      if blocks[i].tail >= c.size {
        return false;
      }
      PutAtBack(c, bs, start, last, v);
      blocks[i] := Grown(blocks[i], v);
      assert blocks[..] == bs[Idx(c, last) := Grown(BlockOf(c, bs, last), v)];
      return true;
    }

    method PushBack(v: T) returns (r: Pushed<T>)
      requires Valid()
      modifies this, blocks
      ensures Valid()
      ensures r.Local? <==> !old(ActiveFull())
      ensures r.Exhausted? <==> old(ActiveFull()) && Gen(c, old(last) + 1) > MAX_GENERATION
      ensures r.Refused? <==> old(ActiveFull()) && Gen(c, old(last) + 1) <= MAX_GENERATION && old(NoRoomAhead())
      ensures r.Refused? ==> r.back == v
      ensures r.Local? || r.Granted? ==> Contents() == old(Contents()) + [Written(v)]
      ensures r.Granted? ==> Exposed() == old(Contents())
      ensures r.Refused? || r.Exhausted? ==> start == old(start) && last == old(last) && blocks[..] == old(blocks[..])
    {
      var granted := false;
      while true
        invariant Valid() && Contents() == old(Contents())
        invariant granted ==> !ActiveFull() && Exposed() == old(Contents())
        invariant granted ==> old(ActiveFull()) && !old(NoRoomAhead()) && Gen(c, old(last) + 1) <= MAX_GENERATION
        invariant !granted ==> start == old(start) && last == old(last) && blocks[..] == old(blocks[..])
        decreases !granted
      {
        var ok := Put(v);
        if ok {
          return if granted then Granted else Local;
        }
        if Gen(c, last + 1) > MAX_GENERATION {
          return Exhausted;
        }
        var moved := AdvancePut();
        if !moved {
          return Refused(v);
        }
        granted := true;
      }
    }

    /** `Block::get` on the owner's block. */
    method Get() returns (r: Option<T>)
      requires Valid()
      modifies blocks
      ensures Valid()
      ensures r.None? <==> old(Live(BlockOf(c, blocks[..], last))) == []
      ensures r.Some? ==> old(Contents()) == Contents() + [Written(r.value)]
      ensures r.None? ==> Contents() == old(Contents()) && Live(BlockOf(c, blocks[..], last)) == []
    {
      ghost var bs := blocks[..];
      var i := Idx(c, last);
      var b := blocks[i];
      assert InOrder(c, BlockOf(c, bs, last), last, last);
      ShrunkIsActive(c, b, Gen(c, last));
      if b.tail == 0 || b.head.slot == b.tail {
        return None;
      }
      GetFromBack(c, bs, start, last);
      r := Some(b.ring[b.tail - 1].value);
      blocks[i] := Shrunk(b);
      assert blocks[..] == bs[i := Shrunk(bs[i])];
    }

    /** `advance_get_index`. */
    method AdvanceGet() returns (moved: bool)
      requires Valid() && Live(BlockOf(c, blocks[..], last)) == []
      modifies this, blocks
      ensures Valid() && Contents() == old(Contents()) && start == old(start)
      ensures if moved then last + 1 == old(last) else Contents() == []
    {
      ghost var bs := blocks[..];
      if start == last {
        FlatLast(c, bs, start, last);
        FlatNone(c, bs, start);
        return false;
      }
      RetreatedRing(c, bs, start, last);
      DistinctWithinATurn(c, last - 1, last);
      var i, before := Idx(c, last), Idx(c, last - 1);
      var b := blocks[i];
      blocks[i] := b.(stealTail := Word(Before(b.stealTail.gen), b.stealTail.slot));
      blocks[before] := Swapped(blocks[before]);
      assert blocks[..] == Retreated(c, bs, last);
      last := last - 1;
      return true;
    }

    /** The newest value, or nothing exactly when there is none. */
    method PopBack() returns (r: Option<T>)
      requires Valid()
      modifies this, blocks
      ensures Valid()
      ensures r.None? <==> old(Contents()) == []
      ensures r.Some? ==> old(Contents()) == Contents() + [Written(r.value)]
      ensures r.None? ==> Contents() == []
    {
      while true
        invariant Valid() && Contents() == old(Contents())
        decreases last
      {
        r := Get();
        if r.Some? {
          return;
        }
        var moved := AdvanceGet();
        if !moved {
          return;
        }
      }
    }

    /** `Block::steal` on the block of sequence `thief`. The generation a thief meets is its own. */
    method Steal(thief: nat) returns (r: Option<T>)
      requires Valid() && start <= thief <= last && Flat(c, blocks[..], start, thief) == []
      modifies blocks
      ensures Valid()
      ensures r.Some? ==> thief < last && old(Contents()) == [Written(r.value)] + Contents()
      ensures r.Some? ==> old(Exposed()) != []
      ensures r.None? ==>
        blocks[..] == old(blocks[..]) && (thief < last ==> Flat(c, blocks[..], start, thief + 1) == [])
    {
      ghost var bs := blocks[..];
      var i := Idx(c, thief);
      var b := blocks[i];
      assert InOrder(c, BlockOf(c, bs, thief), thief, last);
      assert b.stealTail.gen == Gen(c, thief);
      if b.stealTail.slot == c.size {
        FlatLast(c, bs, start, thief);
        return None;
      }
      StealFromFront(c, bs, start, last, thief);
      FlatAround(c, bs, start, thief, last);
      r := Some(b.ring[b.stealTail.slot].value);
      blocks[i] := Bitten(b);
      assert blocks[..] == bs[Idx(c, thief) := Bitten(BlockOf(c, bs, thief))];
    }

    /** The oldest value unless it lies in the owner's block. */
    method StealFront() returns (r: Stolen<T>)
      requires Valid()
      modifies blocks
      ensures Valid()
      ensures r.Taken? <==> old(Exposed()) != []
      ensures r.Taken? ==> old(Contents()) == [Written(r.value)] + Contents()
      ensures r.OutOfSequences? <==> start == last && Gen(c, last + 1) > MAX_GENERATION
      ensures !r.Taken? ==> blocks[..] == old(blocks[..])
    {
      ghost var bs := blocks[..];
      var thief := start;
      FlatNone(c, bs, start);
      while true
        invariant blocks[..] == bs && start <= thief <= last
        invariant thief == start || thief < last
        invariant Flat(c, bs, start, thief) == []
        decreases last - thief
      {
        var got := Steal(thief);
        if got.Some? {
          return Taken(got.value);
        }
        if thief < last {
          GenMono(c, thief + 1, last);
        }
        if Gen(c, thief + 1) > MAX_GENERATION {
          return OutOfSequences;
        }
        thief := thief + 1;
        if thief >= last {
          return Nothing;
        }
      }
    }
  }
}
