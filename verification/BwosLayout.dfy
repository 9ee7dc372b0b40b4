/** The layout of a block work-stealing queue: how a generation and a slot share one
    64-bit word, and how a logical block sequence maps to a physical block.
 */
module BwosLayout {
  import opened Arithmetic

  /** Slots take the low 8 bits of a word. */
  const SLOT_RANGE: nat := 256

  /** Generations take the high 56 bits of a word. */
  const GEN_RANGE: nat := 0x100_0000_0000_0000

  const WORD_RANGE: nat := 0x1_0000_0000_0000_0000

  const MAX_GENERATION: nat := GEN_RANGE - 1

  /** A block boundary: the block's generation and a slot index. */
  datatype Word = Word(gen: nat, slot: nat) {
    predicate Fits() {
      gen < GEN_RANGE && slot < SLOT_RANGE
    }
  }

  /** The generation before `g`; generation 0 is preceded by the all-ones sentinel. */
  function Before(g: nat): nat {
    if g == 0 then MAX_GENERATION else g - 1
  }

  /** The 64-bit integer the program stores for a boundary. */
  function Pack(w: Word): (bits: nat)
    requires w.Fits()
  {
    w.gen * SLOT_RANGE + w.slot
  }

  function WrappingSub(a: nat, b: nat): nat
    requires a < WORD_RANGE && b < WORD_RANGE
  {
    if a >= b then a - b else a + WORD_RANGE - b
  }

  /** Comparing packed words, as `is_writable` and the thief's compare-exchange do, is
      comparing boundaries; adding one to a packed word moves the slot alone; and the two
      wrapping subtractions both step one generation back, through the sentinel. */
  lemma PackedWordsBehaveAsBoundaries(a: Word, b: Word)
    requires a.Fits() && b.Fits()
    ensures Pack(a) < WORD_RANGE
    ensures Pack(a) == Pack(b) <==> a == b
    ensures Pack(a) / SLOT_RANGE == a.gen && Pack(a) % SLOT_RANGE == a.slot
    ensures a.slot + 1 < SLOT_RANGE ==> Pack(a) + 1 == Pack(a.(slot := a.slot + 1))
    ensures WrappingSub(Pack(a), SLOT_RANGE) == Pack(a.(gen := Before(a.gen)))
    ensures WrappingSub(a.gen, 1) * SLOT_RANGE % WORD_RANGE + a.slot == Pack(a.(gen := Before(a.gen)))
  {
    if a.gen == 0 {
      assert WrappingSub(0, 1) * SLOT_RANGE == (SLOT_RANGE - 1) * WORD_RANGE + MAX_GENERATION * SLOT_RANGE;
    }
  }

  /** Queue dimensions, as `LifoQueue::new` asserts them. */
  datatype Config = Config(blocks: nat, size: nat)

  predicate ValidConfig(c: Config) {
    c.blocks >= 2 && PowerOfTwo(c.blocks) && 0 < c.size < SLOT_RANGE
  }

  /** The physical block of a sequence, `sequence & mask`. */
  function Idx(c: Config, s: nat): (i: nat)
    requires c.blocks > 0
    ensures i < c.blocks
  {
    Residue(c.blocks, s)
  }

  /** The generation of a sequence, `sequence >> block_shift`. */
  function Gen(c: Config, s: nat): nat
    requires c.blocks > 0
  {
    if s < c.blocks then 0 else Gen(c, s - c.blocks) + 1
  }

  /** Both are the remainder and quotient by the block count, a power of two. */
  lemma {:induction false} IdxGenAreRemainderAndQuotient(c: Config, s: nat)
    requires c.blocks > 0
    ensures Idx(c, s) == s % c.blocks && Gen(c, s) == s / c.blocks
  {
    ResidueIsRemainder(c.blocks, s);
    if s >= c.blocks {
      IdxGenAreRemainderAndQuotient(c, s - c.blocks);
      var q, r := (s - c.blocks) / c.blocks, (s - c.blocks) % c.blocks;
      assert s == (q + 1) * c.blocks + r;
      DivModUnique(c.blocks, s, q + 1, r);
    } else {
      DivModUnique(c.blocks, s, 0, s);
    }
  }

  /** And the index is what the mask of the source leaves. */
  lemma IdxIsMasked(c: Config, s: nat)
    requires PowerOfTwo(c.blocks)
    ensures Idx(c, s) == And(s, c.blocks - 1)
  {
    MaskIsResidue(c.blocks, s);
  }

  /** Two sequences less than a full turn apart never share a physical block. */
  lemma {:induction false} DistinctWithinATurn(c: Config, a: nat, b: nat)
    requires c.blocks > 0
    requires a < b < a + c.blocks
    ensures Idx(c, a) != Idx(c, b)
  {
    if a >= c.blocks {
      DistinctWithinATurn(c, a - c.blocks, b - c.blocks);
    } else if b >= c.blocks {
      assert Idx(c, b - c.blocks) == b - c.blocks;
    }
  }

  lemma {:induction false} GenGrows(c: Config, s: nat)
    requires c.blocks > 0
    ensures Gen(c, s) <= Gen(c, s + 1)
  {
    if s >= c.blocks {
      GenGrows(c, s - c.blocks);
    }
  }

  lemma {:induction false} GenMono(c: Config, a: nat, b: nat)
    requires c.blocks > 0 && a <= b
    ensures Gen(c, a) <= Gen(c, b)
    decreases b - a
  {
    if a < b {
      GenGrows(c, a);
      GenMono(c, a + 1, b);
    }
  }

  /** A physical block and a generation name one sequence. */
  lemma {:induction false} SequenceIsUnique(c: Config, a: nat, b: nat)
    requires c.blocks > 0
    requires Idx(c, a) == Idx(c, b) && Gen(c, a) == Gen(c, b)
    ensures a == b
  {
    if a >= c.blocks && b >= c.blocks {
      SequenceIsUnique(c, a - c.blocks, b - c.blocks);
    }
  }

  /** Every physical block is the place of exactly one sequence of a window of a full turn. */
  lemma Standing(c: Config, start: nat, i: nat) returns (x: nat)
    requires c.blocks > 0 && i < c.blocks
    ensures start <= x < start + c.blocks && Idx(c, x) == i
  {
    x := Covering(c.blocks, start, i);
  }
}
