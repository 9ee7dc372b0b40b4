/** The write buffer of a connection: two queues of chunks, written out piece by piece. The class
    updates its fields as the program does; what it computes is given by functions on values, and
    what they keep over every run of pushes and partial writes is proved about those.
 */
module WriteQueue {
  import opened Basics

  /** `offset` bytes of `data` are already written. */
  datatype Chunk = Chunk(data: seq<Byte>, offset: nat)

  function Rest(c: Chunk): seq<Byte> {
    if c.offset <= |c.data| then c.data[c.offset..] else []
  }

  function Unwritten(q: seq<Chunk>): nat {
    if q == [] then 0 else |Rest(q[0])| + Unwritten(q[1..])
  }

  function Datas(q: seq<Chunk>): seq<seq<Byte>> {
    if q == [] then [] else [q[0].data] + Datas(q[1..])
  }

  /** A chunk that has left whole, and whether it was pushed with high priority. */
  datatype Gone = Gone(high: bool, data: seq<Byte>)

  function OfPriority(out: seq<Gone>, high: bool): seq<seq<Byte>> {
    if out == [] then []
    else OfPriority(out[..|out| - 1], high) + if out[|out| - 1].high == high then [out[|out| - 1].data] else []
  }

  function Bytes(out: seq<Gone>): seq<Byte> {
    if out == [] then [] else Bytes(out[..|out| - 1]) + out[|out| - 1].data
  }

  function Power2(k: nat): nat {
    if k == 0 then 1 else 2 * Power2(k - 1)
  }

  /** The threshold doubled `k` times. */
  function Mark(threshold: nat, k: nat): (r: nat)
    ensures r >= threshold
  {
    if k == 0 then threshold else 2 * Mark(threshold, k - 1)
  }

  lemma {:induction false} MarkIsPower(threshold: nat, k: nat)
    ensures Mark(threshold, k) == threshold * Power2(k)
  {
    if k > 0 {
      MarkIsPower(threshold, k - 1);
    }
  }

  lemma {:induction false} UnwrittenAppend(q: seq<Chunk>, c: Chunk)
    ensures Unwritten(q + [c]) == Unwritten(q) + |Rest(c)|
  {
    if q != [] {
      UnwrittenAppend(q[1..], c);
      assert (q + [c])[1..] == q[1..] + [c];
    }
  }

  /** What the queue looks like from outside: the chunks pushed so far by priority, those gone, and
      whether the first chunk of the high queue is one raised from the low queue. */
  datatype History = History(pushedHigh: seq<seq<Byte>>, pushedLow: seq<seq<Byte>>, out: seq<Gone>, raised: bool)

  /** The chunk raised from the low queue, and the chunks behind it. */
  function Raised(high: seq<Chunk>, raised: bool): seq<Chunk> {
    if raised then (if high == [] then [] else high[..1]) else []
  }

  function Urgent(high: seq<Chunk>, raised: bool): seq<Chunk> {
    if raised then (if high == [] then [] else high[1..]) else high
  }

  /** Everything pushed is gone or queued, in order inside its priority. */
  ghost predicate InOrder(high: seq<Chunk>, low: seq<Chunk>, h: History) {
    && (h.raised ==> high != [])
    && h.pushedHigh == OfPriority(h.out, true) + Datas(Urgent(high, h.raised))
    && h.pushedLow == OfPriority(h.out, false) + Datas(Raised(high, h.raised) + low)
  }

  /** Only the chunk at the front of the high queue may be partly written. */
  ghost predicate Started(high: seq<Chunk>, low: seq<Chunk>) {
    && (forall i :: 0 <= i < |high| ==> high[i].offset <= |high[i].data| && (i > 0 ==> high[i].offset == 0))
    && (forall i :: 0 <= i < |low| ==> low[i].offset == 0)
  }

  /** The bytes that have left: whole chunks one after another, then a part of the next one. */
  function Sent(high: seq<Chunk>, out: seq<Gone>): seq<Byte> {
    Bytes(out) + if high != [] && high[0].offset <= |high[0].data| then high[0].data[..high[0].offset] else []
  }

  lemma {:induction false} DatasAppend(q: seq<Chunk>, c: Chunk)
    ensures Datas(q + [c]) == Datas(q) + [c.data]
  {
    if q != [] {
      DatasAppend(q[1..], c);
      assert (q + [c])[1..] == q[1..] + [c];
    }
  }

  lemma GoneAppend(out: seq<Gone>, g: Gone)
    ensures OfPriority(out + [g], g.high) == OfPriority(out, g.high) + [g.data]
    ensures OfPriority(out + [g], !g.high) == OfPriority(out, !g.high)
    ensures Bytes(out + [g]) == Bytes(out) + g.data
  {
    assert (out + [g])[..|out|] == out;
  }

  /** What a queue is: everything in order, and every unwritten byte counted. */
  ghost predicate Accounted(high: seq<Chunk>, low: seq<Chunk>, size: nat, h: History) {
    InOrder(high, low, h) && Started(high, low) && size == Unwritten(high) + Unwritten(low)
  }

  lemma Associative<T>(a: seq<T>, b: seq<T>, c: seq<T>)
    ensures (a + b) + c == a + (b + c)
  {
  }

  lemma PushedHigh(high: seq<Chunk>, low: seq<Chunk>, h: History, data: seq<Byte>)
    requires InOrder(high, low, h)
    ensures InOrder(high + [Chunk(data, 0)], low, h.(pushedHigh := h.pushedHigh + [data]))
  {
    var c := Chunk(data, 0);
    assert Urgent(high + [c], h.raised) == Urgent(high, h.raised) + [c];
    assert Raised(high + [c], h.raised) == Raised(high, h.raised);
    DatasAppend(Urgent(high, h.raised), c);
    Associative(OfPriority(h.out, true), Datas(Urgent(high, h.raised)), [data]);
  }

  lemma PushedLow(high: seq<Chunk>, low: seq<Chunk>, h: History, data: seq<Byte>)
    requires InOrder(high, low, h)
    ensures InOrder(high, low + [Chunk(data, 0)], h.(pushedLow := h.pushedLow + [data]))
  {
    var c, r := Chunk(data, 0), Raised(high, h.raised);
    Associative(r, low, [c]);
    DatasAppend(r + low, c);
    Associative(OfPriority(h.out, false), Datas(r + low), [data]);
  }

  lemma SentSame(high: seq<Chunk>, c: Chunk, out: seq<Gone>)
    requires c.offset == 0
    ensures Sent(high + [c], out) == Sent(high, out)
  {
    if high == [] {
      assert c.data[..0] == [];
    }
  }

  lemma EnqueuedHigh(high: seq<Chunk>, low: seq<Chunk>, size: nat, h: History, data: seq<Byte>)
    requires Accounted(high, low, size, h)
    ensures Accounted(high + [Chunk(data, 0)], low, size + |data|, h.(pushedHigh := h.pushedHigh + [data]))
    ensures Sent(high + [Chunk(data, 0)], h.out) == Sent(high, h.out)
  {
    PushedHigh(high, low, h, data);
    UnwrittenAppend(high, Chunk(data, 0));
    SentSame(high, Chunk(data, 0), h.out);
  }

  lemma EnqueuedLow(high: seq<Chunk>, low: seq<Chunk>, size: nat, h: History, data: seq<Byte>)
    requires Accounted(high, low, size, h)
    ensures Accounted(high, low + [Chunk(data, 0)], size + |data|, h.(pushedLow := h.pushedLow + [data]))
  {
    PushedLow(high, low, h, data);
    UnwrittenAppend(low, Chunk(data, 0));
  }

  lemma RaisedOne(low: seq<Chunk>, size: nat, h: History)
    requires Accounted([], low, size, h) && low != []
    ensures Accounted([low[0]], low[1..], size, h.(raised := true))
    ensures Sent([low[0]], h.out) == Sent([], h.out) && !h.raised
  {
    var high := [low[0]];
    assert Raised(high, true) == high && Urgent(high, true) == [] && Raised([], false) + low == low;
    assert high + low[1..] == low;
    assert low[0].data[..0] == [];
  }

  /** The front chunk with `n` more bytes written. */
  function Further(c: Chunk, n: nat): Chunk {
    c.(offset := c.offset + n)
  }

  lemma WrotePart(high: seq<Chunk>, low: seq<Chunk>, size: nat, h: History, n: nat)
    requires Accounted(high, low, size, h) && high != [] && n < |Rest(high[0])|
    ensures n <= size && Accounted(high[0 := Further(high[0], n)], low, size - n, h)
    ensures Sent(high[0 := Further(high[0], n)], h.out) == Sent(high, h.out) + Rest(high[0])[..n]
  {
    var c := high[0];
    var high' := high[0 := Further(c, n)];
    assert high'[1..] == high[1..];
    assert c.data[..c.offset + n] == c.data[..c.offset] + c.data[c.offset..][..n];
    Associative(Bytes(h.out), c.data[..c.offset], Rest(c)[..n]);
    SameDatas(high, high');
    SameDatas(Raised(high, h.raised) + low, Raised(high', h.raised) + low);
    SameDatas(Urgent(high, h.raised), Urgent(high', h.raised));
  }

  lemma {:induction false} SameDatas(q: seq<Chunk>, q': seq<Chunk>)
    requires |q| == |q'| && forall i :: 0 <= i < |q| ==> q[i].data == q'[i].data
    ensures Datas(q) == Datas(q')
  {
    if q != [] {
      SameDatas(q[1..], q'[1..]);
    }
  }

  lemma WroteAll(high: seq<Chunk>, low: seq<Chunk>, size: nat, h: History)
    requires Accounted(high, low, size, h) && high != []
    ensures |Rest(high[0])| <= size
    ensures var h' := h.(out := h.out + [Gone(!h.raised, high[0].data)], raised := false);
      && Accounted(high[1..], low, size - |Rest(high[0])|, h')
      && Sent(high[1..], h'.out) == Sent(high, h.out) + Rest(high[0])
  {
    var c := high[0];
    GoneAppend(h.out, Gone(!h.raised, c.data));
    WroteAllOrder(high, low, h);
    assert c.data == c.data[..c.offset] + Rest(c);
    Associative(Bytes(h.out), c.data[..c.offset], Rest(c));
    if |high| > 1 {
      assert high[1..][0].data[..0] == [];
    }
  }

  lemma WroteAllOrder(high: seq<Chunk>, low: seq<Chunk>, h: History)
    requires InOrder(high, low, h) && high != []
    ensures InOrder(high[1..], low, h.(out := h.out + [Gone(!h.raised, high[0].data)], raised := false))
  {
    var c := high[0];
    var rest := high[1..];
    GoneAppend(h.out, Gone(!h.raised, c.data));
    assert Raised(rest, false) + low == low && Urgent(rest, false) == rest;
    if h.raised {
      assert high[..1] + low == [c] + low && ([c] + low)[1..] == low;
      assert Datas([c] + low) == [c.data] + Datas(low);
      Associative(OfPriority(h.out, false), [c.data], Datas(low));
    } else {
      assert Raised(high, false) + low == low;
      assert Datas(high) == [c.data] + Datas(rest);
      Associative(OfPriority(h.out, true), [c.data], Datas(rest));
    }
  }

  /** The high queue and the history after a write of `n` bytes. */
  function HighAfter(high: seq<Chunk>, n: nat): seq<Chunk> {
    if high == [] then []
    else if high[0].offset + n >= |high[0].data| then high[1..]
    else high[0 := Further(high[0], n)]
  }

  function HistoryAfter(high: seq<Chunk>, h: History, n: nat): History {
    if high == [] || high[0].offset + n < |high[0].data| then h
    else h.(out := h.out + [Gone(!h.raised, high[0].data)], raised := false)
  }

  /** The bytes such a write sends. */
  function Sending(high: seq<Chunk>, n: nat): seq<Byte>
    requires n <= if high == [] then 0 else |Rest(high[0])|
  {
    if high == [] then [] else Rest(high[0])[..n]
  }

  lemma Wrote(high: seq<Chunk>, low: seq<Chunk>, size: nat, h: History, n: nat)
    requires Accounted(high, low, size, h) && n <= if high == [] then 0 else |Rest(high[0])|
    ensures n <= size && Accounted(HighAfter(high, n), low, size - n, HistoryAfter(high, h, n))
    ensures Sent(HighAfter(high, n), HistoryAfter(high, h, n).out) == Sent(high, h.out) + Sending(high, n)
  {
    if high != [] {
      if n == |Rest(high[0])| {
        WroteAll(high, low, size, h);
        assert Rest(high[0])[..n] == Rest(high[0]);
      } else {
        WrotePart(high, low, size, h, n);
      }
    }
  }

  // ------------------------------------------------------------ the operations

  datatype Buffer = Buffer(high: seq<Chunk>, low: seq<Chunk>, size: int, warnAt: nat)

  const EMPTY := Buffer([], [], 0, 0)

  function Enqueued(b: Buffer, data: seq<Byte>, urgent: bool): Buffer {
    var longer := b.(size := b.size + |data|);
    if urgent then longer.(high := b.high + [Chunk(data, 0)]) else longer.(low := b.low + [Chunk(data, 0)])
  }

  predicate Warns(b: Buffer, threshold: nat) {
    b.size >= threshold && b.size >= b.warnAt
  }

  function Pushed(b: Buffer, threshold: nat, data: seq<Byte>, urgent: bool): Buffer {
    var e := Enqueued(b, data, urgent);
    if Warns(e, threshold) then e.(warnAt := if e.warnAt == 0 then threshold * 2 else e.warnAt * 2) else e
  }

  /** After `next`: a low chunk is raised when no high one waits. */
  function Fronted(b: Buffer): Buffer {
    if b.high == [] && b.low != [] then b.(high := [b.low[0]], low := b.low[1..]) else b
  }

  /** How much a single write may take. */
  function Offered(b: Buffer): nat {
    if b.high == [] then 0 else |Rest(b.high[0])|
  }

  function Consumed(b: Buffer, n: nat): Buffer {
    var less := b.(size := b.size - n, high := HighAfter(b.high, n));
    if b.high != [] && less.high == [] && less.low == [] then less.(warnAt := 0) else less
  }

  class Queue {
    var high: seq<Chunk>
    var low: seq<Chunk>
    var size: int
    var warnAt: nat

    ghost function Value(): Buffer
      reads this
    {
      Buffer(high, low, size, warnAt)
    }

    constructor ()
      ensures Value() == EMPTY
    {
      high, low, size, warnAt := [], [], 0, 0;
    }

    /** `push`. */
    method Push(data: seq<Byte>, urgent: bool, threshold: nat) returns (warning: Option<int>)
      modifies this
      ensures Value() == Pushed(old(Value()), threshold, data, urgent)
      ensures warning == if Warns(Enqueued(old(Value()), data, urgent), threshold) then Some(size / 1024) else None
    {
      size := size + |data|;
      if urgent {
        high := high + [Chunk(data, 0)];
      } else {
        low := low + [Chunk(data, 0)];
      }
      if size < threshold || size < warnAt {
        return None;
      }
      warnAt := if warnAt == 0 then threshold * 2 else warnAt * 2;
      return Some(size / 1024);
    }

    /** `next`. */
    method NextChunk() returns (r: Option<Chunk>)
      modifies this
      ensures Value() == Fronted(old(Value()))
      ensures r == if high == [] then None else Some(high[0])
    {
      if high == [] && low != [] {
        high, low := high + [low[0]], low[1..];
      }
      r := if high == [] then None else Some(high[0]);
    }

    /** `consume`. */
    method Consume(written: nat)
      modifies this
      ensures Value() == Consumed(old(Value()), written)
    {
      size := size - written;
      if high == [] {
        return;
      }
      var chunk := Further(high[0], written);
      high := high[0 := chunk];
      if chunk.offset >= |chunk.data| {
        high := high[1..];
      }
      if high == [] && low == [] {
        warnAt := 0;
      }
    }
  }

  // ------------------------------------------------------------ whole runs

  datatype Op = DoPush(data: seq<Byte>, urgent: bool) | DoNext | DoConsume(n: nat)

  /** A buffer with what has happened to it: the pushes and the chunks gone, the bytes sent, and the
      warnings given since it was last empty. */
  datatype Track = Track(b: Buffer, h: History, sent: seq<Byte>, warnings: nat)

  const START := Track(EMPTY, History([], [], [], false), [], 0)

  /** A write never takes more than it was offered. */
  function Perform(threshold: nat, t: Track, op: Op): Track {
    match op
    case DoPush(data, urgent) =>
      Track(Pushed(t.b, threshold, data, urgent),
            if urgent then t.h.(pushedHigh := t.h.pushedHigh + [data]) else t.h.(pushedLow := t.h.pushedLow + [data]),
            t.sent, t.warnings + if Warns(Enqueued(t.b, data, urgent), threshold) then 1 else 0)
    case DoNext => t.(b := Fronted(t.b), h := if t.b.high == [] && t.b.low != [] then t.h.(raised := true) else t.h)
    case DoConsume(n) =>
      if n > Offered(t.b) then t
      else
        var b := Consumed(t.b, n);
        Track(b, HistoryAfter(t.b.high, t.h, n), t.sent + Sending(t.b.high, n),
              if b.high == [] && b.low == [] then 0 else t.warnings)
  }

  function PerformAll(threshold: nat, ops: seq<Op>): Track {
    if ops == [] then START else Perform(threshold, PerformAll(threshold, ops[..|ops| - 1]), ops[|ops| - 1])
  }

  ghost predicate Counted(threshold: nat, t: Track) {
    && t.b.warnAt == (if t.warnings == 0 then 0 else Mark(threshold, t.warnings))
    && (t.b.high == [] && t.b.low == [] ==> t.warnings == 0)
  }

  ghost predicate Good(t: Track) {
    t.b.size >= 0 && Accounted(t.b.high, t.b.low, t.b.size, t.h) && t.sent == Sent(t.b.high, t.h.out)
  }

  lemma PushKeepsGood(threshold: nat, t: Track, data: seq<Byte>, urgent: bool)
    requires Good(t)
    ensures Good(Perform(threshold, t, DoPush(data, urgent)))
  {
    if urgent {
      EnqueuedHigh(t.b.high, t.b.low, t.b.size, t.h, data);
    } else {
      EnqueuedLow(t.b.high, t.b.low, t.b.size, t.h, data);
    }
  }

  lemma NextKeepsGood(threshold: nat, t: Track)
    requires Good(t)
    ensures Good(Perform(threshold, t, DoNext))
  {
    if t.b.high == [] && t.b.low != [] {
      RaisedOne(t.b.low, t.b.size, t.h);
    }
  }

  lemma ConsumeKeepsGood(threshold: nat, t: Track, n: nat)
    requires Good(t)
    ensures Good(Perform(threshold, t, DoConsume(n)))
  {
    if n <= Offered(t.b) {
      Wrote(t.b.high, t.b.low, t.b.size, t.h, n);
    }
  }

  lemma PerformKeepsCounted(threshold: nat, t: Track, op: Op)
    requires Counted(threshold, t)
    ensures Counted(threshold, Perform(threshold, t, op))
  {
  }

  lemma {:induction false} EveryRunIsGood(threshold: nat, ops: seq<Op>)
    ensures Good(PerformAll(threshold, ops)) && Counted(threshold, PerformAll(threshold, ops))
  {
    if ops != [] {
      var t, op := PerformAll(threshold, ops[..|ops| - 1]), ops[|ops| - 1];
      EveryRunIsGood(threshold, ops[..|ops| - 1]);
      PerformKeepsCounted(threshold, t, op);
      match op
      case DoPush(data, urgent) => PushKeepsGood(threshold, t, data, urgent);
      case DoNext => NextKeepsGood(threshold, t);
      case DoConsume(n) => ConsumeKeepsGood(threshold, t, n);
    }
  }

  /** `size` is the number of bytes still to be written, and a write never takes more than that. */
  lemma SizeIsUnwritten(threshold: nat, ops: seq<Op>)
    ensures var b := PerformAll(threshold, ops).b;
      b.size == Unwritten(b.high) + Unwritten(b.low) && Offered(b) <= b.size
  {
    EveryRunIsGood(threshold, ops);
  }

  /** The bytes sent are whole chunks one after another, then a part of the one in front; the chunks
      gone of each priority are the first ones pushed with it. */
  lemma ChunksLeaveWholeAndInOrder(threshold: nat, ops: seq<Op>)
    ensures var t := PerformAll(threshold, ops);
      && OfPriority(t.h.out, true) <= t.h.pushedHigh && OfPriority(t.h.out, false) <= t.h.pushedLow
      && (if t.b.high == [] then t.sent == Bytes(t.h.out)
          else
            && t.b.high[0].offset <= |t.b.high[0].data|
            && t.sent == Bytes(t.h.out) + t.b.high[0].data[..t.b.high[0].offset])
      && (t.b.high == [] && t.b.low == [] ==>
            OfPriority(t.h.out, true) == t.h.pushedHigh && OfPriority(t.h.out, false) == t.h.pushedLow)
  {
    EveryRunIsGood(threshold, ops);
  }

  /** With k warnings given since the buffer was empty, a push warns exactly when it takes the size
      to the threshold doubled k times. */
  lemma WarningsDouble(threshold: nat, ops: seq<Op>, data: seq<Byte>, urgent: bool)
    ensures var t := PerformAll(threshold, ops);
      Warns(Enqueued(t.b, data, urgent), threshold) <==> t.b.size + |data| >= threshold * Power2(t.warnings)
  {
    EveryRunIsGood(threshold, ops);
    var t := PerformAll(threshold, ops);
    MarkIsPower(threshold, t.warnings);
  }
}
