/** Length-prefixed frames: `frame` writes one envelope, `drain` cuts complete frames off the front of
    a connection's buffer. The bytes of an envelope are Protobuf's business: encoding and decoding
    are any two functions of which the second undoes the first.
 */
module Wire {
  import opened Basics

  datatype Problem = TooLong | Malformed

  /** What reading a buffer yields: the envelopes and the bytes left, or the first problem and the
      envelopes before it. */
  datatype Parsed<E> = Good(envelopes: seq<E>, rest: seq<Byte>) | Bad(before: seq<E>, problem: Problem)

  datatype Codec<!E> = Codec(encode: E -> seq<Byte>, decode: seq<Byte> -> Option<E>)

  ghost predicate Inverse<E(!new)>(c: Codec<E>) {
    forall e: E :: c.decode(c.encode(e)) == Some(e)
  }

  /** Big-endian bytes of a 32-bit length. */
  function Prefix(n: nat): (b: seq<Byte>)
    requires n <= U32_MAX
    ensures |b| == 4
  {
    [n / 0x100_0000, n / 0x1_0000 % 0x100, n / 0x100 % 0x100, n % 0x100]
  }

  function Length(b: seq<Byte>): (n: nat)
    requires |b| >= 4
    ensures n <= U32_MAX
  {
    (b[0] as int) * 0x100_0000 + (b[1] as int) * 0x1_0000 + (b[2] as int) * 0x100 + b[3] as int
  }

  lemma LengthOfPrefix(n: nat, more: seq<Byte>)
    requires n <= U32_MAX
    ensures Length(Prefix(n) + more) == n
  {
    var hi, lo := n / 0x1_0000, n % 0x1_0000;
    assert n == hi * 0x1_0000 + lo && n / 0x100_0000 == hi / 0x100;
    assert hi == hi / 0x100 * 0x100 + hi % 0x100;
    assert n / 0x100 == hi * 0x100 + lo / 0x100 && n / 0x100 % 0x100 == lo / 0x100;
    assert n % 0x100 == lo % 0x100;
  }

  predicate Fits<E>(c: Codec<E>, max: nat, e: E) {
    |c.encode(e)| <= max && |c.encode(e)| <= U32_MAX
  }

  /** `frame`. */
  function Frame<E>(c: Codec<E>, max: nat, e: E): (r: Option<seq<Byte>>)
    ensures r.Some? <==> Fits(c, max, e)
  {
    var body := c.encode(e);
    if |body| > max || |body| > U32_MAX then None else Some(Prefix(|body|) + body)
  }

  // ------------------------------------------------------------ reading

  /** What stands at the front of a buffer: not yet a frame, a wrong one, or an envelope. */
  datatype Front<E> = Incomplete | Wrong(problem: Problem) | Whole(envelope: E, size: nat)

  /** The front of what is left of a buffer from `at` on. */
  function FrontAt<E>(c: Codec<E>, max: nat, b: seq<Byte>, at: nat): (f: Front<E>)
    requires at <= |b|
    ensures f.Whole? ==> 4 <= f.size <= |b| - at
  {
    if |b| - at < 4 then Incomplete
    else
      var len := Length(b[at..at + 4]);
      if len > max then Wrong(TooLong)
      else if |b| - at < 4 + len then Incomplete
      else
        var d := c.decode(b[at + 4..at + 4 + len]);
        if d.None? then Wrong(Malformed) else Whole(d.value, 4 + len)
  }

  /** The front depends on nothing before it. */
  lemma FrontIsLocal<E>(c: Codec<E>, max: nat, b: seq<Byte>, at: nat)
    requires at <= |b|
    ensures FrontAt(c, max, b, at) == FrontAt(c, max, b[at..], 0)
  {
    var left := b[at..];
    if |left| >= 4 {
      assert b[at..at + 4] == left[0..4];
      var len := Length(left[0..4]);
      if |left| >= 4 + len {
        assert b[at + 4..at + 4 + len] == left[4..4 + len];
      }
    }
  }

  function After<E>(e: E, p: Parsed<E>): Parsed<E> {
    match p
    case Good(es, rest) => Good([e] + es, rest)
    case Bad(es, problem) => Bad([e] + es, problem)
  }

  function AfterAll<E>(es: seq<E>, p: Parsed<E>): Parsed<E> {
    match p
    case Good(more, rest) => Good(es + more, rest)
    case Bad(more, problem) => Bad(es + more, problem)
  }

  /** Everything a buffer has to say. */
  function Parse<E>(c: Codec<E>, max: nat, b: seq<Byte>): Parsed<E>
    decreases |b|
  {
    match FrontAt(c, max, b, 0)
    case Incomplete => Good([], b)
    case Wrong(problem) => Bad([], problem)
    case Whole(e, size) => After(e, Parse(c, max, b[size..]))
  }

  lemma OneMore<E>(es: seq<E>, e: E, p: Parsed<E>)
    ensures AfterAll(es, After(e, p)) == AfterAll(es + [e], p)
  {
    match p
    case Good(more, _) => assert es + ([e] + more) == es + [e] + more;
    case Bad(more, _) => assert es + ([e] + more) == es + [e] + more;
  }

  /** `drain` has read `done` from the first `at` bytes of the buffer. */
  ghost predicate ReadUpTo<E>(c: Codec<E>, max: nat, all: seq<Byte>, at: nat, done: seq<E>) {
    at <= |all| && Parse(c, max, all) == AfterAll(done, Parse(c, max, all[at..]))
  }

  lemma NothingRead<E>(c: Codec<E>, max: nat, all: seq<Byte>)
    ensures ReadUpTo(c, max, all, 0, [])
  {
    assert all[0..] == all;
    var none: seq<E> := [];
    match Parse(c, max, all)
    case Good(es, _) => assert none + es == es;
    case Bad(es, _) => assert none + es == es;
  }

  lemma ReadEnds<E>(c: Codec<E>, max: nat, all: seq<Byte>, at: nat, done: seq<E>)
    requires ReadUpTo(c, max, all, at, done)
    ensures var f := FrontAt(c, max, all, at);
      && (f.Incomplete? ==> Parse(c, max, all) == Good(done, all[at..]))
      && (f.Wrong? ==> Parse(c, max, all) == Bad(done, f.problem))
  {
    FrontIsLocal(c, max, all, at);
    assert done + [] == done;
  }

  lemma ReadMore<E>(c: Codec<E>, max: nat, all: seq<Byte>, at: nat, done: seq<E>, next: nat, more: seq<E>)
    requires ReadUpTo(c, max, all, at, done) && FrontAt(c, max, all, at).Whole?
    requires next == at + FrontAt(c, max, all, at).size && more == done + [FrontAt(c, max, all, at).envelope]
    ensures ReadUpTo(c, max, all, next, more)
  {
    FrontIsLocal(c, max, all, at);
    var f := FrontAt(c, max, all, at);
    assert all[at..][f.size..] == all[at + f.size..];
    OneMore(done, f.envelope, Parse(c, max, all[at + f.size..]));
  }

  /** The loop of `drain`; nothing is consumed when there is a problem. */
  method Frames<E(!new)>(c: Codec<E>, max: nat, all: seq<Byte>)
    returns (result: seq<E>, consumed: nat, problem: Option<Problem>)
    ensures consumed <= |all|
    ensures match Parse(c, max, all)
      case Good(es, rest) => problem == None && result == es && all[consumed..] == rest
      case Bad(_, p) => problem == Some(p) && result == [] && consumed == 0
  {
    result, consumed := [], 0;
    NothingRead(c, max, all);
    while true
      invariant ReadUpTo(c, max, all, consumed, result)
      decreases |all| - consumed
    {
      ReadEnds(c, max, all, consumed, result);
      var front := FrontAt(c, max, all, consumed);
      if front.Incomplete? {
        return result, consumed, None;
      }
      if front.Wrong? {
        return [], 0, Some(front.problem);
      }
      var more, next := result + [front.envelope], consumed + front.size;
      ReadMore(c, max, all, consumed, result, next, more);
      result, consumed := more, next;
    }
  }

  class Connection<!E(!new)> {
    const codec: Codec<E>
    const max: nat
    var buffer: seq<Byte>

    constructor (c: Codec<E>, limit: nat)
      ensures codec == c && max == limit && buffer == []
    {
      codec, max, buffer := c, limit, [];
    }

    /** `drain`: on a problem the buffer is left alone and what was read is dropped. */
    method Drain() returns (envelopes: seq<E>, problem: Option<Problem>)
      modifies this
      ensures match Parse(codec, max, old(buffer))
        case Good(es, rest) => problem == None && envelopes == es && buffer == rest
        case Bad(_, p) => problem == Some(p) && envelopes == [] && buffer == old(buffer)
    {
      var consumed;
      envelopes, consumed, problem := Frames(codec, max, buffer);
      buffer := buffer[consumed..];
    }

    /** A piece arrives: append it and drain. */
    method Feed(data: seq<Byte>) returns (envelopes: seq<E>, problem: Option<Problem>)
      modifies this
      ensures match Parse(codec, max, old(buffer) + data)
        case Good(es, rest) => problem == None && envelopes == es && buffer == rest
        case Bad(_, p) => problem == Some(p) && envelopes == [] && buffer == old(buffer) + data
    {
      buffer := buffer + data;
      envelopes, problem := Drain();
    }
  }

  // ------------------------------------------------------------ cutting a stream into pieces

  lemma FrontStays<E>(c: Codec<E>, max: nat, b: seq<Byte>, more: seq<Byte>)
    requires !FrontAt(c, max, b, 0).Incomplete?
    ensures FrontAt(c, max, b + more, 0) == FrontAt(c, max, b, 0)
  {
    assert (b + more)[0..4] == b[0..4];
    var len := Length(b[0..4]);
    if len <= max {
      assert (b + more)[4..4 + len] == b[4..4 + len];
    }
  }

  lemma AfterThenAll<E>(e: E, es: seq<E>, p: Parsed<E>)
    ensures After(e, AfterAll(es, p)) == AfterAll([e] + es, p)
  {
    match p
    case Good(more, _) => assert [e] + (es + more) == [e] + es + more;
    case Bad(more, _) => assert [e] + (es + more) == [e] + es + more;
  }

  /** Reading a buffer and then what is left of it with more bytes is reading it all. */
  lemma {:induction false} ParseAppend<E>(c: Codec<E>, max: nat, a: seq<Byte>, b: seq<Byte>)
    ensures match Parse(c, max, a)
      case Good(es, rest) => Parse(c, max, a + b) == AfterAll(es, Parse(c, max, rest + b))
      case Bad(es, problem) => Parse(c, max, a + b) == Bad(es, problem)
    decreases |a|
  {
    match FrontAt(c, max, a, 0)
    case Incomplete =>
      NothingRead(c, max, a + b);
      assert (a + b)[0..] == a + b;
    case Wrong(_) => FrontStays(c, max, a, b);
    case Whole(e, size) =>
      FrontStays(c, max, a, b);
      ParseAppend(c, max, a[size..], b);
      assert (a + b)[size..] == a[size..] + b;
      match Parse(c, max, a[size..])
      case Good(es, rest) => AfterThenAll(e, es, Parse(c, max, rest + b));
      case Bad(_, _) =>
  }

  /** What is left after reading is not yet a frame. */
  lemma {:induction false} RestIsQuiet<E>(c: Codec<E>, max: nat, b: seq<Byte>)
    requires Parse(c, max, b).Good?
    ensures Parse(c, max, Parse(c, max, b).rest) == Good([], Parse(c, max, b).rest)
    decreases |b|
  {
    if FrontAt(c, max, b, 0).Whole? {
      RestIsQuiet(c, max, b[FrontAt(c, max, b, 0).size..]);
    }
  }

  function Concat(pieces: seq<seq<Byte>>): seq<Byte> {
    if pieces == [] then [] else pieces[0] + Concat(pieces[1..])
  }

  /** What `Connection.Feed` hands on, piece after piece, until a problem ends the connection; what
      was read together with the problem is lost. */
  function FeedAll<E>(c: Codec<E>, max: nat, buffer: seq<Byte>, pieces: seq<seq<Byte>>): Parsed<E>
    decreases |pieces|
  {
    if pieces == [] then Good([], buffer)
    else
      match Parse(c, max, buffer + pieces[0])
      case Good(es, rest) => AfterAll(es, FeedAll(c, max, rest, pieces[1..]))
      case Bad(_, problem) => Bad([], problem)
  }

  /** How many pieces are read before the one that brings the problem, or all of them. */
  function GoodPieces<E>(c: Codec<E>, max: nat, buffer: seq<Byte>, pieces: seq<seq<Byte>>): (n: nat)
    ensures n <= |pieces|
    decreases |pieces|
  {
    if pieces == [] then 0
    else
      match Parse(c, max, buffer + pieces[0])
      case Good(_, rest) => 1 + GoodPieces(c, max, rest, pieces[1..])
      case Bad(_, _) => 0
  }

  /** The bytes that are in after some of the pieces. */
  function Upto(buffer: seq<Byte>, pieces: seq<seq<Byte>>, n: nat): seq<Byte>
    requires n <= |pieces|
  {
    buffer + Concat(pieces[..n])
  }

  lemma UptoMore(buffer: seq<Byte>, pieces: seq<seq<Byte>>, n: nat)
    requires n < |pieces|
    ensures Upto(buffer, pieces, n + 1) == (buffer + pieces[0]) + Concat(pieces[1..][..n])
  {
    assert pieces[..n + 1][0] == pieces[0] && pieces[..n + 1][1..] == pieces[1..][..n];
  }

  /** The buffer with the first piece parses to `es` and leaves `rest`: so does every longer part of
      the stream, with what the pieces after it add. */
  lemma UptoReads<E>(c: Codec<E>, max: nat, buffer: seq<Byte>, pieces: seq<seq<Byte>>, n: nat)
    requires n < |pieces| && Parse(c, max, buffer + pieces[0]).Good?
    ensures var first := Parse(c, max, buffer + pieces[0]);
      Parse(c, max, Upto(buffer, pieces, n + 1)) ==
        AfterAll(first.envelopes, Parse(c, max, Upto(first.rest, pieces[1..], n)))
  {
    UptoMore(buffer, pieces, n);
    ParseAppend(c, max, buffer + pieces[0], Concat(pieces[1..][..n]));
  }

  /** What was fed is what the whole stream says if it is right, and what the pieces `seen` before the
      problem say if it is wrong. */
  predicate FedRight<E(==)>(fed: Parsed<E>, seen: Parsed<E>, whole: Parsed<E>, all: bool) {
    && seen.Good?
    && (whole.Good? ==> all && fed == whole)
    && (whole.Bad? ==> !all && fed == Bad(seen.envelopes, whole.problem))
  }

  lemma FedRightAfter<E>(es: seq<E>, fed: Parsed<E>, seen: Parsed<E>, whole: Parsed<E>, all: bool)
    requires FedRight(fed, seen, whole, all)
    ensures FedRight(AfterAll(es, fed), AfterAll(es, seen), AfterAll(es, whole), all)
  {
  }

  /** What a connection hands on, exactly. As long as the stream is right it is what the stream says,
      with the same bytes left. When it is wrong, it is what the pieces before the one that makes it
      wrong say: the good frames inside that piece are lost with it. */
  ghost predicate FedExactly<E>(c: Codec<E>, max: nat, buffer: seq<Byte>, pieces: seq<seq<Byte>>) {
    var n, whole := GoodPieces(c, max, buffer, pieces), Parse(c, max, buffer + Concat(pieces));
    && FedRight(FeedAll(c, max, buffer, pieces), Parse(c, max, Upto(buffer, pieces, n)), whole, n == |pieces|)
    && (n < |pieces| ==> Parse(c, max, Upto(buffer, pieces, n + 1)).Bad?)
  }

  lemma {:induction false} FeedIsExact<E>(c: Codec<E>, max: nat, buffer: seq<Byte>, pieces: seq<seq<Byte>>)
    requires Parse(c, max, buffer) == Good([], buffer)
    ensures FedExactly(c, max, buffer, pieces)
    decreases |pieces|
  {
    if pieces == [] {
      assert pieces[..0] == pieces && buffer + Concat(pieces) == buffer;
    } else if Parse(c, max, buffer + pieces[0]).Good? {
      RestIsQuiet(c, max, buffer + pieces[0]);
      FeedIsExact(c, max, Parse(c, max, buffer + pieces[0]).rest, pieces[1..]);
      FeedOneMore(c, max, buffer, pieces);
    } else {
      FeedWrong(c, max, buffer, pieces);
    }
  }

  lemma FeedWrong<E>(c: Codec<E>, max: nat, buffer: seq<Byte>, pieces: seq<seq<Byte>>)
    requires Parse(c, max, buffer) == Good([], buffer)
    requires pieces != [] && Parse(c, max, buffer + pieces[0]).Bad?
    ensures FedExactly(c, max, buffer, pieces)
  {
    var more := pieces[1..];
    assert buffer + Concat(pieces[..0]) == buffer && buffer + Concat(pieces) == (buffer + pieces[0]) + Concat(more);
    UptoMore(buffer, pieces, 0);
    ParseAppend(c, max, buffer + pieces[0], Concat(more));
    ParseAppend(c, max, buffer + pieces[0], Concat(more[..0]));
  }

  lemma FeedOneMore<E>(c: Codec<E>, max: nat, buffer: seq<Byte>, pieces: seq<seq<Byte>>)
    requires pieces != [] && Parse(c, max, buffer + pieces[0]).Good?
    requires FedExactly(c, max, Parse(c, max, buffer + pieces[0]).rest, pieces[1..])
    ensures FedExactly(c, max, buffer, pieces)
  {
    var first, more := Parse(c, max, buffer + pieces[0]), pieces[1..];
    var n, k := GoodPieces(c, max, first.rest, more), |more|;
    assert pieces[..k + 1] == pieces && more[..k] == more;
    UptoReads(c, max, buffer, pieces, n);
    UptoReads(c, max, buffer, pieces, k);
    if n < k {
      UptoReads(c, max, buffer, pieces, n + 1);
    }
    FedRightAfter(first.envelopes, FeedAll(c, max, first.rest, more), Parse(c, max, Upto(first.rest, more, n)),
                  Parse(c, max, first.rest + Concat(more)), n == k);
  }

  /** How many bytes settle what stands at the front: the length field alone if it is over the limit,
      else the frame. More than there are if it is not settled yet. */
  function Settling<E>(c: Codec<E>, max: nat, b: seq<Byte>): nat {
    match FrontAt(c, max, b, 0)
    case Incomplete => |b| + 1
    case Wrong(TooLong) => 4
    case Wrong(Malformed) => 4 + Length(b[0..4])
    case Whole(_, size) => size
  }

  lemma FrontOfPart<E>(c: Codec<E>, max: nat, b: seq<Byte>, x: nat)
    requires x <= |b|
    ensures FrontAt(c, max, b[..x], 0) == if x < Settling(c, max, b) then Incomplete else FrontAt(c, max, b, 0)
  {
    var a := b[..x];
    if !FrontAt(c, max, a, 0).Incomplete? {
      assert a + b[x..] == b;
      FrontStays(c, max, a, b[x..]);
      assert a[0..4] == b[0..4];
    } else if x >= 4 {
      assert a[0..4] == b[0..4];
    }
  }

  /** Where a stream becomes wrong: the end of the bytes that say so. Beyond its end if it is right. */
  function WrongAt<E>(c: Codec<E>, max: nat, b: seq<Byte>): nat
    decreases |b|
  {
    match FrontAt(c, max, b, 0)
    case Whole(_, size) => size + WrongAt(c, max, b[size..])
    case _ => Settling(c, max, b)
  }

  /** Where the good frames of a stream end. */
  predicate FrameEnd<E>(c: Codec<E>, max: nat, b: seq<Byte>, at: nat)
    decreases |b|
  {
    match FrontAt(c, max, b, 0)
    case Whole(_, size) => at == size || (at > size && FrameEnd(c, max, b[size..], at - size))
    case _ => false
  }

  /** How many of them end by then. */
  function EndsBy<E>(c: Codec<E>, max: nat, b: seq<Byte>, x: nat): nat
    decreases |b|
  {
    match FrontAt(c, max, b, 0)
    case Whole(_, size) => if x < size then 0 else 1 + EndsBy(c, max, b[size..], x - size)
    case _ => 0
  }

  /** The first `x` bytes of a stream are right exactly if it becomes wrong later, and then say as many
      envelopes as frames end by then. */
  lemma {:induction false} PartReads<E>(c: Codec<E>, max: nat, b: seq<Byte>, x: nat)
    requires x <= |b|
    ensures Parse(c, max, b[..x]).Good? <==> x < WrongAt(c, max, b)
    ensures Parse(c, max, b[..x]).Good? ==> |Parse(c, max, b[..x]).envelopes| == EndsBy(c, max, b, x)
    decreases |b|
  {
    FrontOfPart(c, max, b, x);
    match FrontAt(c, max, b, 0)
    case Whole(_, size) =>
      if x >= size {
        PartReads(c, max, b[size..], x - size);
        assert b[..x][size..] == b[size..][..x - size];
      }
    case _ =>
  }

  /** No good frame of the stream ends after the one place and by the other. */
  ghost predicate NoneEnds<E>(c: Codec<E>, max: nat, b: seq<Byte>, x: nat, y: nat) {
    forall at: nat :: x < at <= y ==> !FrameEnd(c, max, b, at)
  }

  lemma EndsAfterTheFirst<E>(c: Codec<E>, max: nat, b: seq<Byte>, x: nat, y: nat)
    requires FrontAt(c, max, b, 0).Whole? && FrontAt(c, max, b, 0).size <= x <= y
    ensures var size := FrontAt(c, max, b, 0).size;
      NoneEnds(c, max, b, x, y) <==> NoneEnds(c, max, b[size..], x - size, y - size)
  {
    var size := FrontAt(c, max, b, 0).size;
    if NoneEnds(c, max, b, x, y) {
      forall at: nat | x - size < at <= y - size ensures !FrameEnd(c, max, b[size..], at) {
        assert !FrameEnd(c, max, b, at + size);
      }
    }
    if NoneEnds(c, max, b[size..], x - size, y - size) {
      forall at: nat | x < at <= y ensures !FrameEnd(c, max, b, at) {
        assert !FrameEnd(c, max, b[size..], at - size);
      }
    }
  }

  /** As many frames end by the one place as by the other exactly if none ends in between. */
  lemma {:induction false} NoEndBetween<E>(c: Codec<E>, max: nat, b: seq<Byte>, x: nat, y: nat)
    requires x <= y
    ensures EndsBy(c, max, b, x) == EndsBy(c, max, b, y) <==> NoneEnds(c, max, b, x, y)
    decreases |b|
  {
    match FrontAt(c, max, b, 0)
    case Whole(_, size) =>
      if x >= size {
        EndsAfterTheFirst(c, max, b, x, y);
        NoEndBetween(c, max, b[size..], x - size, y - size);
      } else if y >= size {
        assert FrameEnd(c, max, b, size);
      }
    case _ =>
  }

  /** Where the last piece ends that is read before the one that makes the stream wrong. */
  function LastCut<E>(c: Codec<E>, max: nat, buffer: seq<Byte>, pieces: seq<seq<Byte>>): nat {
    |Upto(buffer, pieces, GoodPieces(c, max, buffer, pieces))|
  }

  lemma {:induction false} UptoIsPrefix(buffer: seq<Byte>, pieces: seq<seq<Byte>>, n: nat)
    requires n <= |pieces|
    ensures Upto(buffer, pieces, n) <= Upto(buffer, pieces, |pieces|)
    decreases |pieces|
  {
    assert pieces[..|pieces|] == pieces;
    if n == 0 {
      assert Upto(buffer, pieces, 0) == buffer;
    } else {
      UptoMore(buffer, pieces, n - 1);
      UptoMore(buffer, pieces, |pieces| - 1);
      UptoIsPrefix(buffer + pieces[0], pieces[1..], n - 1);
    }
  }

  /** A wrong stream as it is fed: the pieces before the problem, and the one that brings it. */
  lemma FedUpto<E>(c: Codec<E>, max: nat, buffer: seq<Byte>, pieces: seq<seq<Byte>>)
    returns (part: seq<Byte>, next: seq<Byte>)
    requires Parse(c, max, buffer) == Good([], buffer) && Parse(c, max, buffer + Concat(pieces)).Bad?
    ensures GoodPieces(c, max, buffer, pieces) < |pieces|
    ensures part == Upto(buffer, pieces, GoodPieces(c, max, buffer, pieces)) <= buffer + Concat(pieces)
    ensures next == Upto(buffer, pieces, GoodPieces(c, max, buffer, pieces) + 1) <= buffer + Concat(pieces)
    ensures Parse(c, max, part).Good? && Parse(c, max, next).Bad?
    ensures FeedAll(c, max, buffer, pieces) ==
      Bad(Parse(c, max, part).envelopes, Parse(c, max, buffer + Concat(pieces)).problem)
  {
    var n := GoodPieces(c, max, buffer, pieces);
    FeedIsExact(c, max, buffer, pieces);
    part, next := Upto(buffer, pieces, n), Upto(buffer, pieces, n + 1);
    assert pieces[..|pieces|] == pieces;
    UptoIsPrefix(buffer, pieces, n);
    UptoIsPrefix(buffer, pieces, n + 1);
  }

  lemma PrefixReads<E>(c: Codec<E>, max: nat, part: seq<Byte>, all: seq<Byte>)
    requires part <= all
    ensures Parse(c, max, part).Good? <==> |part| < WrongAt(c, max, all)
    ensures Parse(c, max, part).Good? ==> |Parse(c, max, part).envelopes| == EndsBy(c, max, all, |part|)
  {
    assert part == all[..|part|];
    PartReads(c, max, all, |part|);
  }

  /** It is the last cut before the place where a wrong stream becomes wrong, and what is handed on is
      what ends by then. */
  lemma LastCutExactly<E>(c: Codec<E>, max: nat, buffer: seq<Byte>, pieces: seq<seq<Byte>>)
    requires Parse(c, max, buffer) == Good([], buffer) && Parse(c, max, buffer + Concat(pieces)).Bad?
    ensures var all, n := buffer + Concat(pieces), GoodPieces(c, max, buffer, pieces);
      && n < |pieces|
      && LastCut(c, max, buffer, pieces) < WrongAt(c, max, all) <= |Upto(buffer, pieces, n + 1)|
      && FeedAll(c, max, buffer, pieces).Bad?
      && |FeedAll(c, max, buffer, pieces).before| == EndsBy(c, max, all, LastCut(c, max, buffer, pieces))
  {
    var part, next := FedUpto(c, max, buffer, pieces);
    PrefixReads(c, max, part, buffer + Concat(pieces));
    PrefixReads(c, max, next, buffer + Concat(pieces));
  }

  /** Longer parts of a stream say more, and nothing different. */
  lemma LongerSaysMore<E>(c: Codec<E>, max: nat, a: seq<Byte>, b: seq<Byte>)
    requires a <= b && Parse(c, max, a).Good?
    ensures Parse(c, max, b).Good? ==> Parse(c, max, a).envelopes <= Parse(c, max, b).envelopes
    ensures Parse(c, max, b).Bad? ==> Parse(c, max, a).envelopes <= Parse(c, max, b).before
  {
    assert a + b[|a|..] == b;
    ParseAppend(c, max, a, b[|a|..]);
  }

  /** A wrong stream, fed. */
  lemma FedBefore<E>(c: Codec<E>, max: nat, buffer: seq<Byte>, pieces: seq<seq<Byte>>)
    requires Parse(c, max, buffer) == Good([], buffer) && Parse(c, max, buffer + Concat(pieces)).Bad?
    ensures var whole := Parse(c, max, buffer + Concat(pieces));
      && FeedAll(c, max, buffer, pieces).Bad? && FeedAll(c, max, buffer, pieces).before <= whole.before
      && FeedAll(c, max, buffer, pieces).problem == whole.problem
  {
    var part, next := FedUpto(c, max, buffer, pieces);
    LongerSaysMore(c, max, part, buffer + Concat(pieces));
  }

  lemma WrongCutsAgree<E>(c: Codec<E>, max: nat, buffer: seq<Byte>, ps: seq<seq<Byte>>, qs: seq<seq<Byte>>)
    requires Parse(c, max, buffer) == Good([], buffer) && Concat(ps) == Concat(qs)
    requires Parse(c, max, buffer + Concat(ps)).Bad? && LastCut(c, max, buffer, ps) <= LastCut(c, max, buffer, qs)
    ensures FeedAll(c, max, buffer, ps) == FeedAll(c, max, buffer, qs) <==>
      NoneEnds(c, max, buffer + Concat(ps), LastCut(c, max, buffer, ps), LastCut(c, max, buffer, qs))
  {
    FedBefore(c, max, buffer, ps);
    FedBefore(c, max, buffer, qs);
    LastCutExactly(c, max, buffer, ps);
    LastCutExactly(c, max, buffer, qs);
    NoEndBetween(c, max, buffer + Concat(ps), LastCut(c, max, buffer, ps), LastCut(c, max, buffer, qs));
  }

  lemma RightCutsAgree<E>(c: Codec<E>, max: nat, buffer: seq<Byte>, ps: seq<seq<Byte>>, qs: seq<seq<Byte>>)
    requires Parse(c, max, buffer) == Good([], buffer) && Concat(ps) == Concat(qs)
    requires Parse(c, max, buffer + Concat(ps)).Good?
    ensures FeedAll(c, max, buffer, ps) == FeedAll(c, max, buffer, qs)
  {
    FeedIsExact(c, max, buffer, ps);
    FeedIsExact(c, max, buffer, qs);
  }

  /** Two ways to cut the same stream give the same exactly when the stream is right, or when no good
      frame ends between the last cut before the place where it becomes wrong in the one and in the
      other. */
  lemma CutsAgreeExactly<E>(c: Codec<E>, max: nat, buffer: seq<Byte>, ps: seq<seq<Byte>>, qs: seq<seq<Byte>>)
    requires Parse(c, max, buffer) == Good([], buffer) && Concat(ps) == Concat(qs)
    ensures var all := buffer + Concat(ps);
      var x, y := LastCut(c, max, buffer, ps), LastCut(c, max, buffer, qs);
      FeedAll(c, max, buffer, ps) == FeedAll(c, max, buffer, qs) <==>
      Parse(c, max, all).Good? || (NoneEnds(c, max, all, x, y) && NoneEnds(c, max, all, y, x))
  {
    if Parse(c, max, buffer + Concat(ps)).Good? {
      RightCutsAgree(c, max, buffer, ps, qs);
    } else if LastCut(c, max, buffer, ps) <= LastCut(c, max, buffer, qs) {
      WrongCutsAgree(c, max, buffer, ps, qs);
    } else {
      WrongCutsAgree(c, max, buffer, qs, ps);
    }
  }

  /** A wrong stream loses nothing exactly when no good frame ends after the last cut before the place
      where it becomes wrong. */
  lemma WrongStreamsLoseNothingExactly<E>(c: Codec<E>, max: nat, buffer: seq<Byte>, pieces: seq<seq<Byte>>)
    requires Parse(c, max, buffer) == Good([], buffer) && Parse(c, max, buffer + Concat(pieces)).Bad?
    ensures var all := buffer + Concat(pieces);
      FeedAll(c, max, buffer, pieces) == Parse(c, max, all) <==>
      NoneEnds(c, max, all, LastCut(c, max, buffer, pieces), |all|)
  {
    var all := buffer + Concat(pieces);
    FedBefore(c, max, buffer, pieces);
    LastCutExactly(c, max, buffer, pieces);
    EndsOfAll(c, max, all);
    UptoIsPrefix(buffer, pieces, GoodPieces(c, max, buffer, pieces));
    assert pieces[..|pieces|] == pieces;
    NoEndBetween(c, max, all, LastCut(c, max, buffer, pieces), |all|);
  }

  lemma {:induction false} EndsOfAll<E>(c: Codec<E>, max: nat, b: seq<Byte>)
    requires Parse(c, max, b).Bad?
    ensures EndsBy(c, max, b, |b|) == |Parse(c, max, b).before|
    decreases |b|
  {
    if FrontAt(c, max, b, 0).Whole? {
      EndsOfAll(c, max, b[FrontAt(c, max, b, 0).size..]);
    }
  }

  // ------------------------------------------------------------ streams of frames

  ghost predicate AllFit<E>(c: Codec<E>, max: nat, es: seq<E>) {
    forall i :: 0 <= i < |es| ==> Fits(c, max, es[i])
  }

  function Stream<E>(c: Codec<E>, max: nat, es: seq<E>): seq<Byte>
    requires forall i :: 0 <= i < |es| ==> Fits(c, max, es[i])
  {
    if es == [] then [] else Frame(c, max, es[0]).value + Stream(c, max, es[1..])
  }

  lemma FrontOfFrame<E(!new)>(c: Codec<E>, max: nat, e: E, more: seq<Byte>)
    requires Inverse(c) && Fits(c, max, e)
    ensures FrontAt(c, max, Frame(c, max, e).value + more, 0) == Whole(e, |Frame(c, max, e).value|)
    ensures (Frame(c, max, e).value + more)[|Frame(c, max, e).value|..] == more
  {
    var body := c.encode(e);
    var b := Prefix(|body|) + body + more;
    LengthOfPrefix(|body|, []);
    assert b[0..4] == Prefix(|body|) + [] && b[4..4 + |body|] == body;
  }

  lemma {:induction false} StreamReadsBack<E(!new)>(c: Codec<E>, max: nat, es: seq<E>)
    requires Inverse(c) && AllFit(c, max, es)
    ensures Parse(c, max, Stream(c, max, es)) == Good(es, [])
  {
    if es != [] {
      FrontOfFrame(c, max, es[0], Stream(c, max, es[1..]));
      StreamReadsBack(c, max, es[1..]);
      assert [es[0]] + es[1..] == es;
    }
  }

  /** For every list of envelopes and every cutting of their frames, feeding the pieces yields
      exactly that list and leaves nothing. */
  lemma EveryCuttingDelivers<E(!new)>(c: Codec<E>, max: nat, es: seq<E>, pieces: seq<seq<Byte>>)
    requires Inverse(c) && AllFit(c, max, es) && Concat(pieces) == Stream(c, max, es)
    ensures FeedAll(c, max, [], pieces) == Good(es, [])
  {
    StreamReadsBack(c, max, es);
    FeedIsExact(c, max, [], pieces);
    assert pieces[..|pieces|] == pieces && [] + Concat(pieces) == Concat(pieces);
  }

  /** On a wrong stream the cutting does matter: an envelope followed by a length over the limit is
      lost when both come in one piece, and delivered when they come in two. */
  lemma WrongStreamsDependOnTheCut<E(!new)>(c: Codec<E>, max: nat, e: E)
    requires Inverse(c) && Fits(c, max, e) && max < U32_MAX
    ensures var frame, bad := Frame(c, max, e).value, Prefix(max + 1);
      && Concat([frame + bad]) == Concat([frame, bad])
      && FeedAll(c, max, [], [frame + bad]) == Bad([], TooLong)
      && FeedAll(c, max, [], [frame, bad]) == Bad([e], TooLong)
  {
    var frame, bad := Frame(c, max, e).value, Prefix(max + 1);
    var both, one, two: seq<seq<Byte>> := [frame, bad], [frame + bad], [bad];
    assert both[1..] == two && two[1..] == [] && one[1..] == [];
    assert Concat([bad]) == bad && Concat([frame + bad]) == frame + bad;
    LengthOfPrefix(max + 1, []);
    assert bad[0..4] == bad + [] && [] + bad == bad && [] + frame == frame && [] + (frame + bad) == frame + bad;
    assert Parse(c, max, bad) == Bad([], TooLong);
    FrontOfFrame(c, max, e, bad);
    FrontOfFrame(c, max, e, []);
    assert frame + [] == frame;
    assert Parse(c, max, []) == Good([], []);
  }

  /** A frame over the limit, or one that does not decode, is a problem, whatever follows it. */
  lemma WrongFramesAreProblems<E>(c: Codec<E>, max: nat, body: seq<Byte>, more: seq<Byte>)
    requires |body| <= U32_MAX
    ensures |body| > max ==> Parse(c, max, Prefix(|body|) + body + more) == Bad([], TooLong)
    ensures |body| <= max && c.decode(body).None? ==> Parse(c, max, Prefix(|body|) + body + more) == Bad([], Malformed)
  {
    var b := Prefix(|body|) + body + more;
    LengthOfPrefix(|body|, []);
    assert b[0..4] == Prefix(|body|) + [] && b[4..4 + |body|] == body;
  }

  /** A proper prefix of a frame is kept for later. */
  lemma PartOfAFrameWaits<E>(c: Codec<E>, max: nat, e: E, part: seq<Byte>)
    requires Fits(c, max, e) && part < Frame(c, max, e).value
    ensures Parse(c, max, part) == Good([], part)
  {
    var body := c.encode(e);
    if |part| >= 4 {
      LengthOfPrefix(|body|, []);
      assert part[0..4] == Prefix(|body|) + [];
    }
  }

  lemma BeyondTheFirst(first: seq<Byte>, others: seq<Byte>, seen: seq<Byte>)
    requires seen <= first + others && |seen| >= |first|
    ensures seen == first + seen[|first|..] && seen[|first|..] <= others
  {
  }

  lemma FrameThenMore<E(!new)>(c: Codec<E>, max: nat, e: E, more: seq<Byte>)
    requires Inverse(c) && Fits(c, max, e)
    ensures Parse(c, max, Frame(c, max, e).value + more) == After(e, Parse(c, max, more))
  {
    FrontOfFrame(c, max, e, more);
  }

  /** At any point of the stream the envelopes read are those whose frames are in, and what is left
      is a proper prefix of the next frame. */
  lemma {:induction false} LeftoverIsPartOfTheNext<E(!new)>(c: Codec<E>, max: nat, es: seq<E>, seen: seq<Byte>)
    returns (n: nat, rest: seq<Byte>)
    requires Inverse(c) && AllFit(c, max, es) && seen <= Stream(c, max, es)
    ensures n <= |es| && Parse(c, max, seen) == Good(es[..n], rest)
    ensures if n == |es| then rest == [] else rest < Frame(c, max, es[n]).value
  {
    if es == [] {
      return 0, [];
    }
    var frame := Frame(c, max, es[0]).value;
    if |seen| < |frame| {
      PartOfAFrameWaits(c, max, es[0], seen);
      return 0, seen;
    }
    BeyondTheFirst(frame, Stream(c, max, es[1..]), seen);
    FrameThenMore(c, max, es[0], seen[|frame|..]);
    n, rest := LeftoverIsPartOfTheNext(c, max, es[1..], seen[|frame|..]);
    assert [es[0]] + es[1..][..n] == es[..n + 1];
    n := n + 1;
  }
}
