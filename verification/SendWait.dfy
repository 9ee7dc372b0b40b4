/** Sending on a socket: bytes go into the write buffer and out as far as the connection takes them.
    A caller of `send_wait` whose data takes the buffer to the high water mark waits until writing
    has brought it down to the low water mark, or the socket is closed.
 */
module SendWait {
  import opened Basics
  import W = WriteQueue

  type Waiter = nat

  datatype Answer = Done | Failed

  datatype Reply = Reply(to: Waiter, answer: Answer)

  /** What one write call to the connection does. */
  datatype Outcome = Wrote(n: nat) | Blocked | Interrupted | Broken

  datatype State = Connected | HalfCloseRead | HalfCloseWrite | Other

  predicate Writable(state: State) {
    state == Connected || state == HalfCloseRead
  }

  // ------------------------------------------------------------ flushing

  /** How one turn of the loop of `flush` ends: the buffer is empty, the connection blocks or breaks,
      or the loop goes on. */
  datatype End = Drained | Stopped | Lost | GoesOn

  function Taking(b: W.Buffer, n: nat): nat {
    if n <= W.Offered(b) then n else W.Offered(b)
  }

  /** A write that takes nothing means the other end is gone. */
  function TurnEnd(b: W.Buffer, o: Outcome): End {
    var f := W.Fronted(b);
    if f.high == [] then Drained
    else
      match o
      case Blocked => Stopped
      case Interrupted => GoesOn
      case Broken => Lost
      case Wrote(n) => if Taking(f, n) == 0 then Lost else GoesOn
  }

  function AfterTurn(b: W.Buffer, o: Outcome): W.Buffer {
    if TurnEnd(b, o).GoesOn? && o.Wrote? then W.Consumed(W.Fronted(b), Taking(W.Fronted(b), o.n)) else W.Fronted(b)
  }

  datatype Flushed = Flushed(buffer: W.Buffer, end: End)

  /** When the outcomes of the write calls run out, the connection blocks. */
  function Head(outcomes: seq<Outcome>): Outcome {
    if outcomes == [] then Blocked else outcomes[0]
  }

  /** Write after write until the buffer is empty, the connection blocks or it breaks. */
  function FlushOf(b: W.Buffer, outcomes: seq<Outcome>): Flushed
    decreases |outcomes|
  {
    var o := Head(outcomes);
    if TurnEnd(b, o).GoesOn? then FlushOf(AfterTurn(b, o), outcomes[1..]) else Flushed(AfterTurn(b, o), TurnEnd(b, o))
  }

  /** A flush ends the socket when the connection is lost, or when a half-closed one has nothing more
      to write. */
  predicate StaysOpen(state: State, end: End) {
    !end.Lost? && !(end.Drained? && (state == HalfCloseRead || state == HalfCloseWrite))
  }

  // ------------------------------------------------------------ waiting

  function Names(replies: seq<Reply>): seq<Waiter> {
    if replies == [] then [] else Names(replies[..|replies| - 1]) + [replies[|replies| - 1].to]
  }

  /** The replies that tell all waiters the same. */
  function Tell(waiters: seq<Waiter>, answer: Answer): seq<Reply> {
    if waiters == [] then [] else Tell(waiters[..|waiters| - 1], answer) + [Reply(waiters[|waiters| - 1], answer)]
  }

  /** Everybody is told that answer, in the order they waited. */
  lemma {:induction false} TellSays(waiters: seq<Waiter>, answer: Answer, i: nat)
    requires i < |waiters|
    ensures |Tell(waiters, answer)| == |waiters| && Tell(waiters, answer)[i] == Reply(waiters[i], answer)
  {
    var n := |waiters| - 1;
    if n > 0 {
      TellSays(waiters[..n], answer, if i < n then i else 0);
    }
  }

  lemma {:induction false} TellNames(replies: seq<Reply>, waiters: seq<Waiter>, answer: Answer)
    ensures Names(replies + Tell(waiters, answer)) == Names(replies) + waiters
  {
    if waiters == [] {
      assert replies + Tell(waiters, answer) == replies;
    } else {
      var n := |waiters| - 1;
      TellNames(replies, waiters[..n], answer);
      var all := replies + Tell(waiters, answer);
      assert all[..|all| - 1] == replies + Tell(waiters[..n], answer);
      assert waiters == waiters[..n] + [waiters[n]];
    }
  }

  /** What became of the waiters `w` and the replies `r`, when the buffer now has `size` bytes: all are
      released if it came down to the low water mark, told of the failure if the socket was closed
      above it, and else still there. */
  predicate Followed(w: seq<Waiter>, r: seq<Reply>, w': seq<Waiter>, r': seq<Reply>, low: nat, size: int, open: bool) {
    && w' == (if open && size > low then w else [])
    && r' == r + (if size <= low then Tell(w, Done) else if open then [] else Tell(w, Failed))
  }

  lemma FollowedTwice(w: seq<Waiter>, r: seq<Reply>, w1: seq<Waiter>, r1: seq<Reply>, size1: int,
                      w2: seq<Waiter>, r2: seq<Reply>, size2: int, low: nat, open: bool)
    requires Followed(w, r, w1, r1, low, size1, true) && Followed(w1, r1, w2, r2, low, size2, open) && size2 <= size1
    ensures Followed(w, r, w2, r2, low, size2, open)
  {
    if size1 <= low {
      assert r1 + Tell([], Done) == r1;
    } else {
      assert r1 == r + [] == r;
    }
  }

  class Socket {
    const wb: W.Queue
    const warnSize: nat
    const lowWater: nat
    const highWater: nat
    var open: bool
    var state: State
    var waiters: seq<Waiter>
    var replies: seq<Reply>
    var warnings: seq<int>            // warning events sent to the owner
    ghost var entered: seq<Waiter>    // everybody who ever had to wait
    ghost var uses: seq<Use>          // what has been done to the buffer
    ghost var shifts: seq<Shift>      // what has changed the state

    /** Everybody who waited is answered once, in order, or is still waiting. */
    ghost predicate Recorded()
      reads this, wb
    {
      lowWater < highWater && entered == Names(replies) + waiters && (!open ==> waiters == [])
    }

    /** Nobody waits once the buffer is down to the low water mark. */
    ghost predicate Heeded()
      reads this, wb
    {
      Recorded() && (waiters != [] ==> wb.size > lowWater)
    }

    /** And the buffer is what sends and flushes have made of it, the state what closing has. */
    ghost predicate Valid()
      reads this, wb
    {
      Heeded() && wb.Value() == AfterUses(warnSize, uses) && state == StateAfter(shifts)
    }

    constructor (warn: nat, low: nat, high: nat)
      requires 0 < low < high
      ensures Valid() && fresh(wb) && open && waiters == [] && replies == [] && wb.Value() == W.EMPTY
      ensures warnSize == warn && lowWater == low && highWater == high && state == Connected && shifts == []
    {
      wb := new W.Queue();
      warnSize, lowWater, highWater := warn, low, high;
      open, state, waiters, replies, warnings := true, Connected, [], [], [];
      entered, uses, shifts := [], [], [];
    }

    /** `release_send_waiters`. */
    method Release()
      requires Recorded()
      modifies this`waiters, this`replies
      ensures Heeded()
      ensures if wb.size > lowWater then waiters == old(waiters) && replies == old(replies)
              else waiters == [] && replies == old(replies) + Tell(old(waiters), Done)
    {
      if wb.size > lowWater || waiters == [] {
        assert replies + Tell([], Done) == replies;
        return;
      }
      TellNames(replies, waiters, Done);
      replies := replies + Tell(waiters, Done);
      waiters := [];
    }

    /** `close`: whoever still waits is told that the sending failed. */
    method Close()
      requires Recorded() && open
      modifies this`open, this`waiters, this`replies
      ensures Heeded() && !open && waiters == []
      ensures replies == old(replies) + Tell(old(waiters), Failed)
    {
      TellNames(replies, waiters, Failed);
      replies := replies + Tell(waiters, Failed);
      open, waiters := false, [];
    }

    /** One turn of the loop of `flush`, for the given outcome of the write call in it. */
    method Turn(outcome: Outcome) returns (end: End)
      requires Heeded() && open
      modifies wb, this`open, this`waiters, this`replies
      ensures Heeded() && end == TurnEnd(old(wb.Value()), outcome) && (open <==> !end.Lost?)
      ensures wb.Value() == AfterTurn(old(wb.Value()), outcome) && wb.size <= old(wb.size)
      ensures Followed(old(waiters), old(replies), waiters, replies, lowWater, wb.size, open)
    {
      assert replies + Tell([], Done) == replies == replies + Tell([], Failed) == replies + [];
      var chunk := wb.NextChunk();
      if chunk.None? {
        return Drained;
      }
      match outcome
      case Wrote(n) =>
        var taken := if n <= |W.Rest(chunk.value)| then n else |W.Rest(chunk.value)|;
        if taken == 0 {
          Close();
          return Lost;
        }
        wb.Consume(taken);
        Release();
        return GoesOn;
      case Interrupted =>
        Release();
        return GoesOn;
      case Blocked =>
        return Stopped;
      case Broken =>
        Close();
        return Lost;
    }

    /** The loop of `flush`. The outcomes of the write calls come from outside. */
    method WriteOut(outcomes: seq<Outcome>) returns (end: End)
      requires Heeded() && open
      modifies wb, this`open, this`waiters, this`replies
      ensures Heeded() && Flushed(wb.Value(), end) == FlushOf(old(wb.Value()), outcomes) && (open <==> !end.Lost?)
      ensures Followed(old(waiters), old(replies), waiters, replies, lowWater, wb.size, open)
    {
      ghost var goal := FlushOf(wb.Value(), outcomes);
      var left := outcomes;
      assert replies + Tell([], Done) == replies == replies + [];
      end := GoesOn;
      while end.GoesOn?
        invariant Heeded() && (open <==> !end.Lost?)
        invariant goal == if end.GoesOn? then FlushOf(wb.Value(), left) else Flushed(wb.Value(), end)
        invariant Followed(old(waiters), old(replies), waiters, replies, lowWater, wb.size, open)
        decreases end.GoesOn?, |left|
      {
        ghost var w, r, size := waiters, replies, wb.size;
        end := Turn(Head(left));
        FollowedTwice(old(waiters), old(replies), w, r, size, waiters, replies, wb.size, lowWater, open);
        left := if left == [] then [] else left[1..];
      }
    }

    /** `flush`: write, and close a socket that was only waiting to get rid of its data. */
    method FlushOut(outcomes: seq<Outcome>)
      requires Heeded() && open
      modifies wb, this`open, this`waiters, this`replies
      ensures Heeded() && wb.Value() == FlushOf(old(wb.Value()), outcomes).buffer
      ensures open <==> StaysOpen(state, FlushOf(old(wb.Value()), outcomes).end)
      ensures state == Connected ==> (open <==> !FlushOf(old(wb.Value()), outcomes).end.Lost?)
      ensures state == HalfCloseRead || state == HalfCloseWrite ==>
        (open <==> FlushOf(old(wb.Value()), outcomes).end.Stopped?)
      ensures Followed(old(waiters), old(replies), waiters, replies, lowWater, wb.size, open)
    {
      FlushEnds(wb.Value(), outcomes);
      var end := WriteOut(outcomes);
      if end.Drained? && (state == HalfCloseRead || state == HalfCloseWrite) {
        assert replies + Tell([], Failed) == replies == replies + [];
        Close();
      }
    }

    /** `flush` when the connection can be written again. */
    method Flush(outcomes: seq<Outcome>)
      requires Valid()
      modifies wb, this`open, this`waiters, this`replies, this`uses
      ensures Valid()
      ensures wb.Value() == if old(open) then FlushOf(old(wb.Value()), outcomes).buffer else old(wb.Value())
      ensures open <==> old(open) && StaysOpen(state, FlushOf(old(wb.Value()), outcomes).end)
      ensures Followed(old(waiters), old(replies), waiters, replies, lowWater, wb.size, open)
    {
      assert replies + Tell([], Done) == replies == replies + Tell([], Failed);
      if open {
        OneMoreUse(warnSize, uses, FlushAgain(outcomes));
        FlushOut(outcomes);
        uses := uses + [FlushAgain(outcomes)];
      }
    }

    /** Into the buffer, and out again as far as the connection takes it. */
    method PushAndFlush(data: seq<Byte>, urgent: bool, outcomes: seq<Outcome>)
      requires Heeded() && open
      modifies wb, this`open, this`waiters, this`replies, this`warnings
      ensures Heeded() && wb.Value() == FlushOf(W.Pushed(old(wb.Value()), warnSize, data, urgent), outcomes).buffer
      ensures open == SendStaysOpen(state, old(wb.Value()), warnSize, data, urgent, outcomes)
      ensures Followed(old(waiters), old(replies), waiters, replies, lowWater, wb.size, open)
    {
      var warning := wb.Push(data, urgent, warnSize);
      if warning.Some? {
        warnings := warnings + [warning.value];
      }
      FlushOut(outcomes);
    }

    /** The same, as a use of the socket. */
    method SendNow(data: seq<Byte>, urgent: bool, outcomes: seq<Outcome>)
      requires Valid() && open && data != []
      modifies wb, this`open, this`waiters, this`replies, this`warnings, this`uses
      ensures Valid() && wb.Value() == Sent(old(wb.Value()), warnSize, data, urgent, outcomes)
      ensures open == SendStaysOpen(state, old(wb.Value()), warnSize, data, urgent, outcomes)
      ensures Followed(old(waiters), old(replies), waiters, replies, lowWater, wb.size, open)
    {
      OneMoreUse(warnSize, uses, Send(data, urgent, outcomes));
      PushAndFlush(data, urgent, outcomes);
      uses := uses + [Send(data, urgent, outcomes)];
    }

    /** `do_send`. Nothing happens to an empty chunk. */
    method DoSend(data: seq<Byte>, urgent: bool, outcomes: seq<Outcome>) returns (r: Answer)
      requires Valid()
      modifies wb, this`open, this`waiters, this`replies, this`warnings, this`uses
      ensures Valid() && (r.Done? <==> old(open) && (data == [] || Writable(state)))
      ensures wb.Value() == if r.Done? then Sent(old(wb.Value()), warnSize, data, urgent, outcomes) else old(wb.Value())
      ensures open ==
        if r.Done? && data != [] then SendStaysOpen(state, old(wb.Value()), warnSize, data, urgent, outcomes)
        else old(open)
      ensures Followed(old(waiters), old(replies), waiters, replies, lowWater, wb.size, open)
    {
      assert replies + Tell([], Done) == replies == replies + [] == replies + Tell([], Failed);
      if data == [] {
        return if open then Done else Failed;
      }
      if !open || !Writable(state) {
        return Failed;
      }
      SendNow(data, urgent, outcomes);
      return Done;
    }

    /** `do_send_wait`: the caller gets a place in the queue exactly when its data was accepted and
        leaves the buffer at the high water mark; otherwise it is answered at once. */
    method DoSendWait(data: seq<Byte>, urgent: bool, who: Waiter, outcomes: seq<Outcome>) returns (r: Option<Answer>)
      requires Valid()
      modifies wb, this`open, this`waiters, this`replies, this`warnings, this`entered, this`uses
      ensures Valid() && entered == old(entered) + if r.None? then [who] else []
      ensures r.None? ==> waiters != [] && waiters[|waiters| - 1] == who
      ensures r.None? <==> old(open) && (data == [] || Writable(state)) && open && wb.size >= highWater
      ensures r == Some(Done) <==> old(open) && (data == [] || Writable(state)) && open && wb.size < highWater
      ensures r != Some(Failed) ==> wb.Value() == Sent(old(wb.Value()), warnSize, data, urgent, outcomes)
    {
      var answer := DoSend(data, urgent, outcomes);
      if answer.Failed? || !open {
        return Some(Failed);
      }
      if wb.size < highWater {
        return Some(Done);
      }
      waiters := waiters + [who];
      entered := entered + [who];
      return None;
    }

    /** `do_close`: closed at once unless the connection will not take all that is left to write; then
        whoever closes has to wait, and nothing more may be sent unless the other end closes too. */
    method DoClose(outcomes: seq<Outcome>) returns (r: Option<Answer>)
      requires Valid()
      modifies wb, this`open, this`waiters, this`replies, this`state, this`uses, this`shifts
      ensures Valid() && r == (if open then None else Some(Done))
      ensures open <==> old(open) && FlushOf(old(wb.Value()), outcomes).end.Stopped?
      ensures open ==> state == HalfCloseWrite && !Writable(state)
      ensures shifts == if open then old(shifts) + [Closing] else old(shifts)
      ensures wb.Value() == if old(open) then FlushOf(old(wb.Value()), outcomes).buffer else old(wb.Value())
      ensures Followed(old(waiters), old(replies), waiters, replies, lowWater, wb.size, open)
    {
      FlushEnds(wb.Value(), outcomes);
      Flush(outcomes);
      if open {
        if wb.high == [] && wb.low == [] {
          CloseEmpty();
        } else {
          state := HalfCloseWrite;
          shifts := shifts + [Closing];
        }
      }
      r := if open then None else Some(Done);
    }

    /** Nobody waits on an empty buffer, so nobody is told of a failure when it is closed. */
    method CloseEmpty()
      requires Valid() && open && wb.high == [] && wb.low == []
      modifies this`open, this`waiters, this`replies
      ensures Valid() && !open && waiters == old(waiters) == [] && replies == old(replies)
    {
      WaitersAreMeasuredRight(warnSize, uses);
      assert waiters == [] && replies + Tell([], Failed) == replies;
      Close();
    }

    /** `peer_closed`: what is left is still written, and the socket closed after that. */
    method PeerClosed()
      requires Valid()
      modifies this`open, this`waiters, this`replies, this`state, this`shifts
      ensures Valid() && waiters == old(waiters) && replies == old(replies)
      ensures open <==> old(open) && (wb.high != [] || wb.low != [])
      ensures state == if open then HalfCloseRead else old(state)
      ensures shifts == if open then old(shifts) + [PeerGone] else old(shifts)
    {
      if open {
        if wb.high == [] && wb.low == [] {
          CloseEmpty();
        } else {
          state := HalfCloseRead;
          shifts := shifts + [PeerGone];
        }
      }
    }
  }

  // ------------------------------------------------------------ a closing socket

  /** What half-closes an open socket: a close that has to wait, and the end of what the other side
      sends. */
  datatype Shift = Closing | PeerGone

  function StateAfter(shifts: seq<Shift>): State {
    if shifts == [] then Connected else if shifts[|shifts| - 1] == Closing then HalfCloseWrite else HalfCloseRead
  }

  /** An open socket takes data if and only if nobody has closed it, or the other end has closed after
      every close: `peer_closed` overwrites the state a close had set. */
  lemma WritableExactlyAfterPeerGone(s: Socket)
    requires s.Valid()
    ensures Writable(s.state) <==>
      forall i :: 0 <= i < |s.shifts| && s.shifts[i] == Closing ==>
        exists j :: i < j < |s.shifts| && s.shifts[j] == PeerGone
  {
    var last := |s.shifts| - 1;
    if s.shifts != [] && s.shifts[last] == PeerGone {
      assert forall i :: 0 <= i < |s.shifts| && s.shifts[i] == Closing ==> i < last;
    }
  }

  lemma BlockedAtOnce(b: W.Buffer)
    requires b.high != [] || b.low != []
    ensures FlushOf(b, []) == Flushed(W.Fronted(b), Stopped) && W.Fronted(b).high != []
  {
  }

  /** A socket whose connection takes nothing, with data to write, on which a close has to wait. */
  method ClosingSocket(data: seq<Byte>, urgent: bool) returns (s: Socket, closed: Option<Answer>)
    requires data != []
    ensures fresh(s) && fresh(s.wb) && s.Valid() && s.open && s.state == HalfCloseWrite && closed == None
    ensures s.wb.high != []
  {
    s := new Socket(1024, 1, 2);
    ghost var pushed := W.Pushed(W.EMPTY, 1024, data, urgent);
    BlockedAtOnce(pushed);
    BlockedAtOnce(W.Fronted(pushed));
    var r := s.DoSend(data, urgent, []);
    closed := s.DoClose([]);
  }

  /** So data sent after a close can be accepted: it is refused at first, and no longer once the other
      end has closed too. */
  method SendAfterClose(first: seq<Byte>, second: seq<Byte>, urgent: bool)
    returns (closed: Option<Answer>, before: Answer, after: Answer)
    requires first != [] && second != []
    ensures closed == None && before == Failed && after == Done
  {
    var s: Socket;
    s, closed := ClosingSocket(first, urgent);
    before := s.DoSend(second, urgent, []);
    s.PeerClosed();
    after := s.DoSend(second, urgent, []);
  }

  // ------------------------------------------------------------ what sends make of a buffer

  /** The buffer after an accepted send. */
  function Sent(b: W.Buffer, warnSize: nat, data: seq<Byte>, urgent: bool, outcomes: seq<Outcome>): W.Buffer {
    if data == [] then b else FlushOf(W.Pushed(b, warnSize, data, urgent), outcomes).buffer
  }

  predicate SendStaysOpen(state: State, b: W.Buffer, warnSize: nat, data: seq<Byte>, urgent: bool,
                          outcomes: seq<Outcome>)
  {
    StaysOpen(state, FlushOf(W.Pushed(b, warnSize, data, urgent), outcomes).end)
  }

  /** How a flush goes by what each write call does, as long as there is something to write: a broken
      connection, or one that takes nothing, ends it; a full one stops it; anything else goes on with
      what is left. */
  lemma FlushGoesByTheOutcomes(b: W.Buffer, o: Outcome, more: seq<Outcome>)
    ensures var f := W.Fronted(b);
      && (f.high == [] ==> FlushOf(b, [o] + more) == Flushed(f, Drained))
      && (f.high != [] && W.Offered(f) > 0 ==>
            FlushOf(b, [o] + more) ==
            match o
            case Broken => Flushed(f, Lost)
            case Blocked => Flushed(f, Stopped)
            case Interrupted => FlushOf(f, more)
            case Wrote(n) =>
              if n == 0 then Flushed(f, Lost)
              else FlushOf(W.Consumed(f, if n <= W.Offered(f) then n else W.Offered(f)), more))
  {
    assert ([o] + more)[0] == o && ([o] + more)[1..] == more;
  }

  /** A flush comes to an end, and has drained the buffer exactly if nothing is left in it. */
  lemma {:induction false} FlushEnds(b: W.Buffer, outcomes: seq<Outcome>)
    ensures var f := FlushOf(b, outcomes);
      !f.end.GoesOn? && (f.end.Drained? <==> f.buffer.high == [] && f.buffer.low == [])
    decreases |outcomes|
  {
    var o := Head(outcomes);
    if TurnEnd(b, o).GoesOn? {
      FlushEnds(AfterTurn(b, o), outcomes[1..]);
    }
  }

  /** What is done to a socket's buffer: sends, and flushes when the connection can be written again. */
  datatype Use = Send(data: seq<Byte>, urgent: bool, outcomes: seq<Outcome>) | FlushAgain(outcomes: seq<Outcome>)

  function UsedOnce(b: W.Buffer, warnSize: nat, use: Use): W.Buffer {
    match use
    case Send(data, urgent, outcomes) => Sent(b, warnSize, data, urgent, outcomes)
    case FlushAgain(outcomes) => FlushOf(b, outcomes).buffer
  }

  function AfterUses(warnSize: nat, uses: seq<Use>): W.Buffer {
    if uses == [] then W.EMPTY
    else UsedOnce(AfterUses(warnSize, uses[..|uses| - 1]), warnSize, uses[|uses| - 1])
  }

  lemma OneMoreUse(warnSize: nat, uses: seq<Use>, use: Use)
    ensures AfterUses(warnSize, uses + [use]) == UsedOnce(AfterUses(warnSize, uses), warnSize, use)
  {
    assert (uses + [use])[..|uses|] == uses;
  }

  lemma OneMoreOp(warnSize: nat, ops: seq<W.Op>, op: W.Op)
    ensures W.PerformAll(warnSize, ops + [op]) == W.Perform(warnSize, W.PerformAll(warnSize, ops), op)
  {
    assert (ops + [op])[..|ops|] == ops;
  }

  lemma TurnIsARun(warnSize: nat, ops: seq<W.Op>, o: Outcome) returns (more: seq<W.Op>)
    ensures AfterTurn(W.PerformAll(warnSize, ops).b, o) == W.PerformAll(warnSize, more).b
  {
    var b := W.PerformAll(warnSize, ops).b;
    OneMoreOp(warnSize, ops, W.DoNext);
    more := ops + [W.DoNext];
    if TurnEnd(b, o).GoesOn? && o.Wrote? {
      var n := Taking(W.Fronted(b), o.n);
      OneMoreOp(warnSize, more, W.DoConsume(n));
      more := more + [W.DoConsume(n)];
    }
  }

  lemma {:induction false} FlushIsARun(warnSize: nat, ops: seq<W.Op>, outcomes: seq<Outcome>) returns (more: seq<W.Op>)
    ensures FlushOf(W.PerformAll(warnSize, ops).b, outcomes).buffer == W.PerformAll(warnSize, more).b
    decreases |outcomes|
  {
    more := TurnIsARun(warnSize, ops, Head(outcomes));
    if TurnEnd(W.PerformAll(warnSize, ops).b, Head(outcomes)).GoesOn? {
      more := FlushIsARun(warnSize, more, outcomes[1..]);
    }
  }

  lemma {:induction false} UsesAreARun(warnSize: nat, uses: seq<Use>) returns (ops: seq<W.Op>)
    ensures AfterUses(warnSize, uses) == W.PerformAll(warnSize, ops).b
  {
    if uses == [] {
      return [];
    }
    ops := UsesAreARun(warnSize, uses[..|uses| - 1]);
    match uses[|uses| - 1]
    case Send(data, urgent, outcomes) =>
      if data != [] {
        OneMoreOp(warnSize, ops, W.DoPush(data, urgent));
        ops := FlushIsARun(warnSize, ops + [W.DoPush(data, urgent)], outcomes);
      }
    case FlushAgain(outcomes) => ops := FlushIsARun(warnSize, ops, outcomes);
  }

  /** Whatever is sent and however little each write takes, the size that waiters are measured by is
      the number of bytes still to be written. */
  lemma WaitersAreMeasuredRight(warnSize: nat, uses: seq<Use>)
    ensures var b := AfterUses(warnSize, uses); b.size == W.Unwritten(b.high) + W.Unwritten(b.low)
  {
    var ops := UsesAreARun(warnSize, uses);
    W.SizeIsUnwritten(warnSize, ops);
  }

  /** So of a socket, whatever has been done to it. */
  lemma SocketIsMeasuredRight(s: Socket)
    requires s.Valid()
    ensures s.wb.size == W.Unwritten(s.wb.high) + W.Unwritten(s.wb.low)
  {
    WaitersAreMeasuredRight(s.warnSize, s.uses);
  }
}
