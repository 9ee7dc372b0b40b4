/** How long one kind of work may hold up another: ready tasks before messages inside a service, and
    a service before the others on its worker. */
module Fairness {

  type Handle = nat

  const READY_BURST: nat := 64

  const YIELD_INTERVAL: nat := 64

  // ------------------------------------------------------------ tasks before messages

  /** The two queues of a mailbox, and how many ready tasks in a row have gone first. */
  datatype Box<M, T> = Box(messages: seq<M>, ready: seq<T>, streak: nat)

  datatype Work<M, T> = Message(m: M) | Ready(t: T) | Nothing

  datatype Taken<M, T> = Taken(box: Box<M, T>, work: Work<M, T>)

  /** What `take_work` does when it finds the queues like this. */
  function Take<M, T>(b: Box<M, T>): Taken<M, T> {
    if b.messages != [] && (b.streak >= READY_BURST || b.ready == []) then
      Taken(b.(messages := b.messages[1..], streak := 0), Message(b.messages[0]))
    else if b.ready != [] then
      var streak := if b.streak + 1 <= READY_BURST then b.streak + 1 else READY_BURST;
      Taken(b.(ready := b.ready[1..], streak := streak), Ready(b.ready[0]))
    else Taken(b, Nothing)
  }

  /** Ready tasks go first, oldest first, until a burst of them has passed a waiting message; then the
      oldest message goes. Nothing is taken exactly if there is nothing. */
  lemma TakeInOrder<M, T>(b: Box<M, T>)
    ensures var taken := Take(b);
      && (taken.work.Nothing? <==> b.messages == [] && b.ready == [])
      && (b.ready != [] && b.streak < READY_BURST ==>
            taken.work == Ready(b.ready[0]) && taken.box == Box(b.messages, b.ready[1..], b.streak + 1))
      && (b.messages != [] && (b.ready == [] || b.streak >= READY_BURST) ==>
            taken.work == Message(b.messages[0]) && taken.box == Box(b.messages[1..], b.ready, 0))
      && (b.messages == [] && b.ready != [] ==> taken.work == Ready(b.ready[0]) && taken.box.ready == b.ready[1..])
  {
  }

  class Mailbox<M, T> {
    var messages: seq<M>
    var ready: seq<T>
    var streak: nat

    ghost function Value(): Box<M, T>
      reads this
    {
      Box(messages, ready, streak)
    }

    constructor ()
      ensures Value() == Box([], [], 0)
    {
      messages, ready, streak := [], [], 0;
    }

    /** `take_work`, while nobody else moves; losing the race to go idle is part of the model of the
        mailbox state. */
    method TakeWork() returns (work: Work<M, T>)
      modifies this
      ensures Taken(Value(), work) == Take(old(Value()))
    {
      if streak >= READY_BURST {
        if messages != [] {
          work := Message(messages[0]);
          messages, streak := messages[1..], 0;
          return;
        }
      }
      if ready != [] {
        work := Ready(ready[0]);
        ready, streak := ready[1..], if streak + 1 <= READY_BURST then streak + 1 else READY_BURST;
        return;
      }
      if messages != [] {
        work := Message(messages[0]);
        messages, streak := messages[1..], 0;
        return;
      }
      work := Nothing;
    }
  }

  /** Between two takes others may add to both queues. */
  datatype Arrival<M, T> = Arrival(messages: seq<M>, ready: seq<T>)

  function Arrived<M, T>(b: Box<M, T>, a: Arrival<M, T>): Box<M, T> {
    b.(messages := b.messages + a.messages, ready := b.ready + a.ready)
  }

  /** The work of one take after another, each after the next arrival. */
  function Takes<M, T>(b: Box<M, T>, arrivals: seq<Arrival<M, T>>): seq<Work<M, T>>
    decreases |arrivals|
  {
    if arrivals == [] then []
    else
      var taken := Take(Arrived(b, arrivals[0]));
      [taken.work] + Takes(taken.box, arrivals[1..])
  }

  /** How many takes the message at a position may have to wait for. */
  function Patience<M, T>(b: Box<M, T>, position: nat): int {
    position * (READY_BURST + 1) + READY_BURST - b.streak + 1
  }

  /** A message at any position is taken within that many takes, whatever arrives meanwhile: ready
      tasks can pass it only READY_BURST at a time. */
  lemma {:induction false} MessagesAreNotStarved<M, T>(b: Box<M, T>, position: nat, arrivals: seq<Arrival<M, T>>)
    returns (when: nat)
    requires b.streak <= READY_BURST && position < |b.messages| && |arrivals| >= Patience(b, position)
    ensures when < Patience(b, position) && when < |Takes(b, arrivals)|
    ensures Takes(b, arrivals)[when] == Message(b.messages[position])
    decreases arrivals
  {
    var now := Arrived(b, arrivals[0]);
    var taken := Take(now);
    assert now.messages[position] == b.messages[position];
    if taken.work.Message? {
      if position == 0 {
        return 0;
      }
      when := MessagesAreNotStarved(taken.box, position - 1, arrivals[1..]);
    } else {
      when := MessagesAreNotStarved(taken.box, position, arrivals[1..]);
    }
    assert Takes(b, arrivals)[when + 1] == Takes(taken.box, arrivals[1..])[when];
    when := when + 1;
  }

  // ------------------------------------------------------------ a service before the others

  /** What the loop of `run_service` meets in one turn: a message held back during initialisation,
      an item of the mailbox or nothing; whether the service is dead after it; and what
      `should_yield` says if asked. */
  datatype Turn = Turn(work: Source, dead: bool, waiting: bool)

  datatype Source = Backlog | Mail | NoWork

  datatype Ran = Idle | Yielded | Dead | StillRunning

  /** For how many turns up to this one somebody has been waiting for the worker. */
  function Waited(turns: seq<Turn>, i: nat): nat
    requires i <= |turns|
  {
    if i == 0 || !turns[i - 1].waiting then 0 else Waited(turns, i - 1) + 1
  }

  /** `run_service` on a live service, for as many turns as are given. No item is started after
      somebody has been waiting through YIELD_INTERVAL of them; and the service is handed back only
      after that many items, and only while somebody waits. */
  method RunService(turns: seq<Turn>, preemptible: bool) returns (ran: Ran, items: nat)
    ensures items <= |turns| && (ran.StillRunning? ==> items == |turns|)
    ensures preemptible ==> forall i :: 0 <= i < items ==> Waited(turns, i) < YIELD_INTERVAL
    ensures ran.Yielded? ==> preemptible && items >= YIELD_INTERVAL && turns[items - 1].waiting
    ensures ran.Idle? ==> items < |turns| && turns[items].work.NoWork?
    ensures ran.Dead? <==> items > 0 && turns[items - 1].dead
    ensures forall i :: 0 <= i < items ==> !turns[i].work.NoWork? && (i < items - 1 ==> !turns[i].dead)
  {
    items := 0;
    var done := 0;
    while items < |turns|
      invariant 0 <= done <= items <= |turns|
      invariant forall i :: 0 <= i < items ==> !turns[i].work.NoWork? && !turns[i].dead
      invariant preemptible ==>
        Waited(turns, items) <= done && forall i :: 0 <= i <= items ==> Waited(turns, i) < YIELD_INTERVAL
    {
      var turn := turns[items];
      if turn.work.NoWork? {
        return Idle, items;
      }
      items := items + 1;
      if turn.dead {
        return Dead, items;
      }
      done := done + 1;
      if preemptible && done >= YIELD_INTERVAL {
        if turn.waiting {
          return Yielded, items;
        }
        if turn.work.Mail? {
          done := 0;
        }
      }
    }
    return StillRunning, items;
  }
}
