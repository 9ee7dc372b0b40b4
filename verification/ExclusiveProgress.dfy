/** What the thread of an exclusive service and its visitors come to: no item is lost or taken twice, and
    each of them running alone does its whole part.
 */
module ExclusiveProgress {
  import opened Basics
  import opened Crew
  import opened Exclusive

  // ------------------------------------------------------------ no item is lost

  /** Every item ever brought is in the bag or has been taken, and not both; no other is. */
  ghost predicate Kept(s: State) {
    forall i: Item ::
      (i in s.sh.work || i in s.book.taken <==> i < s.book.born) && !(i in s.sh.work && i in s.book.taken)
  }

  lemma VisitorsKeep(s: State, t: Tid, e: Event)
    requires Kept(s)
    ensures Kept(VisitorStep(s, t, e)) && VisitorStep(s, t, e).book.taken == s.book.taken
    ensures VisitorStep(s, t, e).book.born == s.book.born + One(At(s, t).Bringing?)
  {
  }

  lemma ExecutorKeeps(s: State, e: Event)
    requires Kept(s)
    ensures Kept(ExecutorStep(s, e)) && ExecutorStep(s, e).book.born == s.book.born
    ensures ExecutorStep(s, e).book.taken ==
      if s.exec.Scanning? && e.Pick? && e.i in s.sh.work && !(s.exec.p == Draining && e.Instead?)
      then s.book.taken + {e.i} else s.book.taken
  {
  }

  lemma {:induction false} RunKeeps(run: seq<State>)
    requires IsRun(run)
    ensures Kept(run[|run| - 1])
  {
    if |run| > 1 {
      var before := run[..|run| - 1];
      forall i | 0 <= i < |before| - 1 ensures Step(before[i], before[i + 1]) {
        assert Step(run[i], run[i + 1]);
      }
      RunKeeps(before);
      var s, s' := run[|run| - 2], run[|run| - 1];
      assert s == before[|before| - 1] && Step(run[|run| - 2], run[|run| - 2 + 1]);
      if t, e :| s' == VisitorStep(s, t, e) {
        VisitorsKeep(s, t, e);
      } else {
        var e :| s' == ExecutorStep(s, e);
        ExecutorKeeps(s, e);
      }
    }
  }

  /** In every reachable state every item that was brought waits in the bag or has been taken by the
      executor, once. */
  lemma NothingIsLost(s: State, i: Item)
    requires Reachable(s)
    ensures i < s.book.born ==> (i in s.sh.work <==> i !in s.book.taken)
    ensures i >= s.book.born ==> i !in s.sh.work && i !in s.book.taken
  {
    var run :| IsRun(run) && run[|run| - 1] == s;
    RunKeeps(run);
  }

  // ------------------------------------------------------------ the thread alone

  /** The executor takes one step after another, as the events say, and nobody else any. */
  function Plays(sh: Shared, x: Executor, events: seq<Event>): (r: (Shared, Executor))
    decreases |events|
  {
    if events == [] then (sh, x)
    else
      var (sh', x') := Execute(sh, x, events[0]);
      Plays(sh', x', events[1..])
  }

  lemma PlaysOne(sh: Shared, x: Executor, e: Event, more: seq<Event>)
    ensures var (sh', x') := Execute(sh, x, e); Plays(sh, x, [e] + more) == Plays(sh', x', more)
  {
    assert ([e] + more)[1..] == more;
  }

  lemma {:induction false} PlaysOn(sh: Shared, x: Executor, first: seq<Event>, more: seq<Event>)
    ensures var (sh', x') := Plays(sh, x, first); Plays(sh, x, first + more) == Plays(sh', x', more)
    decreases |first|
  {
    if first == [] {
      assert first + more == more;
    } else {
      var (sh', x') := Execute(sh, x, first[0]);
      PlaysOn(sh', x', first[1..], more);
      assert first + more == [first[0]] + (first[1..] + more);
      PlaysOne(sh, x, first[0], first[1..] + more);
    }
  }

  /** Scanning alone empties the bag. */
  lemma {:induction false} ScanEnds(sh: Shared, p: Phase) returns (events: seq<Event>)
    requires p == Serving ==> !sh.dead
    ensures Plays(sh, Scanning(p), events) == (sh.(work := {}), Empty(p))
    decreases sh.work
  {
    if sh.work == {} {
      PlaysOne(sh, Scanning(p), Continue, []);
      return [Continue] + [];
    }
    var i :| i in sh.work;
    var less := sh.(work := sh.work - {i});
    events := ScanEnds(less, p);
    if p == Serving {
      PlaysOne(less, Working, Continue, events);
      PlaysOne(sh, Scanning(p), Pick(i), [Continue] + events);
      events := [Pick(i)] + ([Continue] + events);
    } else {
      PlaysOne(sh, Scanning(p), Pick(i), events);
      events := [Pick(i)] + events;
    }
  }

  /** From holding the service to letting it go. */
  lemma LetsGo(sh: Shared, p: Phase) returns (events: seq<Event>)
    requires sh.mode == InUse && (p == Serving ==> !sh.dead)
    ensures Plays(sh, Scanning(p), events) == (sh.(work := {}, mode := Idle), Settled(p))
  {
    events := ScanEnds(sh, p);
    PlaysOn(sh, Scanning(p), events, [Continue] + []);
    PlaysOne(sh.(work := {}), Empty(p), Continue, []);
    events := events + ([Continue] + []);
  }

  /** The thread alone, coming back to a live service: it works off everything there is, and blocks. */
  lemma SoloServe(sh: Shared) returns (events: seq<Event>)
    requires !sh.dead
    ensures Plays(sh, Marking(Serving), events) == (sh.(work := {}, mode := Idle), Blocking)
  {
    var held := sh.(mode := InUse);
    events := LetsGo(held, Serving);
    var idle := sh.(work := {}, mode := Idle);
    PlaysOn(held, Scanning(Serving), events, [Continue] + []);
    PlaysOne(idle, Leaving, Continue, []);
    events := events + ([Continue] + []);
    PlaysOne(held, Entering, Continue, events);
    PlaysOne(sh, Marking(Serving), Continue, [Continue] + events);
    events := [Continue] + ([Continue] + events);
  }

  /** The thread alone, coming back to a dead service: it still works off everything there is, and
      exits. */
  lemma SoloEnd(sh: Shared) returns (events: seq<Event>)
    requires sh.dead
    ensures Plays(sh, Marking(Serving), events) == (sh.(work := {}, mode := Idle), Exited)
  {
    var held := sh.(mode := InUse);
    var drained := sh.(work := {}, mode := Idle);
    var first := LetsGo(held, Draining);
    var second := LetsGo(drained.(mode := InUse), Burying);
    PlaysOne(drained, Marking(Burying), Continue, second);
    PlaysOn(held, Scanning(Draining), first, [Continue] + second);
    events := first + ([Continue] + second);
    PlaysOne(held, Marking(Draining), Continue, events);
    PlaysOne(held, Entering, Continue, [Continue] + events);
    PlaysOne(sh, Marking(Serving), Continue, [Continue] + ([Continue] + events));
    events := [Continue] + ([Continue] + ([Continue] + events));
  }

  /** A blocked thread with a token comes back to the service, and the token is used up. */
  lemma TokensUnblock(sh: Shared, e: Event)
    requires sh.token
    ensures Execute(sh, Blocking, e) == (sh.(token := false), Marking(Serving))
  {
  }

  /** A thread that finds its service dead, on coming back, after an item or before it blocks, goes on to
      wind it up, whatever there is to do; winding up may stop early, when its budget is used up. */
  lemma DeathEndsService(sh: Shared, x: Executor, e: Event)
    requires sh.dead && (x.Entering? || x.Working? || x.Leaving?)
    ensures Execute(sh, x, e) == (sh, Marking(Draining))
    ensures Execute(sh, Scanning(Draining), Instead) == (sh, Marking(Burying))
  {
  }

  /** A blocked thread that nobody has told stays so, unless it comes back by itself. */
  lemma BlockedUntilTold(sh: Shared, e: Event)
    requires !sh.token
    ensures Execute(sh, Blocking, e) == (sh, if e.Instead? then Marking(Serving) else Blocking)
  {
  }

  // ------------------------------------------------------------ a visitor alone

  function Visits(sh: Shared, born: nat, v: Visitor, n: nat): (r: (Shared, Visitor))
    decreases n
  {
    if n == 0 then (sh, v)
    else
      var (sh', v') := Visit(sh, born, v, Continue);
      Visits(sh', born, v', n - 1)
  }

  /** What `notify` makes of the mailbox, and the interrupt that goes with queueing it. */
  function Noted(sh: Shared): Shared {
    match sh.mode
    case Idle => sh.(mode := Queued, token := sh.token || sh.bound)
    case InUse => sh.(mode := Notified)
    case _ => sh
  }

  lemma NoteEnds(sh: Shared, born: nat, why: Why) returns (n: nat)
    ensures Visits(sh, born, Note(why), n) == (Noted(sh), Outside)
  {
    assert Visits(Noted(sh), born, Outside, 0) == (Noted(sh), Outside);
    match sh.mode
    case Idle =>
      var queued := sh.(mode := Queued);
      assert Visits(queued, born, Interrupting, 1) == (Noted(sh), Outside);
      assert Visits(sh, born, Exchange(why, Idle), 2) == (Noted(sh), Outside);
      n := 3;
    case InUse =>
      assert Visits(sh, born, Exchange(why, InUse), 1) == (Noted(sh), Outside);
      n := 2;
    case _ => n := 1;
  }

  /** Bringing an item alone puts it into the bag and announces it; a thread that waits gets its token. */
  lemma SoloBring(sh: Shared, born: nat) returns (n: nat)
    ensures var (sh', v) := Visit(sh, born, Outside, Send);
      Visits(sh', born, v, n) == (Noted(sh.(work := sh.work + {born})), Outside)
  {
    var full := sh.(work := sh.work + {born});
    n := NoteEnds(full, born, Brought(born));
    assert Visits(sh, born, Bringing, n + 1) == Visits(full, born, Note(Brought(born)), n);
    n := n + 1;
  }

  /** A kill alone marks the service dead and announces that. */
  lemma SoloKill(sh: Shared, born: nat) returns (n: nat)
    requires !sh.dead
    ensures var (sh', v) := Visit(sh, born, Outside, Kill);
      Visits(sh', born, v, n) == (Noted(sh.(dead := true)), Outside)
  {
    var marked := sh.(dead := true);
    n := NoteEnds(marked, born, Killer);
    assert Visits(sh, born, Killing, n + 1) == Visits(marked, born, Note(Killer), n);
    n := n + 1;
  }
}
