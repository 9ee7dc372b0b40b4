/** Draining a node: the main thread runs what is left in the run queue, one dispatch after another,
    and forces out a service that will not come to rest. Threads of exclusive services are still
    about, and give news and kill as they please. */
module Draining {

  import opened Basics
  import opened Fairness

  const DRAIN_BUDGET: nat := 4096

  /** The services that are not exclusive: their mailboxes, the run queue, the table of handles, who is
      marked dead and who has been destroyed. */
  datatype Sys = Sys(
    mail: map<Handle, Mode>, queue: seq<Handle>, table: set<Handle>, dead: set<Handle>, destroyed: set<Handle>)

  predicate Held(s: Sys, h: Handle) {
    h in s.mail && (s.mail[h].InUse? || s.mail[h].Notified?)
  }

  /** A service waits in the queue once and only while its mailbox says so; those the thread has in
      hand are the only ones held; whoever is out of the table is dead; and the dead who have not been
      destroyed are queued or in hand, but for the `loose` ones. */
  ghost predicate Inv(s: Sys, hand: set<Handle>, loose: set<Handle>) {
    && NoRepeats(s.queue)
    && (forall h :: h in s.queue <==> h in s.mail && s.mail[h].Queued?)
    && (forall h :: Held(s, h) <==> h in hand)
    && s.destroyed <= s.dead
    && s.mail.Keys == s.table + s.dead && s.table !! s.dead
    && (forall h :: h in s.dead && h !in s.destroyed && h !in loose ==> !s.mail[h].Idle?)
  }

  // ------------------------------------------------------------ the steps, on values

  /** `notify`, and the push into the run queue when it says so. */
  function Notify(s: Sys, h: Handle): Sys {
    if h !in s.mail then s
    else match s.mail[h]
      case Idle => s.(mail := s.mail[h := Queued], queue := s.queue + [h])
      case InUse => s.(mail := s.mail[h := Notified])
      case _ => s
  }

  /** `retire`, taken as one step. */
  function Retire(s: Sys, h: Handle): Sys {
    if h !in s.table then s else Notify(s.(table := s.table - {h}, dead := s.dead + {h}), h)
  }

  function Popped(s: Sys): Sys
    requires s.queue != []
  {
    s.(mail := s.mail[s.queue[0] := InUse], queue := s.queue[1..])
  }

  function Pushed(s: Sys, h: Handle): Sys {
    s.(mail := s.mail[h := Queued], queue := s.queue + [h])
  }

  lemma NotifyKeeps(s: Sys, hand: set<Handle>, loose: set<Handle>, h: Handle)
    requires Inv(s, hand, loose)
    ensures Inv(Notify(s, h), hand, loose - {h}) && s.queue <= Notify(s, h).queue
  {
    var s' := Notify(s, h);
    forall g ensures g in s'.queue <==> g in s'.mail && s'.mail[g].Queued? {
      assert g in s'.queue <==> g in s.queue || (g == h && s'.queue != s.queue);
    }
    forall g ensures Held(s', g) <==> g in hand {
      assert Held(s', g) == Held(s, g);
    }
  }

  lemma RetireKeeps(s: Sys, hand: set<Handle>, loose: set<Handle>, h: Handle)
    requires Inv(s, hand, loose)
    ensures Inv(Retire(s, h), hand, loose) && s.queue <= Retire(s, h).queue
    ensures Retire(s, h).dead == if h in s.table then s.dead + {h} else s.dead
  {
    if h in s.table {
      var marked := s.(table := s.table - {h}, dead := s.dead + {h});
      var s' := Notify(marked, h);
      forall g ensures g in s'.queue <==> g in s'.mail && s'.mail[g].Queued? {
        assert g in s'.queue <==> g in s.queue || (g == h && s'.queue != s.queue);
      }
      forall g ensures Held(s', g) <==> g in hand {
        assert Held(s', g) == Held(s, g);
      }
      assert s'.mail.Keys == s.mail.Keys == s'.table + s'.dead;
    }
  }

  lemma PopKeeps(s: Sys, hand: set<Handle>)
    requires Inv(s, hand, {}) && s.queue != []
    ensures Inv(Popped(s), hand + {s.queue[0]}, {}) && s.queue[0] !in hand && s.queue[0] in s.mail
  {
    var s', h := Popped(s), s.queue[0];
    assert h in s.queue;
    forall g ensures g in s'.queue <==> g in s'.mail && s'.mail[g].Queued? {
      assert g in s.queue <==> g == h || g in s'.queue;
    }
    forall g ensures Held(s', g) <==> g in hand + {h} {
      assert g != h ==> Held(s', g) == Held(s, g);
    }
    assert !Held(s, h);
  }

  lemma PushKeeps(s: Sys, hand: set<Handle>, h: Handle)
    requires Inv(s, hand, {}) && h in hand
    ensures Inv(Pushed(s, h), hand - {h}, {})
  {
    var s' := Pushed(s, h);
    assert Held(s, h);
    forall g ensures g in s'.queue <==> g in s'.mail && s'.mail[g].Queued? {
      assert g in s'.queue <==> g in s.queue || g == h;
    }
    forall g ensures Held(s', g) <==> g in hand - {h} {
      assert g != h ==> Held(s', g) == Held(s, g);
    }
  }

  /** Letting go of a service at rest; if it died meanwhile nobody is on the way to it yet. */
  lemma LettingGoKeeps(s: Sys, h: Handle)
    requires Inv(s, {h}, {})
    ensures h in s.mail && Inv(s.(mail := s.mail[h := Mode.Idle]), {}, {h})
  {
    var s' := s.(mail := s.mail[h := Mode.Idle]);
    assert Held(s, h);
    forall g ensures !Held(s', g) {
      assert g != h ==> Held(s', g) == Held(s, g);
    }
  }

  /** The end of `destroy`: the mailbox is released, so that whatever comes late queues the service again
      and it is cleaned up once more. */
  lemma DestroyKeeps(s: Sys, h: Handle)
    requires Inv(s, {h}, {}) && h in s.dead
    ensures h in s.mail && Inv(s.(mail := s.mail[h := Mode.Idle], destroyed := s.destroyed + {h}), {}, {})
  {
    LettingGoKeeps(s, h);
  }

  // ------------------------------------------------------------ a dispatch

  /** What a running service or another thread does to a service: gives it news, or kills it. */
  datatype Deed = News(h: Handle) | Kill(h: Handle)

  /** What goes on around one dispatch: deeds before it takes a service, while that runs, right after,
      and before it takes the next; whether a live service that runs comes upon its own death, and if
      not whether it has to be made to yield. Which service that is, is up to the dispatch. */
  datatype Round = Round(
    before: seq<Deed>, during: seq<Deed>, noticed: bool, endless: bool, after: seq<Deed>, late: seq<Deed>)

  function InHand(hold: Option<Handle>): set<Handle> {
    if hold.Some? then {hold.value} else {}
  }

  /** The yields of one service. */
  function Yields(log: seq<Handle>, h: Handle): nat {
    if log == [] then 0 else Yields(log[..|log| - 1], h) + if log[|log| - 1] == h then 1 else 0
  }

  class Node {
    var mail: map<Handle, Mode>
    var queue: seq<Handle>
    var table: set<Handle>
    var dead: set<Handle>
    var destroyed: set<Handle>

    /** Who was running when a run ended in a yield, and whom others have killed. */
    ghost var log: seq<Handle>
    ghost var killed: set<Handle>

    /** How many dispatches there have been. */
    ghost var turns: nat

    function Value(): Sys
      reads this
    {
      Sys(mail, queue, table, dead, destroyed)
    }

    method NotifyService(h: Handle)
      modifies `mail, `queue
      ensures Value() == Notify(old(Value()), h)
    {
      if h in mail {
        match mail[h]
        case Idle => mail, queue := mail[h := Queued], queue + [h];
        case InUse => mail := mail[h := Notified];
        case _ =>
      }
    }

    method RetireService(h: Handle)
      modifies `mail, `queue, `table, `dead
      ensures Value() == Retire(old(Value()), h)
    {
      if h in table {
        table, dead := table - {h}, dead + {h};
        NotifyService(h);
      }
    }

    /** Others at work. Whoever is dead afterwards and was not before has been killed by them. */
    method Others(deeds: seq<Deed>, ghost hand: set<Handle>, ghost loose: set<Handle>)
      requires Inv(Value(), hand, loose) && killed <= dead
      modifies `mail, `queue, `table, `dead, `killed
      ensures Inv(Value(), hand, loose) && old(queue) <= queue && mail.Keys == old(mail.Keys)
      ensures dead == old(dead) + killed && old(killed) <= killed
    {
      for i := 0 to |deeds|
        invariant Inv(Value(), hand, loose) && old(queue) <= queue && mail.Keys == old(mail.Keys)
        invariant dead == old(dead) + killed && old(killed) <= killed
      {
        match deeds[i]
        case News(h) =>
          NotifyKeeps(Value(), hand, loose, h);
          NotifyService(h);
        case Kill(h) =>
          RetireKeeps(Value(), hand, loose, h);
          if h in table { killed := killed + {h}; }
          RetireService(h);
      }
    }

    /** `run_service`: a dead service does not run. A live one may be killed while it runs, and may
        or may not come upon that before it is out of work or has to yield. */
    method RunService(h: Handle, round: Round) returns (ran: Ran)
      requires Inv(Value(), {h}, {}) && killed <= dead
      modifies `mail, `queue, `table, `dead, `killed, `log
      ensures !ran.StillRunning? && old(queue) <= queue && mail.Keys == old(mail.Keys) && h in mail
      ensures dead == old(dead) + killed && old(killed) <= killed
      ensures log == if ran.Yielded? then old(log) + [h] else old(log)
      ensures h in old(dead) ==> ran.Dead?
      ensures ran.Dead? ==> h in dead
      ensures if ran.Idle? then Inv(Value(), {}, {h}) else Inv(Value(), {h}, {})
    {
      assert Held(Value(), h);
      if h in dead {
        return Dead;
      }
      Others(round.during, {h}, {});
      if h in dead && round.noticed {
        return Dead;
      }
      if round.endless {
        log := log + [h];
        return Yielded;
      }
      LettingGoKeeps(Value(), h);
      mail := mail[h := Mode.Idle];
      return Ran.Idle;
    }

    method Pop(ghost hand: set<Handle>) returns (next: Option<Handle>)
      requires Inv(Value(), hand, {})
      modifies `mail, `queue
      ensures Inv(Value(), hand + InHand(next), {}) && mail.Keys == old(mail.Keys)
      ensures next == if old(queue) == [] then None else Some(old(queue)[0])
      ensures old(queue) == if next.Some? then [next.value] + queue else queue
      ensures next.Some? ==> next.value !in hand
    {
      if queue == [] {
        assert hand + {} == hand;
        return None;
      }
      PopKeeps(Value(), hand);
      next := Some(queue[0]);
      mail, queue := mail[queue[0] := InUse], queue[1..];
    }

    method Push(h: Handle, ghost hand: set<Handle>)
      requires Inv(Value(), hand, {}) && h in hand
      modifies `mail, `queue
      ensures Inv(Value(), hand - {h}, {}) && queue == old(queue) + [h] && mail.Keys == old(mail.Keys)
    {
      assert Held(Value(), h);
      PushKeeps(Value(), hand, h);
      mail, queue := mail[h := Queued], queue + [h];
    }

    /** The end of `destroy`. */
    method Destroy(h: Handle)
      requires h in dead && Inv(Value(), {h}, {})
      modifies `mail, `destroyed
      ensures Inv(Value(), {}, {}) && mail.Keys == old(mail.Keys) && destroyed == old(destroyed) + {h}
    {
      assert Held(Value(), h);
      DestroyKeeps(Value(), h);
      mail, destroyed := mail[h := Mode.Idle], destroyed + {h};
    }

    /** The dead are destroyed, again if something has come late. */
    method SettleDead(h: Handle, round: Round) returns (next: Option<Handle>)
      requires killed <= dead && h in dead && Inv(Value(), {h}, {})
      modifies `mail, `queue, `table, `dead, `killed, `destroyed
      ensures Inv(Value(), InHand(next), {}) && mail.Keys == old(mail.Keys)
      ensures dead == old(dead) + killed && old(killed) <= killed
      ensures next.None? ==> queue == []
    {
      Others(round.after, {h}, {});
      Destroy(h);
      Others(round.late, {}, {});
      next := Pop({});
    }

    /** A service killed as it came to rest was found held by its killer, who sent nobody. */
    method Requeue(h: Handle)
      requires Inv(Value(), {}, {h})
      modifies `mail, `queue
      ensures Inv(Value(), {}, {}) && mail.Keys == old(mail.Keys)
    {
      if h in dead {
        NotifyKeeps(Value(), {}, {h}, h);
        NotifyService(h);
      }
    }

    /** A service that came to rest is let go, and queued once more if it was killed meanwhile. */
    method SettleIdle(h: Handle, round: Round) returns (next: Option<Handle>)
      requires killed <= dead && Inv(Value(), {}, {h})
      modifies `mail, `queue, `table, `dead, `killed
      ensures Inv(Value(), InHand(next), {}) && mail.Keys == old(mail.Keys)
      ensures dead == old(dead) + killed && old(killed) <= killed
      ensures next.None? ==> queue == []
    {
      Others(round.after, {}, {h});
      Requeue(h);
      Others(round.late, {}, {});
      next := Pop({});
    }

    /** A service that yielded goes behind those who wait, and is kept if nobody does. */
    method SettleYielded(h: Handle, round: Round) returns (next: Option<Handle>)
      requires killed <= dead && Inv(Value(), {h}, {})
      modifies `mail, `queue, `table, `dead, `killed
      ensures Inv(Value(), InHand(next), {}) && mail.Keys == old(mail.Keys)
      ensures dead == old(dead) + killed && old(killed) <= killed
      ensures next.Some? && old(queue) <= [next.value] + queue && ([next.value] + queue)[|queue|] == h
    {
      Others(round.after, {h}, {});
      next := Pop({h});
      if next.Some? {
        Push(h, {h} + InHand(next));
        assert {h} + InHand(next) - {h} == InHand(next);
      } else {
        next := Some(h);
        assert {h} + {} == InHand(next);
      }
    }

    /** `dispatch_step` once it has a service. */
    method DispatchService(h: Handle, round: Round) returns (next: Option<Handle>, yielded: Option<Handle>)
      requires Inv(Value(), {h}, {}) && killed <= dead
      modifies `mail, `queue, `table, `dead, `killed, `destroyed, `log
      ensures Inv(Value(), InHand(next), {}) && mail.Keys == old(mail.Keys)
      ensures dead == old(dead) + killed && old(killed) <= killed
      ensures log == if yielded.Some? then old(log) + [yielded.value] else old(log)
      ensures yielded.Some? ==> yielded.value == h && h in mail && h !in old(dead)
      ensures yielded.Some? ==> next.Some? && old(queue) <= [next.value] + queue && ([next.value] + queue)[|queue|] == h
      ensures next.None? ==> queue == []
    {
      yielded := None;
      var ran := RunService(h, round);
      if ran.Dead? {
        next := SettleDead(h, round);
      } else if ran.Idle? {
        next := SettleIdle(h, round);
      } else {
        next := SettleYielded(h, round);
        yielded := Some(h);
      }
    }

    /** `dispatch_step`: runs the service in hand, or else the first of the queue. The yield it reports
        is that of the service that ran, and no service yields once it is dead. The services that were
        waiting go before the one that yielded. It leaves with empty hands only if nobody waits. */
    method DispatchStep(hold: Option<Handle>, round: Round) returns (next: Option<Handle>, yielded: Option<Handle>)
      requires Inv(Value(), InHand(hold), {}) && killed <= dead
      modifies this
      ensures Inv(Value(), InHand(next), {}) && mail.Keys == old(mail.Keys)
      ensures dead == old(dead) + killed && old(killed) <= killed
      ensures log == if yielded.Some? then old(log) + [yielded.value] else old(log)
      ensures yielded.Some? ==> next.Some? && yielded.value in mail && yielded.value !in old(dead)
      ensures turns == old(turns) + 1
      ensures hold.Some? && yielded.Some? ==>
        yielded == hold && old(queue) <= [next.value] + queue && ([next.value] + queue)[|queue|] == hold.value
      ensures next.None? ==> queue == []
    {
      turns := turns + 1;
      var taken := hold;
      if hold.None? {
        Others(round.before, {}, {});
        taken := Pop({});
        if taken.None? {
          return None, None;
        }
        assert {} + InHand(taken) == {taken.value};
      }
      next, yielded := DispatchService(taken.value, round);
    }

    /** A yield is charged to the service that yielded, which is retired once it has used up its budget. */
    method Charge(h: Handle, budgets: map<Handle, nat>, ghost spent: set<Handle>, ghost hand: set<Handle>)
      returns (budgets': map<Handle, nat>, ghost spent': set<Handle>)
      requires Inv(Value(), hand, {}) && h in mail && h !in spent && spent <= dead
      requires log != [] && log[|log| - 1] == h && Charged(log[..|log| - 1], budgets, spent)
      modifies `mail, `queue, `table, `dead
      ensures Inv(Value(), hand, {}) && mail.Keys == old(mail.Keys)
      ensures Charged(log, budgets', spent') && spent <= spent' && dead == old(dead) + spent'
    {
      assert log[..|log| - 1] + [h] == log;
      OneMoreYield(log[..|log| - 1], budgets, spent, h);
      var count := (if h in budgets then budgets[h] else 0) + 1;
      if count < DRAIN_BUDGET {
        return budgets[h := count], spent;
      }
      budgets', spent' := budgets - {h}, spent + {h};
      RetireKeeps(Value(), hand, {}, h);
      if h in table {
        RetireService(h);
      }
    }

    /** One turn of the loop of `drain`. */
    method DrainStep(hold: Option<Handle>, round: Round, budgets: map<Handle, nat>, ghost spent: set<Handle>)
      returns (next: Option<Handle>, budgets': map<Handle, nat>, ghost spent': set<Handle>)
      requires Inv(Value(), InHand(hold), {}) && killed <= dead && spent <= dead
      requires Charged(log, budgets, spent) && forall h :: h in log ==> h in mail
      modifies this
      ensures Inv(Value(), InHand(next), {}) && mail.Keys == old(mail.Keys)
      ensures old(killed) <= killed && spent <= spent' && dead == old(dead) + killed + spent'
      ensures Charged(log, budgets', spent') && forall h :: h in log ==> h in mail
      ensures next.None? ==> queue == []
      ensures turns == old(turns) + 1
    {
      var yielded: Option<Handle>;
      next, yielded := DispatchStep(hold, round);
      budgets', spent' := budgets, spent;
      if yielded.Some? {
        assert log[..|log| - 1] == old(log);
        budgets', spent' := Charge(yielded.value, budgets, spent, InHand(next));
      }
    }

    /** The loop of `drain`. */
    method DrainLoop(rounds: seq<Round>)
      returns (hold: Option<Handle>, ghost budgets: map<Handle, nat>, ghost spent: set<Handle>)
      requires Inv(Value(), {}, {}) && log == [] && killed == {} && turns == 0
      modifies this
      ensures Inv(Value(), InHand(hold), {}) && mail.Keys == old(mail.Keys)
      ensures dead == old(dead) + killed + spent
      ensures Charged(log, budgets, spent) && forall h :: h in log ==> h in mail
      ensures rounds != [] && hold.None? ==> queue == []
      ensures hold.Some? ==> turns == |rounds|
    {
      hold := None;
      var counts: map<Handle, nat> := map[];
      spent := {};
      for i := 0 to |rounds|
        invariant Inv(Value(), InHand(hold), {}) && mail.Keys == old(mail.Keys)
        invariant dead == old(dead) + killed + spent && (i > 0 ==> hold.Some?) && turns == i
        invariant Charged(log, counts, spent) && forall h :: h in log ==> h in mail
      {
        hold, counts, spent := DrainStep(hold, rounds[i], counts, spent);
        if hold.None? {
          break;
        }
      }
      budgets := counts;
    }

    /** `drain`, up to as many dispatches as are given rounds: it goes on as long as it has a service in
        hand. No service yields more than DRAIN_BUDGET
        times, whoever runs in between; drain itself retires exactly those that do; and when it comes
        to an end nobody is left waiting, everybody who died has been destroyed, and everybody is at
        rest. */
    method Drain(rounds: seq<Round>) returns (hold: Option<Handle>)
      requires Inv(Value(), {}, {})
      modifies this
      ensures Inv(Value(), InHand(hold), {}) && mail.Keys == old(mail.Keys)
      ensures forall h :: Yields(log, h) <= DRAIN_BUDGET
      ensures forall h :: h in dead <==> h in old(dead) || h in killed || Yields(log, h) == DRAIN_BUDGET
      ensures |log| <= DRAIN_BUDGET * |mail.Keys|
      ensures rounds != [] && hold.None? ==>
        queue == [] && dead == destroyed && forall h :: h in mail ==> mail[h].Idle?
      ensures hold.Some? ==> turns == |rounds|
    {
      log, killed, turns := [], {}, 0;
      ghost var budgets: map<Handle, nat>;
      ghost var spent: set<Handle>;
      hold, budgets, spent := DrainLoop(rounds);
      SpentExactly(log, budgets, spent);
      AllYields(log, mail.Keys);
      if rounds != [] && hold.None? {
        AtTheEnd(Value());
      }
    }
  }

  /** The count kept for a service is that of its yields, until it has used up its budget. */
  ghost predicate Charged(log: seq<Handle>, budgets: map<Handle, nat>, spent: set<Handle>) {
    forall h :: if h in spent then Yields(log, h) == DRAIN_BUDGET && h !in budgets
      else Yields(log, h) < DRAIN_BUDGET && Yields(log, h) == if h in budgets then budgets[h] else 0
  }

  lemma SpentExactly(log: seq<Handle>, budgets: map<Handle, nat>, spent: set<Handle>)
    requires Charged(log, budgets, spent)
    ensures forall h :: Yields(log, h) <= DRAIN_BUDGET && (h in spent <==> Yields(log, h) == DRAIN_BUDGET)
  {
  }

  lemma Another(log: seq<Handle>, h: Handle)
    ensures forall g :: Yields(log + [h], g) == Yields(log, g) + if g == h then 1 else 0
  {
    assert (log + [h])[..|log|] == log;
  }

  lemma OneMoreYield(log: seq<Handle>, budgets: map<Handle, nat>, spent: set<Handle>, h: Handle)
    requires Charged(log, budgets, spent) && h !in spent
    ensures var count := (if h in budgets then budgets[h] else 0) + 1;
      if count >= DRAIN_BUDGET then Charged(log + [h], budgets - {h}, spent + {h})
      else Charged(log + [h], budgets[h := count], spent)
  {
    Another(log, h);
  }

  lemma AtTheEnd(s: Sys)
    requires Inv(s, {}, {}) && s.queue == []
    ensures s.dead == s.destroyed && forall h :: h in s.mail ==> s.mail[h].Idle?
  {
    forall h | h in s.mail ensures s.mail[h].Idle? {
      assert !Held(s, h) && h !in s.queue;
    }
  }

  function Without(log: seq<Handle>, h: Handle): seq<Handle> {
    if log == [] then []
    else
      var less, last := Without(log[..|log| - 1], h), log[|log| - 1];
      if last == h then less else less + [last]
  }

  lemma {:induction false} WithoutOne(log: seq<Handle>, h: Handle)
    ensures |log| == |Without(log, h)| + Yields(log, h)
    ensures forall g :: g in Without(log, h) ==> g in log && g != h
    ensures forall g :: g != h ==> Yields(Without(log, h), g) == Yields(log, g)
  {
    if log != [] {
      WithoutOne(log[..|log| - 1], h);
      Another(Without(log[..|log| - 1], h), log[|log| - 1]);
    }
  }

  /** Bounded yields of each are bounded yields of all. */
  lemma {:induction false} AllYields(log: seq<Handle>, services: set<Handle>)
    requires forall h :: h in log ==> h in services
    requires forall h :: h in services ==> Yields(log, h) <= DRAIN_BUDGET
    ensures |log| <= DRAIN_BUDGET * |services|
    decreases services
  {
    if log != [] {
      var h := log[|log| - 1];
      assert h in log;
      WithoutOne(log, h);
      AllYields(Without(log, h), services - {h});
    }
  }
}
