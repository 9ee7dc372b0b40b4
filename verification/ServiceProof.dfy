/** Every step of every thread keeps the service's invariant.
 */
module ServiceProof {
  import opened Basics
  import opened ServiceSteps
  import opened ServiceSafety
  import opened Crew

  /** What the invariant says about the shared words and one thread's position. */
  predicate Local(sh: Shared, pc: Pc) {
    && PcOk(sh.box.mode, pc)
    && (HasToken(pc) ==> sh.box.entries == 0 && sh.box.mode != Idle)
    && (sh.box.entries > 0 ==> sh.box.mode == Queued)
    && !sh.panicked
    && OwnOk(sh.life, sh.work, pc)
    && OwnShared(sh)
    && (MarksDead(pc) ==> !sh.life.dead)
  }

  lemma InvIsLocal(s: State, t: Tid)
    requires TokenInv(s) && OwnInv(s) && KillInv(s)
    ensures Local(s.shared, At(s, t))
  {
    if HasToken(At(s, t)) {
      TokenIsUnique(s, t, t);
    }
    if MarksDead(At(s, t)) {
      assert t in Those(s.threads, MarksDead);
    }
  }

  /** The token is passed on, not made or lost, and nobody else's state word is changed under him. */
  predicate Passes(sh: Shared, pc: Pc, n: Next) {
    var b, b' := sh.box, n.sh.box;
    && One(HasToken(n.pc)) + b'.entries + One(b.mode != Idle) == One(HasToken(pc)) + b.entries + One(b'.mode != Idle)
    && PcOk(b'.mode, n.pc)
    && (b'.entries > 0 ==> b'.mode == Queued)
    && !n.sh.panicked
    && (b'.mode == b.mode || HasToken(pc) || b.mode == Idle || (b.mode == InUse && b'.mode == Notified))
  }

  /** Work is announced by whoever brings it, until somebody is sure to look for it; and a queue is
      found empty, or a service left idle, only when it is. */
  ghost predicate Declares(sh: Shared, pc: Pc, n: Next) {
    var b, b' := sh.box, n.sh.box;
    b'.mode == Queued || b'.mode == Notified ||
    ( && (forall m :: m in b'.queue ==> m in b.queue || Announces(n.pc, m))
      && (forall m :: Announces(pc, m) ==> Announces(n.pc, m))
      && b'.ready + One(AnnouncesReady(pc)) <= b.ready + One(AnnouncesReady(n.pc))
      && (b'.mode == Idle ==> b.mode == Idle || (b.mode == InUse && SawNoReady(pc) && SawNoMessage(pc)))
      && (b'.mode == InUse ==> b.mode == InUse || HasToken(pc))
      && (b'.mode == InUse && SawNoReady(n.pc) ==> b'.ready == 0 || (b.mode == InUse && SawNoReady(pc)))
      && (b'.mode == InUse && SawNoMessage(n.pc) ==> b'.queue == [] || (b.mode == InUse && SawNoMessage(pc))))
  }

  predicate Counts(sh: Shared, pc: Pc, n: Next) {
    n.sh.box.len - |n.sh.box.queue| - One(Owes(n.pc)) == sh.box.len - |sh.box.queue| - One(Owes(pc))
  }

  predicate Buries(sh: Shared, pc: Pc, n: Next) {
    var l, l' := sh.life, n.sh.life;
    && (l'.dead && !l'.destroyed && n.sh.box.mode == Idle ==>
          SeesToIt(n.pc) || (l.dead && !l.destroyed && sh.box.mode == Idle && !SeesToIt(pc)))
    && One(!l'.inTable) + One(l.dead) + One(MarksDead(pc)) == One(!l.inTable) + One(l'.dead) + One(MarksDead(n.pc))
    && l'.charged + One(Subtracts(n.pc)) + One(l.destroyed && !l.reserved) ==
       l.charged + One(Subtracts(pc)) + One(l'.destroyed && !l'.reserved)
  }

  predicate Owns(sh: Shared, pc: Pc, n: Next) {
    && OwnShared(n.sh)
    && OwnOk(n.sh.life, n.sh.work, n.pc)
    && (HasToken(pc) || (n.sh.work == sh.work && n.sh.life.released == sh.life.released))
    && (sh.life.dead ==> n.sh.life.dead) && (sh.life.released ==> n.sh.life.released)
  }

  ghost predicate KeepsBox(sh: Shared, pc: Pc, n: Next) {
    Passes(sh, pc, n) && Declares(sh, pc, n) && Counts(sh, pc, n)
  }

  predicate KeepsLife(sh: Shared, pc: Pc, n: Next) {
    Buries(sh, pc, n) && Owns(sh, pc, n)
  }

  // ------------------------------------------------------------ each kind of step

  lemma StartKeepsBox(sh: Shared, t: Tid, e: Event)
    requires Local(sh, Outside)
    ensures KeepsBox(sh, Outside, Start(sh, t, e))
  {
  }

  lemma DeliverKeepsBox(sh: Shared, b: Bringing)
    requires Local(sh, Bring(b))
    ensures KeepsBox(sh, Bring(b), Deliver(sh, b))
  {
  }

  lemma NotifyKeepsBox(sh: Shared, why: Why, cur: Mode, e: Event)
    requires Local(sh, Exchange(why, cur))
    ensures KeepsBox(sh, Exchange(why, cur), Notify(sh, why, cur, e))
  {
  }

  lemma DispatchKeepsBox(sh: Shared, t: Tid, r: Running, e: Event)
    requires Local(sh, Run(r))
    ensures KeepsBox(sh, Run(r), Dispatch(sh, t, r, e))
  {
  }

  lemma TakeWorkKeepsBox(sh: Shared, t: Tid, k: Taking, e: Event)
    requires Local(sh, Take(k))
    ensures KeepsBox(sh, Take(k), TakeWork(sh, t, k, e))
  {
  }

  lemma RunWorkKeepsBox(sh: Shared, d: Doing, e: Event)
    requires Local(sh, Do(d))
    ensures KeepsBox(sh, Do(d), RunWork(sh, d, e))
  {
  }

  lemma CleanUpKeepsBox(sh: Shared, t: Tid, c: Cleaning)
    requires Local(sh, Clean(c))
    ensures KeepsBox(sh, Clean(c), CleanUp(sh, t, c))
  {
  }

  lemma ConcludeKeepsBox(sh: Shared, n: Ending)
    requires Local(sh, End(n))
    ensures KeepsBox(sh, End(n), Conclude(sh, n))
  {
  }

  lemma StartKeepsLife(sh: Shared, t: Tid, e: Event)
    requires Local(sh, Outside)
    ensures KeepsLife(sh, Outside, Start(sh, t, e))
  {
  }

  lemma DeliverKeepsLife(sh: Shared, b: Bringing)
    requires Local(sh, Bring(b))
    ensures KeepsLife(sh, Bring(b), Deliver(sh, b))
  {
  }

  lemma NotifyKeepsLife(sh: Shared, why: Why, cur: Mode, e: Event)
    requires Local(sh, Exchange(why, cur))
    ensures KeepsLife(sh, Exchange(why, cur), Notify(sh, why, cur, e))
  {
  }

  lemma DispatchKeepsLife(sh: Shared, t: Tid, r: Running, e: Event)
    requires Local(sh, Run(r))
    ensures KeepsLife(sh, Run(r), Dispatch(sh, t, r, e))
  {
  }

  lemma TakeWorkKeepsLife(sh: Shared, t: Tid, k: Taking, e: Event)
    requires Local(sh, Take(k))
    ensures KeepsLife(sh, Take(k), TakeWork(sh, t, k, e))
  {
  }

  lemma RunWorkKeepsLife(sh: Shared, d: Doing, e: Event)
    requires Local(sh, Do(d))
    ensures KeepsLife(sh, Do(d), RunWork(sh, d, e))
  {
  }

  lemma CleanUpKeepsLife(sh: Shared, t: Tid, c: Cleaning)
    requires Local(sh, Clean(c))
    ensures KeepsLife(sh, Clean(c), CleanUp(sh, t, c))
  {
  }

  lemma ConcludeKeepsLife(sh: Shared, n: Ending)
    requires Local(sh, End(n))
    ensures KeepsLife(sh, End(n), Conclude(sh, n))
  {
  }

  lemma StepKeepsBox(sh: Shared, t: Tid, pc: Pc, e: Event)
    requires Local(sh, pc)
    ensures KeepsBox(sh, pc, Advance(sh, t, pc, e))
  {
    match pc {
      case Outside => StartKeepsBox(sh, t, e);
      case Bring(b) => DeliverKeepsBox(sh, b);
      case Note(_) =>
      case Exchange(why, cur) => NotifyKeepsBox(sh, why, cur, e);
      case Offer(_) =>
      case Enqueue =>
      case Run(r) => DispatchKeepsBox(sh, t, r, e);
      case Take(k) => TakeWorkKeepsBox(sh, t, k, e);
      case Do(d) => RunWorkKeepsBox(sh, d, e);
      case Clean(c) => CleanUpKeepsBox(sh, t, c);
      case End(n) => ConcludeKeepsBox(sh, n);
    }
  }

  lemma StepKeepsLife(sh: Shared, t: Tid, pc: Pc, e: Event)
    requires Local(sh, pc)
    ensures KeepsLife(sh, pc, Advance(sh, t, pc, e))
  {
    match pc {
      case Outside => StartKeepsLife(sh, t, e);
      case Bring(b) => DeliverKeepsLife(sh, b);
      case Note(_) =>
      case Exchange(why, cur) => NotifyKeepsLife(sh, why, cur, e);
      case Offer(_) =>
      case Enqueue =>
      case Run(r) => DispatchKeepsLife(sh, t, r, e);
      case Take(k) => TakeWorkKeepsLife(sh, t, k, e);
      case Do(d) => RunWorkKeepsLife(sh, d, e);
      case Clean(c) => CleanUpKeepsLife(sh, t, c);
      case End(n) => ConcludeKeepsLife(sh, n);
    }
  }

  // ------------------------------------------------------------ all threads together

  function After(s: State, t: Tid, n: Next): State {
    State(n.sh, s.threads[t := n.pc])
  }

  lemma TokenKept(s: State, t: Tid, n: Next)
    requires TokenInv(s) && Passes(s.shared, At(s, t), n)
    ensures TokenInv(After(s, t, n))
  {
    var s' := After(s, t, n);
    CountAfter(s.threads, t, n.pc, HasToken);
    forall u
      ensures PcOk(s'.shared.box.mode, At(s', u))
    {
      if u != t && HasToken(At(s, u)) {
        if HasToken(At(s, t)) {
          TokenIsUnique(s, t, u);
        } else {
          TokenIsUnique(s, u, u);
        }
      }
    }
  }

  lemma MessagesStayAnnounced(s: State, t: Tid, n: Next)
    requires MessagesAnnounced(s) && Declares(s.shared, At(s, t), n)
    requires n.sh.box.mode != Queued && n.sh.box.mode != Notified
    ensures MessagesAnnounced(After(s, t, n))
  {
    var s' := After(s, t, n);
    forall m | m in s'.shared.box.queue ensures exists u :: Announces(At(s', u), m) {
      if m in s.shared.box.queue {
        var u :| Announces(At(s, u), m);
        assert Announces(At(s', u), m);
      } else {
        assert Announces(At(s', t), m);
      }
    }
  }

  lemma ReadyStaysAnnounced(s: State, t: Tid, n: Next)
    requires ReadyAnnounced(s) && Declares(s.shared, At(s, t), n)
    requires n.sh.box.mode != Queued && n.sh.box.mode != Notified
    ensures ReadyAnnounced(After(s, t, n))
  {
    CountAfter(s.threads, t, n.pc, AnnouncesReady);
  }

  /** A thread that found a queue empty, and then did not move, still relies on the same service. */
  lemma StillInUse(s: State, t: Tid, n: Next, u: Tid)
    requires TokenInv(s) && Declares(s.shared, At(s, t), n) && u != t
    requires n.sh.box.mode == InUse && HasToken(At(s, u))
    ensures s.shared.box.mode == InUse
  {
    if HasToken(At(s, t)) {
      TokenIsUnique(s, t, u);
    }
  }

  lemma WorkKept(s: State, t: Tid, n: Next)
    requires TokenInv(s) && WorkInv(s) && Declares(s.shared, At(s, t), n)
    ensures WorkInv(After(s, t, n))
  {
    var s' := After(s, t, n);
    var mode := s'.shared.box.mode;
    if mode == Idle || mode == InUse {
      forall u | mode == InUse && SawNoReady(At(s', u)) ensures ReadyAnnounced(s') {
        if u != t { StillInUse(s, t, n, u); }
        if s'.shared.box.ready != 0 { ReadyStaysAnnounced(s, t, n); }
      }
      forall u | mode == InUse && SawNoMessage(At(s', u)) ensures MessagesAnnounced(s') {
        if u != t { StillInUse(s, t, n, u); }
        if s'.shared.box.queue != [] { MessagesStayAnnounced(s, t, n); }
      }
      if mode == Idle {
        MessagesStayAnnounced(s, t, n);
        ReadyStaysAnnounced(s, t, n);
      }
    }
  }

  lemma LenKept(s: State, t: Tid, n: Next)
    requires LenInv(s) && Counts(s.shared, At(s, t), n)
    ensures LenInv(After(s, t, n))
  {
    CountAfter(s.threads, t, n.pc, Owes);
  }

  lemma KillKept(s: State, t: Tid, n: Next)
    requires KillInv(s) && Buries(s.shared, At(s, t), n)
    ensures KillInv(After(s, t, n))
  {
    CountAfter(s.threads, t, n.pc, SeesToIt);
    CountAfter(s.threads, t, n.pc, MarksDead);
    CountAfter(s.threads, t, n.pc, Subtracts);
    if SeesToIt(n.pc) {
      assert t in Those(After(s, t, n).threads, SeesToIt);
    } else if Those(s.threads, SeesToIt) != {} && !SeesToIt(At(s, t)) {
      var u :| u in Those(s.threads, SeesToIt);
      assert u in Those(After(s, t, n).threads, SeesToIt);
    }
  }

  lemma OwnKept(s: State, t: Tid, n: Next)
    requires TokenInv(s) && OwnInv(s) && Owns(s.shared, At(s, t), n)
    ensures OwnInv(After(s, t, n))
  {
    var s' := After(s, t, n);
    forall u
      ensures OwnOk(s'.shared.life, s'.shared.work, At(s', u))
    {
      assert OwnOk(s.shared.life, s.shared.work, At(s, u));
      if u != t && HasToken(At(s, t)) && HasToken(At(s, u)) {
        TokenIsUnique(s, t, u);
      }
    }
  }

  lemma ActKeepsSafety(s: State, t: Tid, e: Event)
    requires SafetyInv(s)
    ensures SafetyInv(Act(s, t, e))
  {
    var sh, pc := s.shared, At(s, t);
    var n := Advance(sh, t, pc, e);
    InvIsLocal(s, t);
    StepKeepsBox(sh, t, pc, e);
    StepKeepsLife(sh, t, pc, e);
    TokenKept(s, t, n);
    WorkKept(s, t, n);
    LenKept(s, t, n);
    KillKept(s, t, n);
    OwnKept(s, t, n);
  }
}
