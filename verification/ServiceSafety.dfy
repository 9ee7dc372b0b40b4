/** What every run of one service keeps: one run token, no lost work, an honest `len`, and a kill
    that is never forgotten.
 */
module ServiceSafety {
  import opened Basics
  import opened ServiceSteps
  import opened Crew

  // ------------------------------------------------------------ the run token

  /** What a thread's position means for the service. */
  datatype Role =
    | Bystander
    | Queues      // holds the service after marking it Queued, or before it was ever run
    | Runs        // executes it, or is about to give it back
    | Cleans      // executes its cleanup
    | Resets      // executes it and saw Notified

  function RoleOf(pc: Pc): Role {
    match pc
    case Outside => Bystander
    case Bring(b) => if b.Installing? then Queues else Bystander
    case Note(why) => if why == Creator then Queues else if why == SelfKiller then Runs else Bystander
    case Exchange(why, _) => if why == SelfKiller then Runs else Bystander
    case Offer(givesBack) => if givesBack then Runs else Queues
    case Enqueue => Queues
    case Run(r) => if r.Popped? then Queues else if r.Idled? then Bystander else Runs
    case Take(k) => if k.Resetting? then Resets else Runs
    case Do(_) => Runs
    case Clean(_) => Cleans
    case End(n) => if n.Releasing? then Cleans else if n.Unreleased? then Resets else Bystander
  }

  predicate HasToken(pc: Pc) {
    !RoleOf(pc).Bystander?
  }

  /** A thread's position agrees with the mailbox state. */
  predicate PcOk(m: Mode, pc: Pc) {
    && (match RoleOf(pc)
        case Bystander => true
        case Queues => m == Queued
        case Runs | Cleans => m == InUse || m == Notified
        case Resets => m == Notified)
    && (pc.Exchange? ==>
          (pc.cur == Idle || pc.cur == InUse) && pc.why != Creator && (pc.why == SelfKiller ==> pc.cur == InUse))
  }

  /** One token when the service is not idle, none when it is. */
  ghost predicate TokenInv(s: State) {
    && |Those(s.threads, HasToken)| + s.shared.box.entries == One(s.shared.box.mode != Idle)
    && (s.shared.box.entries > 0 ==> s.shared.box.mode == Queued)
    && (forall t :: PcOk(s.shared.box.mode, At(s, t)))
    && !s.shared.panicked
  }

  /** Two holders are one. */
  lemma TokenIsUnique(s: State, t: Tid, u: Tid)
    requires TokenInv(s) && HasToken(At(s, t)) && HasToken(At(s, u))
    ensures t == u && s.shared.box.entries == 0 && s.shared.box.mode != Idle
  {
    AtMostOne(s.threads, HasToken, t, u);
    assert t in Those(s.threads, HasToken);
  }

  lemma InitToken(reserved: bool, creator: Tid)
    ensures TokenInv(Init(reserved, creator))
  {
    assert Those(Init(reserved, creator).threads, HasToken) == {creator};
  }

  // ------------------------------------------------------------ what has been seen, owed and promised

  /** Between putting this message into the mailbox and the end of its notify. */
  predicate Announces(pc: Pc, m: MsgId) {
    (pc.Note? || pc.Exchange?) && pc.why == Brought(m)
  }

  /** Between putting an entry into the ready queue and the end of its notify. */
  predicate AnnouncesReady(pc: Pc) {
    (pc.Note? || pc.Exchange?) && pc.why == Woke
  }

  /** Has found the ready queue empty since it last marked the service InUse. */
  predicate SawNoReady(pc: Pc) {
    || (pc.Take? && (pc.k.ScannedReady? || pc.k.ScannedBoth?))
    || (pc.Clean? && (pc.c.DrainQueue? || pc.c.DrainCount? || pc.c.DropBacklog?))
    || pc == End(Releasing)
  }

  predicate SawNoMessage(pc: Pc) {
    pc == Take(ScannedBoth) || pc == Clean(DropBacklog) || pc == End(Releasing)
  }

  /** Every message in the mailbox has its own sender still announcing it. */
  ghost predicate MessagesAnnounced(s: State) {
    forall m :: m in s.shared.box.queue ==> exists t :: Announces(At(s, t), m)
  }

  /** There are no more ready entries than wakers still announcing one. */
  ghost predicate ReadyAnnounced(s: State) {
    s.shared.box.ready <= |Those(s.threads, AnnouncesReady)|
  }

  /** What an idle service has, and what is in a queue its executor found empty, was put there by
      somebody who is still announcing it. */
  ghost predicate WorkInv(s: State) {
    && (s.shared.box.mode == Idle ==> MessagesAnnounced(s) && ReadyAnnounced(s))
    && (forall t :: s.shared.box.mode == InUse && SawNoReady(At(s, t)) ==> ReadyAnnounced(s))
    && (forall t :: s.shared.box.mode == InUse && SawNoMessage(At(s, t)) ==> MessagesAnnounced(s))
  }

  /** Has changed `len` for a message that is not in the mailbox: counted early, or counted still. */
  predicate Owes(pc: Pc) {
    (pc.Bring? && pc.b.Counted?) || (pc.Take? && pc.k.Took?) || (pc.Clean? && pc.c.DrainCount?)
  }

  ghost predicate LenInv(s: State) {
    s.shared.box.len == |s.shared.box.queue| + |Those(s.threads, Owes)|
  }

  /** Took the service out of the handle table and has yet to mark it dead. */
  predicate MarksDead(pc: Pc) {
    pc == Bring(Killing) || pc == Do(SelfKilling)
  }

  /** Will make sure that somebody runs the dead service, or account for its destruction. */
  predicate SeesToIt(pc: Pc) {
    pc == Run(Idled) || pc == End(Accounting) || ((pc.Note? || pc.Exchange?) && (pc.why == Killer || pc.why == Idler))
  }

  predicate Subtracts(pc: Pc) {
    pc == End(Subtracting)
  }

  ghost predicate KillInv(s: State) {
    && (s.shared.life.dead && !s.shared.life.destroyed && s.shared.box.mode == Idle ==>
          Those(s.threads, SeesToIt) != {})
    && One(!s.shared.life.inTable) == One(s.shared.life.dead) + |Those(s.threads, MarksDead)|
    && s.shared.life.charged + |Those(s.threads, Subtracts)| == One(s.shared.life.destroyed && !s.shared.life.reserved)
  }

  // ------------------------------------------------------------ the executor's own state

  /** Runs user code, or is about to. */
  predicate Executes(pc: Pc) {
    || pc.Take? || pc.Do? || pc == Run(Topping) || pc == Run(Checking)
    || ((pc.Note? || pc.Exchange?) && pc.why == SelfKiller)
  }

  predicate DroppedTasks(pc: Pc) {
    (pc.Clean? && !pc.c.DropTasks?) || DroppedBacklog(pc)
  }

  predicate DroppedBacklog(pc: Pc) {
    pc == End(Releasing) || pc == End(Unreleased)
  }

  predicate OwnOk(l: Life, w: Work, pc: Pc) {
    && (Executes(pc) ==> (w.initialised || w.backlogOpen) && !l.released)
    && (DroppedTasks(pc) ==> w.tasks == {})
    && (DroppedBacklog(pc) ==> !w.backlogOpen)
    && (pc.Clean? || pc.End? ==> l.dead)
    && (pc == End(Accounting) ==> l.released)
  }

  predicate OwnShared(sh: Shared) {
    && (!sh.work.initialised && !sh.work.backlogOpen ==> sh.life.dead)
    && (!sh.work.backlogOpen ==> sh.work.backlog == [])
    && (sh.life.destroyed ==> sh.life.released)
    && (sh.life.released ==> sh.life.dead && sh.work.tasks == {} && !sh.work.backlogOpen)
  }

  ghost predicate OwnInv(s: State) {
    OwnShared(s.shared) && forall t :: OwnOk(s.shared.life, s.shared.work, At(s, t))
  }

  ghost predicate SafetyInv(s: State) {
    TokenInv(s) && WorkInv(s) && LenInv(s) && KillInv(s) && OwnInv(s)
  }
}
