/** What launching, quitting, booting and destroying come to: in every run a launch adds exactly one
    service, or none because the node is quitting; and what each call does when it runs alone.
 */
module GateProgress {
  import opened Basics
  import opened Crew
  import opened AdmissionGate

  // ------------------------------------------------------------ a launch among others

  /** What a thread outside the gate cannot change. */
  ghost predicate Untouched(sh: Shared, sh': Shared) {
    && sh'.services.Keys == sh.services.Keys && sh'.total == sh.total && sh'.quit == sh.quit
    && forall h :: h in sh.services ==>
         && sh'.services[h].reserved == sh.services[h].reserved && sh'.services[h].counted == sh.services[h].counted
         && sh'.services[h].published == sh.services[h].published
  }

  lemma OutsideTheGate(sh: Shared, u: Tid, pc: Pc, e: Event)
    requires !InGate(pc)
    ensures Untouched(sh, Advance(sh, u, pc, e).sh)
  {
  }

  /** How far the launch of `t` has come, `was` being what it found when it had the gate. */
  ghost predicate SoFar(was: Shared, sh: Shared, reserved: bool, l: Launch) {
    var h := |was.services| + 1;
    match l
    case Lock => false
    case Check => sh.services.Keys == was.services.Keys && sh.total == was.total && sh.quit == was.quit
    case Register => sh.services.Keys == was.services.Keys && sh.total == was.total && !sh.quit && !was.quit
    case Count(x) => x == h && Added(was, sh, h, reserved) && sh.total == was.total && !was.quit && !reserved
    case Publish(x) =>
      && x == h && Added(was, sh, h, reserved) && !was.quit
      && sh.total == was.total + One(!reserved) && sh.services[h].counted == !reserved
    case Unlock => Outcome(was, sh, reserved)
  }

  ghost predicate Added(was: Shared, sh: Shared, h: Handle, reserved: bool) {
    sh.services.Keys == was.services.Keys + {h} && sh.services[h].reserved == reserved
  }

  /** One new service, handed to an executor, and counted exactly if it is ordinary; or, if the node was
      quitting, nothing. */
  ghost predicate Outcome(was: Shared, sh: Shared, reserved: bool) {
    var h := |was.services| + 1;
    if was.quit then sh.services.Keys == was.services.Keys && sh.total == was.total
    else
      && Added(was, sh, h, reserved) && sh.total == was.total + One(!reserved)
      && sh.services[h].published && sh.services[h].counted == !reserved
  }

  lemma RegisterStep(was: Shared, sh: Shared, t: Tid, reserved: bool)
    requires SoFar(was, sh, reserved, Register) && |was.services| + 1 !in was.services
    ensures var n := LaunchStep(sh, t, reserved, Register);
      n.pc.Launching? && n.pc.reserved == reserved && SoFar(was, n.sh, reserved, n.pc.l)
  {
    assert |sh.services| == |sh.services.Keys| && |was.services| == |was.services.Keys|;
    var h := |was.services| + 1;
    var n := LaunchStep(sh, t, reserved, Register);
    assert n.sh.services.Keys == was.services.Keys + {h};
  }

  lemma OwnLaunchStep(was: Shared, sh: Shared, t: Tid, reserved: bool, l: Launch)
    requires SoFar(was, sh, reserved, l) && |was.services| + 1 !in was.services && !l.Unlock?
    ensures var n := LaunchStep(sh, t, reserved, l);
      n.pc.Launching? && n.pc.reserved == reserved && SoFar(was, n.sh, reserved, n.pc.l)
  {
    match l
    case Register => RegisterStep(was, sh, t, reserved);
    case Count(h) => assert LaunchStep(sh, t, reserved, l).sh.services.Keys == sh.services.Keys;
    case Publish(h) => assert LaunchStep(sh, t, reserved, l).sh.services.Keys == sh.services.Keys;
    case _ =>
  }

  lemma OthersLeaveIt(was: Shared, sh: Shared, sh': Shared, reserved: bool, l: Launch)
    requires SoFar(was, sh, reserved, l) && Untouched(sh, sh')
    ensures SoFar(was, sh', reserved, l)
  {
  }

  ghost predicate AtLaunch(was: Shared, s: State, t: Tid, reserved: bool) {
    At(s, t).Launching? && At(s, t).reserved == reserved && SoFar(was, s.sh, reserved, At(s, t).l)
  }

  lemma LaunchStays(was: Shared, s: State, t: Tid, reserved: bool, u: Tid, e: Event)
    requires Reachable(s) && AtLaunch(was, s, t, reserved) && |was.services| + 1 !in was.services
    requires u == t ==> !At(s, t).l.Unlock?
    ensures AtLaunch(was, Act(s, u, e), t, reserved)
  {
    ReachableIsGood(s);
    assert PcOk(s.sh, t, At(s, t)) && PcOk(s.sh, u, At(s, u));
    if u == t {
      OwnLaunchStep(was, s.sh, t, reserved, At(s, t).l);
    } else {
      OutsideTheGate(s.sh, u, At(s, u), e);
      OthersLeaveIt(was, s.sh, Act(s, u, e).sh, reserved, At(s, t).l);
    }
  }

  lemma PrefixIsReachable(run: seq<State>, n: nat)
    requires IsRun(run) && n < |run|
    ensures Reachable(run[n])
  {
    var part := run[..n + 1];
    forall i | 0 <= i < |part| - 1 ensures Step(part[i], part[i + 1]) {
      assert Step(run[i], run[i + 1]);
    }
    assert IsRun(part) && part[|part| - 1] == run[n];
  }

  /** While `t` is at its launch and has not come to the end of it. */
  predicate StillAtIt(s: State, t: Tid, reserved: bool) {
    At(s, t).Launching? && At(s, t).reserved == reserved && !At(s, t).l.Lock?
  }

  ghost predicate Kept(was: Shared, s: State, s': State, t: Tid, reserved: bool) {
    AtLaunch(was, s, t, reserved) && StillAtIt(s', t, reserved) ==> AtLaunch(was, s', t, reserved)
  }

  lemma StepKeepsLaunch(was: Shared, run: seq<State>, n: nat, t: Tid, reserved: bool)
    requires IsRun(run) && n + 1 < |run| && |was.services| + 1 !in was.services
    ensures Kept(was, run[n], run[n + 1], t, reserved)
  {
    PrefixIsReachable(run, n);
    assert Step(run[n], run[n + 1]);
    var u, e :| run[n + 1] == Act(run[n], u, e);
    if AtLaunch(was, run[n], t, reserved) && StillAtIt(run[n + 1], t, reserved) {
      LaunchStays(was, run[n], t, reserved, u, e);
    }
  }

  lemma {:induction false} LaunchKept(was: Shared, run: seq<State>, i: nat, j: nat, t: Tid, reserved: bool)
    requires i <= j < |run| && AtLaunch(was, run[i], t, reserved)
    requires forall k :: i <= k <= j ==> StillAtIt(run[k], t, reserved)
    requires forall k :: i <= k < j ==> Kept(was, run[k], run[k + 1], t, reserved)
    ensures AtLaunch(was, run[j], t, reserved)
    decreases j
  {
    if i < j {
      LaunchKept(was, run, i, j - 1, t, reserved);
      assert Kept(was, run[j - 1], run[j - 1 + 1], t, reserved);
    }
  }

  /** Over every run: from the moment a launch has the gate until it is about to give it up, the services
      have become one more, handed to an executor, and `total` has gone up by one exactly if it is an
      ordinary one; or, if and only if the node was quitting, nothing has been added. */
  lemma LaunchAddsExactlyOne(run: seq<State>, i: nat, j: nat, t: Tid, reserved: bool)
    requires IsRun(run) && i <= j < |run|
    requires At(run[i], t) == Launching(reserved, Check) && At(run[j], t) == Launching(reserved, Unlock)
    requires forall k :: i <= k <= j ==> StillAtIt(run[k], t, reserved)
    ensures Outcome(run[i].sh, run[j].sh, reserved)
  {
    PrefixIsReachable(run, i);
    ReachableIsGood(run[i]);
    FreshHandle(run[i].sh);
    forall k | i <= k < j ensures Kept(run[i].sh, run[k], run[k + 1], t, reserved) {
      StepKeepsLaunch(run[i].sh, run, k, t, reserved);
    }
    LaunchKept(run[i].sh, run, i, j, t, reserved);
  }

  // ------------------------------------------------------------ calls that run alone

  /** A thread takes `n` steps, and nobody else any. */
  function Solo(sh: Shared, t: Tid, pc: Pc, n: nat): Next
    decreases n
  {
    if n == 0 then Next(sh, pc)
    else
      var x := Advance(sh, t, pc, Go);
      Solo(x.sh, t, x.pc, n - 1)
  }

  /** A node after a launch that ran alone. */
  function Launched(sh: Shared, reserved: bool): Shared {
    if sh.quit then sh
    else
      var v := Service(reserved, true, !reserved, true, None, false);
      sh.(total := sh.total + if reserved then 0 else 1, services := sh.services[|sh.services| + 1 := v])
  }

  lemma SoloLaunch(sh: Shared, t: Tid, reserved: bool) returns (n: nat)
    requires sh.gate.None? && |sh.services| + 1 !in sh.services
    ensures var x := Start(sh, Out, Begin(Launching(reserved, Lock)));
      Solo(x.sh, t, x.pc, n) == Next(Launched(sh, reserved), Out)
  {
    var sh1, h := sh.(gate := Some(t)), |sh.services| + 1;
    var done := Launched(sh, reserved);
    assert Solo(done, t, Out, 0) == Next(done, Out);
    var held := done.(gate := Some(t));
    assert Solo(held, t, Launching(reserved, Unlock), 1) == Next(done, Out);
    if sh.quit {
      assert Solo(sh1, t, Launching(reserved, Check), 2) == Next(done, Out);
      n := 3;
    } else {
      n := SoloRegister(sh1, t, reserved, held);
      assert Solo(sh1, t, Launching(reserved, Check), n + 2) == Next(done, Out);
      n := n + 3;
    }
  }

  lemma SoloRegister(sh: Shared, t: Tid, reserved: bool, held: Shared) returns (n: nat)
    requires held == Launched(sh, reserved) && !sh.quit && |sh.services| + 1 !in sh.services
    ensures Solo(sh, t, Launching(reserved, Register), n + 1) == Next(held.(gate := None), Out)
  {
    var h, done := |sh.services| + 1, held.(gate := None);
    var sh2 := sh.(services := sh.services[h := Service(reserved, true, false, false, None, false)]);
    var counted := sh2.services[h := Service(reserved, true, true, false, None, false)];
    var sh3 := if reserved then sh2 else sh2.(total := sh.total + 1, services := counted);
    assert Solo(done, t, Out, 0) == Next(done, Out);
    assert Solo(held, t, Launching(reserved, Unlock), 1) == Next(done, Out);
    assert sh3.services[h := sh3.services[h].(published := true)] == held.services;
    assert Solo(sh3, t, Launching(reserved, Publish(h)), 2) == Next(done, Out);
    if reserved {
      n := 2;
    } else {
      assert Solo(sh2, t, Launching(reserved, Count(h)), 3) == Next(done, Out);
      n := 3;
    }
  }

  /** A quit alone makes the node quit; the quit of an abort goes on to sweep. */
  lemma SoloQuit(sh: Shared, t: Tid, abort: bool)
    requires sh.gate.None?
    ensures var x := Start(sh, Out, Begin(Quitting(abort, LockQuit)));
      Solo(x.sh, t, x.pc, 3) == Next(sh.(quit := true), if abort then Snapshot else Out)
  {
    var sh1 := sh.(gate := Some(t));
    var sh2, done := sh1.(quit := true), sh.(quit := true);
    var end := if abort then Snapshot else Out;
    assert Solo(done, t, end, 0) == Next(done, end);
    assert Solo(sh2, t, Quitting(abort, UnlockQuit), 1) == Next(done, end);
    assert Solo(sh1, t, Quitting(abort, SetQuit), 2) == Next(done, end);
  }

  /** Marking a node as booted alone makes it quit exactly if it has no ordinary service. */
  lemma SoloBoot(sh: Shared, t: Tid)
    requires sh.gate.None?
    ensures var x := Start(sh, Out, Begin(MarkingBooted(LockBoot)));
      Solo(x.sh, t, x.pc, 4) == Next(sh.(booted := true, quit := sh.quit || sh.total == 0), Out)
  {
    var sh1 := sh.(gate := Some(t));
    var sh2 := sh1.(booted := true);
    var sh3 := sh2.(quit := sh.quit || sh.total == 0);
    var done := sh.(booted := true, quit := sh.quit || sh.total == 0);
    assert Solo(done, t, Out, 0) == Next(done, Out);
    assert Solo(sh3, t, MarkingBooted(UnlockBoot), 1) == Next(done, Out);
    assert Solo(sh2, t, MarkingBooted(LookAtTotal), 2) == Next(done, Out);
    assert Solo(sh1, t, MarkingBooted(StoreBooted), 3) == Next(done, Out);
  }

  /** A node after a destroy that ran alone: the first for an ordinary service accounts for it, and the
      last service of a booted node takes the node down. */
  function DestroyedAlone(sh: Shared, t: Tid, h: Handle): Shared
    requires h in sh.services
  {
    var v := sh.services[h];
    if v.destroyer.Some? then sh
    else if v.reserved then sh.(services := sh.services[h := v.(destroyer := Some(t))])
    else
      sh.(services := sh.services[h := v.(destroyer := Some(t), settled := true)], total := sh.total - 1,
          quit := sh.quit || (sh.total == 1 && sh.booted))
  }

  lemma SoloDestroy(sh: Shared, t: Tid, h: Handle) returns (n: nat)
    requires sh.gate.None? && MayDestroy(sh, h)
    ensures var x := Start(sh, Out, Begin(Destroying(h, Swap)));
      Solo(x.sh, t, x.pc, n) == Next(DestroyedAlone(sh, t, h), Out)
  {
    var v, done := sh.services[h], DestroyedAlone(sh, t, h);
    assert Solo(done, t, Out, 0) == Next(done, Out);
    if v.destroyer.Some? || v.reserved {
      n := 1;
    } else {
      var sh1 := sh.(services := sh.services[h := v.(destroyer := Some(t))]);
      n := SoloSettle(sh1, t, h, done);
      n := n + 1;
    }
  }

  lemma SoloSettle(sh: Shared, t: Tid, h: Handle, done: Shared) returns (n: nat)
    requires sh.gate.None? && h in sh.services
    requires done == sh.(services := sh.services[h := sh.services[h].(settled := true)], total := sh.total - 1,
                         quit := sh.quit || (sh.total == 1 && sh.booted))
    ensures Solo(sh, t, Destroying(h, LockEnd), n) == Next(done, Out)
  {
    var sh1 := sh.(gate := Some(t));
    var sh2 := sh1.(services := done.services, total := sh.total - 1);
    var held := done.(gate := Some(t));
    assert Solo(done, t, Out, 0) == Next(done, Out);
    assert Solo(held, t, Destroying(h, UnlockEnd), 1) == Next(done, Out);
    if sh.total == 1 {
      assert Solo(sh2, t, Destroying(h, Last), 2) == Next(done, Out);
      assert Solo(sh1, t, Destroying(h, Subtract), 3) == Next(done, Out);
      n := 4;
    } else {
      assert Solo(sh1, t, Destroying(h, Subtract), 2) == Next(done, Out);
      n := 3;
    }
  }

  /** A sweep leaves the reserved services alone, and takes any other it comes to out of the table. */
  lemma SweepsSpareTheReserved(s: State, t: Tid, e: Event, h: Handle)
    requires Reachable(s) && At(s, t).Sweeping? && InTable(s.sh, h)
    ensures InTable(Act(s, t, e).sh, h) <==> s.sh.services[h].reserved || !(e == Sweep(h) && h in At(s, t).todo)
  {
  }

  /** Retiring a service takes it out of the table for good, and changes nothing else about it. */
  lemma RetiringRemoves(sh: Shared, h: Handle)
    requires h in sh.services
    ensures Start(sh, Out, Retire(h)) == Next(sh.(services := sh.services[h := sh.services[h].(inTable := false)]), Out)
  {
  }
}
