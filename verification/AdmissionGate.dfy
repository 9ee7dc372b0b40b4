/** Launching services, quitting and aborting a node, and the count of services that keeps it up:
    any number of threads, one step per access to what they share, with the lifecycle gate as the
    only lock.
 */
module AdmissionGate {
  import opened Basics
  import opened Crew

  type Tid = nat
  type Handle = nat

  /** `inTable`: in the handle table. `counted`: added to `total`. `published`: handed to an executor.
      `destroyer`: who set the flag that lets only one destroy go on. `settled`: subtracted from
      `total`. Reserved services are never counted. */
  datatype Service = Service(
    reserved: bool, inTable: bool, counted: bool, published: bool, destroyer: Option<Tid>, settled: bool)

  datatype Shared = Shared(gate: Option<Tid>, quit: bool, booted: bool, total: int, services: map<Handle, Service>)

  datatype Launch = Lock | Check | Register | Count(h: Handle) | Publish(h: Handle) | Unlock
  datatype Closing = LockQuit | SetQuit | UnlockQuit
  datatype Booting = LockBoot | StoreBooted | LookAtTotal | UnlockBoot
  datatype Ending = Swap | LockEnd | Subtract | Last | UnlockEnd

  /** The next step of a thread. */
  datatype Pc =
    | Out
    | Launching(reserved: bool, l: Launch)    // new_service_inner
    | Quitting(abort: bool, q: Closing)       // quit, alone or as the first part of abort
    | MarkingBooted(b: Booting)               // mark_booted
    | Destroying(d: Handle, e: Ending)        // destroy, after the cleanup
    | Snapshot                                // retire_all: about to list the handles
    | Sweeping(todo: set<Handle>, remaining: nat, listed: set<Handle>)
    | Aborted                                 // abort has returned

  datatype State = State(sh: Shared, threads: map<Tid, Pc>)

  datatype Next = Next(sh: Shared, pc: Pc)

  datatype Event = Begin(pc: Pc) | Retire(h: Handle) | Go | Sweep(h: Handle)

  const INIT := State(Shared(None, false, false, 0, map[]), map[])

  function At(s: State, t: Tid): Pc {
    if t in s.threads then s.threads[t] else Out
  }

  function Act(s: State, t: Tid, e: Event): State {
    var n := Advance(s.sh, t, At(s, t), e);
    State(n.sh, s.threads[t := n.pc])
  }

  predicate InTable(sh: Shared, h: Handle) {
    h in sh.services && sh.services[h].inTable
  }

  predicate Ordinary(sh: Shared, h: Handle) {
    InTable(sh, h) && !sh.services[h].reserved
  }

  function Table(sh: Shared): set<Handle> {
    set h | h in sh.services && sh.services[h].inTable
  }

  function Removed(sh: Shared, h: Handle): Shared {
    if h in sh.services then sh.(services := sh.services[h := sh.services[h].(inTable := false)]) else sh
  }

  /** A service an executor holds after it was retired. */
  predicate MayDestroy(sh: Shared, h: Handle) {
    h in sh.services && sh.services[h].published && !sh.services[h].inTable
  }

  function Advance(sh: Shared, t: Tid, pc: Pc, e: Event): Next {
    match pc
    case Out | Aborted => Start(sh, pc, e)
    case Launching(reserved, l) => LaunchStep(sh, t, reserved, l)
    case Quitting(abort, q) => QuitStep(sh, t, abort, q)
    case MarkingBooted(b) => BootStep(sh, t, b)
    case Destroying(h, d) => DestroyStep(sh, t, h, d)
    case Snapshot => Next(sh, Sweeping(Table(sh), 0, Table(sh)))
    case Sweeping(todo, remaining, listed) => SweepStep(sh, todo, remaining, listed, e)
  }

  /** A thread outside calls one of the operations, or retires a service of its choice. */
  function Start(sh: Shared, pc: Pc, e: Event): Next {
    match e
    case Begin(Launching(reserved, _)) => Next(sh, Launching(reserved, Lock))
    case Begin(Quitting(abort, _)) => Next(sh, Quitting(abort, LockQuit))
    case Begin(MarkingBooted(_)) => Next(sh, MarkingBooted(LockBoot))
    case Begin(Destroying(h, _)) => Next(sh, if MayDestroy(sh, h) then Destroying(h, Swap) else pc)
    case Retire(h) => Next(Removed(sh, h), pc)
    case _ => Next(sh, pc)
  }

  function Acquire(sh: Shared, t: Tid, before: Pc, after: Pc): Next {
    if sh.gate.None? then Next(sh.(gate := Some(t)), after) else Next(sh, before)
  }

  function LaunchStep(sh: Shared, t: Tid, reserved: bool, l: Launch): Next {
    match l
    case Lock => Acquire(sh, t, Launching(reserved, Lock), Launching(reserved, Check))
    case Check => Next(sh, Launching(reserved, if sh.quit then Unlock else Register))
    case Register =>
      var h := |sh.services| + 1;
      Next(sh.(services := sh.services[h := Service(reserved, true, false, false, None, false)]),
           Launching(reserved, if reserved then Publish(h) else Count(h)))
    case Count(h) =>
      Next(if h in sh.services
           then sh.(total := sh.total + 1, services := sh.services[h := sh.services[h].(counted := true)])
           else sh,
           Launching(reserved, Publish(h)))
    case Publish(h) =>
      Next(if h in sh.services then sh.(services := sh.services[h := sh.services[h].(published := true)]) else sh,
           Launching(reserved, Unlock))
    case Unlock => Next(sh.(gate := None), Out)
  }

  function QuitStep(sh: Shared, t: Tid, abort: bool, q: Closing): Next {
    match q
    case LockQuit => Acquire(sh, t, Quitting(abort, LockQuit), Quitting(abort, SetQuit))
    case SetQuit => Next(sh.(quit := true), Quitting(abort, UnlockQuit))
    case UnlockQuit => Next(sh.(gate := None), if abort then Snapshot else Out)
  }

  function BootStep(sh: Shared, t: Tid, b: Booting): Next {
    match b
    case LockBoot => Acquire(sh, t, MarkingBooted(LockBoot), MarkingBooted(StoreBooted))
    case StoreBooted => Next(sh.(booted := true), MarkingBooted(LookAtTotal))
    case LookAtTotal => Next(if sh.total == 0 then sh.(quit := true) else sh, MarkingBooted(UnlockBoot))
    case UnlockBoot => Next(sh.(gate := None), Out)
  }

  function DestroyStep(sh: Shared, t: Tid, h: Handle, d: Ending): Next {
    match d
    case Swap =>
      if h !in sh.services || sh.services[h].destroyer.Some? then Next(sh, Out)
      else
        Next(sh.(services := sh.services[h := sh.services[h].(destroyer := Some(t))]),
             if sh.services[h].reserved then Out else Destroying(h, LockEnd))
    case LockEnd => Acquire(sh, t, Destroying(h, LockEnd), Destroying(h, Subtract))
    case Subtract =>
      Next(if h in sh.services
           then sh.(total := sh.total - 1, services := sh.services[h := sh.services[h].(settled := true)])
           else sh,
           Destroying(h, if sh.total == 1 then Last else UnlockEnd))
    case Last => Next(if sh.booted then sh.(quit := true) else sh, Destroying(h, UnlockEnd))
    case UnlockEnd => Next(sh.(gate := None), Out)
  }

  /** One handle of the list: reserved services stay; anything else is retired and counted, even
      when somebody else was faster. */
  function SweepStep(sh: Shared, todo: set<Handle>, remaining: nat, listed: set<Handle>, e: Event): Next {
    if todo == {} then Next(sh, if remaining == 0 then Aborted else Snapshot)
    else if e.Sweep? && e.h in todo then
      if InTable(sh, e.h) && sh.services[e.h].reserved then Next(sh, Sweeping(todo - {e.h}, remaining, listed))
      else Next(Removed(sh, e.h), Sweeping(todo - {e.h}, remaining + 1, listed))
    else Next(sh, Sweeping(todo, remaining, listed))
  }

  ghost predicate Step(s: State, s': State) {
    exists t, e :: s' == Act(s, t, e)
  }

  ghost predicate IsRun(run: seq<State>) {
    && |run| > 0 && run[0] == INIT
    && forall i :: 0 <= i < |run| - 1 ==> Step(run[i], run[i + 1])
  }

  ghost predicate Reachable(s: State) {
    exists run :: IsRun(run) && run[|run| - 1] == s
  }

  // ------------------------------------------------------------ what every step keeps

  predicate InGate(pc: Pc) {
    match pc
    case Launching(_, l) => !l.Lock?
    case Quitting(_, q) => !q.LockQuit?
    case MarkingBooted(b) => !b.LockBoot?
    case Destroying(_, e) => !e.Swap? && !e.LockEnd?
    case _ => false
  }

  ghost predicate SharedOk(sh: Shared) {
    && (forall h :: h in sh.services ==> 1 <= h <= |sh.services| && ServiceOk(sh.services[h]))
    && sh.total == |Those(sh.services, Owed)|
  }

  predicate ServiceOk(v: Service) {
    && (v.counted ==> !v.reserved)
    && (v.published && !v.reserved ==> v.counted)
    && (v.settled ==> v.counted && v.destroyer.Some?)
  }

  /** In `total`. */
  predicate Owed(v: Service) {
    v.counted && !v.settled
  }

  /** An ordinary service whose destruction is not yet accounted for. */
  predicate Outstanding(v: Service) {
    !v.reserved && !v.settled
  }

  ghost predicate PcOk(sh: Shared, t: Tid, pc: Pc) {
    (InGate(pc) <==> sh.gate == Some(t)) && Knows(sh, t, pc)
  }

  /** What a thread may rely on where it stands. */
  ghost predicate Knows(sh: Shared, t: Tid, pc: Pc) {
    match pc
    case Out => true
    case Launching(r, l) => LauncherKnows(sh, r, l)
    case Quitting(_, q) => q.UnlockQuit? ==> sh.quit
    case MarkingBooted(_) => true
    case Destroying(h, d) =>
      && (d.Swap? ==> h in sh.services && sh.services[h].published)
      && (d.LockEnd? || d.Subtract? ==> ToSettle(sh, t, h))
    case Snapshot => sh.quit
    case Sweeping(todo, remaining, listed) => SweeperKnows(sh, todo, remaining, listed)
    case Aborted => sh.quit && NoneOrdinary(sh)
  }

  predicate LauncherKnows(sh: Shared, r: bool, l: Launch) {
    && (l.Register? ==> !sh.quit)
    && (l.Count? ==> !r && l.h in sh.services && !sh.services[l.h].reserved && !sh.services[l.h].counted)
    && (l.Publish? ==> l.h in sh.services && (sh.services[l.h].reserved || sh.services[l.h].counted))
  }

  /** The list holds every ordinary service still in the table, and what is in the table was listed;
      a handle counted has left the table. */
  ghost predicate SweeperKnows(sh: Shared, todo: set<Handle>, remaining: nat, listed: set<Handle>) {
    && sh.quit && todo <= listed && Table(sh) <= listed && (remaining > 0 ==> Table(sh) != listed)
    && (forall h :: h in sh.services && Ordinary(sh, h) ==> h in todo)
  }

  ghost predicate NoneOrdinary(sh: Shared) {
    forall h :: h in sh.services ==> !Ordinary(sh, h)
  }

  predicate ToSettle(sh: Shared, t: Tid, h: Handle) {
    h in sh.services && sh.services[h].counted && !sh.services[h].settled && sh.services[h].destroyer == Some(t)
  }

  /** Every ordinary service is counted, except the one whose launcher is about to. */
  ghost predicate Counted(s: State) {
    forall h :: h in s.sh.services && !s.sh.services[h].reserved && !s.sh.services[h].counted ==>
      s.sh.gate.Some? && At(s, s.sh.gate.value) == Launching(false, Count(h))
  }

  /** About to look whether the node is done, and to make it quit. */
  predicate Looks(pc: Pc) {
    pc == MarkingBooted(LookAtTotal) || (pc.Destroying? && pc.e.Last?)
  }

  ghost predicate DoneInv(s: State) {
    s.sh.booted && s.sh.total == 0 && !s.sh.quit ==> s.sh.gate.Some? && Looks(At(s, s.sh.gate.value))
  }

  ghost predicate Good(s: State) {
    SharedOk(s.sh) && (forall t: Tid :: PcOk(s.sh, t, At(s, t))) && Counted(s) && DoneInv(s)
  }

  // ------------------------------------------------------------ one thread

  /** One service changes in the table of services. */
  lemma ServiceChanges(sh: Shared, h: Handle, v: Service)
    requires SharedOk(sh) && ServiceOk(v) && (h in sh.services || h == |sh.services| + 1)
    ensures var before := One(h in sh.services && Owed(sh.services[h]));
      var sh' := sh.(services := sh.services[h := v], total := sh.total + One(Owed(v)) - before);
      SharedOk(sh')
  {
    CountAfter(sh.services, h, v, Owed);
    if h in sh.services {
      assert sh.services[h := v].Keys == sh.services.Keys;
    } else {
      assert sh.services[h := v].Keys == sh.services.Keys + {h};
    }
    assert |sh.services[h := v]| == |sh.services[h := v].Keys| && |sh.services| == |sh.services.Keys|;
  }

  lemma LaunchKeepsShared(sh: Shared, t: Tid, r: bool, l: Launch)
    requires SharedOk(sh) && LauncherKnows(sh, r, l)
    ensures SharedOk(LaunchStep(sh, t, r, l).sh)
  {
    match l
    case Register => ServiceChanges(sh, |sh.services| + 1, Service(r, true, false, false, None, false));
    case Count(h) => ServiceChanges(sh, h, sh.services[h].(counted := true));
    case Publish(h) => ServiceChanges(sh, h, sh.services[h].(published := true));
    case _ =>
  }

  lemma DestroyKeepsShared(sh: Shared, t: Tid, h: Handle, d: Ending)
    requires SharedOk(sh) && Knows(sh, t, Destroying(h, d))
    ensures SharedOk(DestroyStep(sh, t, h, d).sh)
  {
    match d
    case Swap =>
      if sh.services[h].destroyer.None? { ServiceChanges(sh, h, sh.services[h].(destroyer := Some(t))); }
    case Subtract => ServiceChanges(sh, h, sh.services[h].(settled := true));
    case _ =>
  }

  lemma RemovedKeepsShared(sh: Shared, h: Handle)
    requires SharedOk(sh)
    ensures SharedOk(Removed(sh, h))
  {
    if h in sh.services {
      ServiceChanges(sh, h, sh.services[h].(inTable := false));
    }
  }

  lemma AdvanceKeepsShared(sh: Shared, t: Tid, pc: Pc, e: Event)
    requires SharedOk(sh) && PcOk(sh, t, pc)
    ensures SharedOk(Advance(sh, t, pc, e).sh)
  {
    match pc
    case Launching(r, l) => LaunchKeepsShared(sh, t, r, l);
    case Destroying(h, d) => DestroyKeepsShared(sh, t, h, d);
    case Sweeping(todo, remaining, listed) => if e.Sweep? { RemovedKeepsShared(sh, e.h); }
    case _ => RestKeepsShared(sh, t, pc, e);
  }

  lemma RestKeepsShared(sh: Shared, t: Tid, pc: Pc, e: Event)
    requires SharedOk(sh) && !pc.Launching? && !pc.Destroying? && !pc.Sweeping?
    ensures SharedOk(Advance(sh, t, pc, e).sh)
  {
    var sh' := Advance(sh, t, pc, e).sh;
    if (pc.Out? || pc.Aborted?) && e.Retire? {
      RemovedKeepsShared(sh, e.h);
    } else {
      assert sh'.services == sh.services && sh'.total == sh.total;
    }
  }

  lemma SweepKeepsKnowing(sh: Shared, t: Tid, todo: set<Handle>, remaining: nat, listed: set<Handle>, e: Event)
    requires SweeperKnows(sh, todo, remaining, listed)
    ensures var n := SweepStep(sh, todo, remaining, listed, e);
      Knows(n.sh, t, n.pc) && n.sh.gate == sh.gate && !InGate(n.pc)
  {
  }

  lemma LaunchKeepsKnowing(sh: Shared, t: Tid, r: bool, l: Launch)
    requires PcOk(sh, t, Launching(r, l))
    ensures var n := LaunchStep(sh, t, r, l); PcOk(n.sh, t, n.pc)
  {
  }

  lemma DestroyKeepsKnowing(sh: Shared, t: Tid, h: Handle, d: Ending)
    requires SharedOk(sh) && PcOk(sh, t, Destroying(h, d))
    ensures var n := DestroyStep(sh, t, h, d); PcOk(n.sh, t, n.pc)
  {
  }

  lemma StartKeepsKnowing(sh: Shared, t: Tid, pc: Pc, e: Event)
    requires PcOk(sh, t, pc) && (pc.Out? || pc.Aborted?)
    ensures var n := Start(sh, pc, e); PcOk(n.sh, t, n.pc)
  {
  }

  lemma AdvanceKeepsPc(sh: Shared, t: Tid, pc: Pc, e: Event)
    requires SharedOk(sh) && PcOk(sh, t, pc)
    ensures PcOk(Advance(sh, t, pc, e).sh, t, Advance(sh, t, pc, e).pc)
  {
    match pc
    case Out => StartKeepsKnowing(sh, t, pc, e);
    case Aborted => StartKeepsKnowing(sh, t, pc, e);
    case Launching(r, l) => LaunchKeepsKnowing(sh, t, r, l);
    case Destroying(h, d) => DestroyKeepsKnowing(sh, t, h, d);
    case Sweeping(todo, remaining, listed) => SweepKeepsKnowing(sh, t, todo, remaining, listed, e);
    case _ =>
  }

  // ------------------------------------------------------------ all threads

  /** What a step may do to a service: it keeps its kind and gains marks, and once the node is
      quitting nothing enters the table. */
  predicate Milder(sh: Shared, sh': Shared, h: Handle) {
    && (h in sh.services ==>
          && h in sh'.services && sh'.services[h].reserved == sh.services[h].reserved
          && (sh.services[h].counted ==> sh'.services[h].counted)
          && (sh.services[h].published ==> sh'.services[h].published))
    && (sh.quit && InTable(sh', h) ==> InTable(sh, h))
  }

  lemma StepsAreMild(sh: Shared, t: Tid, pc: Pc, e: Event, h: Handle)
    requires |sh.services| + 1 !in sh.services && Knows(sh, t, pc)
    ensures Milder(sh, Advance(sh, t, pc, e).sh, h)
    ensures sh.quit ==> Advance(sh, t, pc, e).sh.quit
  {
  }

  /** Only its own thread settles a service it has claimed the destruction of. */
  lemma SettlingIsOwn(sh: Shared, t: Tid, pc: Pc, e: Event, u: Tid, h: Handle)
    requires SharedOk(sh) && PcOk(sh, t, pc) && u != t && ToSettle(sh, u, h)
    ensures ToSettle(Advance(sh, t, pc, e).sh, u, h)
  {
  }

  /** The holder of the gate keeps others from what it relies on. */
  lemma GateKeeps(sh: Shared, t: Tid, pc: Pc, e: Event, u: Tid)
    requires PcOk(sh, t, pc) && u != t
    ensures var sh' := Advance(sh, t, pc, e).sh;
      && (sh'.gate == Some(u) <==> sh.gate == Some(u))
      && (sh.gate == Some(u) ==> sh'.quit == sh.quit && sh'.total == sh.total && sh'.booted == sh.booted)
      && (sh.gate == Some(u) ==> forall h :: h in sh.services ==> sh'.services[h].counted == sh.services[h].counted)
      && (sh.gate == Some(u) ==> sh'.services.Keys == sh.services.Keys)
  {
  }

  lemma FreshHandle(sh: Shared)
    requires SharedOk(sh)
    ensures |sh.services| + 1 !in sh.services
  {
  }

  lemma SweeperKept(sh: Shared, sh': Shared, todo: set<Handle>, remaining: nat, listed: set<Handle>)
    requires SweeperKnows(sh, todo, remaining, listed) && sh'.quit && forall h: Handle :: Milder(sh, sh', h)
    ensures SweeperKnows(sh', todo, remaining, listed)
  {
    forall h | h in Table(sh') ensures h in Table(sh) { assert Milder(sh, sh', h); }
    assert Table(sh') <= Table(sh);
    forall h | h in sh'.services && Ordinary(sh', h) ensures h in todo { assert Milder(sh, sh', h); }
  }

  lemma OthersKept(s: State, t: Tid, e: Event, u: Tid)
    requires Good(s) && u != t
    ensures PcOk(Act(s, t, e).sh, u, At(s, u))
  {
    var sh, sh' := s.sh, Act(s, t, e).sh;
    var pc := At(s, u);
    assert PcOk(sh, t, At(s, t)) && PcOk(sh, u, pc);
    FreshHandle(sh);
    GateKeeps(sh, t, At(s, t), e, u);
    forall h: Handle ensures Milder(sh, sh', h) { StepsAreMild(sh, t, At(s, t), e, h); }
    StepsAreMild(sh, t, At(s, t), e, 0);
    match pc
    case Launching(_, l) => if l.Count? || l.Publish? { assert Milder(sh, sh', l.h); }
    case Destroying(h, d) =>
      assert Milder(sh, sh', h);
      if d.LockEnd? || d.Subtract? { SettlingIsOwn(sh, t, At(s, t), e, u, h); }
    case Sweeping(todo, remaining, listed) => SweeperKept(sh, sh', todo, remaining, listed);
    case Aborted => forall h | h in sh'.services ensures !Ordinary(sh', h) { assert Milder(sh, sh', h); }
    case _ =>
  }

  /** After a step an uncounted ordinary service was so before, or its launcher has just put it in. */
  lemma StillUncounted(sh: Shared, t: Tid, pc: Pc, e: Event, h: Handle)
    requires |sh.services| + 1 !in sh.services && Knows(sh, t, pc)
    requires var sh' := Advance(sh, t, pc, e).sh;
      h in sh'.services && !sh'.services[h].reserved && !sh'.services[h].counted
    ensures var n := Advance(sh, t, pc, e);
      || (h in sh.services && !sh.services[h].reserved && !sh.services[h].counted && pc != Launching(false, Count(h)))
      || n.pc == Launching(false, Count(h))
  {
  }

  lemma ActKeepsCounted(s: State, t: Tid, e: Event)
    requires Good(s)
    ensures Counted(Act(s, t, e))
  {
    var s' := Act(s, t, e);
    assert PcOk(s.sh, t, At(s, t));
    FreshHandle(s.sh);
    AdvanceKeepsPc(s.sh, t, At(s, t), e);
    forall h | h in s'.sh.services && !s'.sh.services[h].reserved && !s'.sh.services[h].counted
      ensures s'.sh.gate.Some? && At(s', s'.sh.gate.value) == Launching(false, Count(h))
    {
      StillUncounted(s.sh, t, At(s, t), e, h);
      if At(s', t) != Launching(false, Count(h)) {
        var u := s.sh.gate.value;
        assert At(s, u) == Launching(false, Count(h)) && u != t;
        OthersKept(s, t, e, u);
      }
    }
  }

  lemma DoneMoves(sh: Shared, t: Tid, pc: Pc, e: Event)
    requires sh.total >= 0 && PcOk(sh, t, pc) && !Looks(pc)
    ensures var n := Advance(sh, t, pc, e);
      n.sh.booted && n.sh.total == 0 && !n.sh.quit ==> (sh.booted && sh.total == 0 && !sh.quit) || Looks(n.pc)
  {
  }

  lemma LookingEnds(sh: Shared, t: Tid, pc: Pc, e: Event)
    requires Looks(pc)
    ensures var n := Advance(sh, t, pc, e); n.sh.booted && n.sh.total == 0 ==> n.sh.quit
  {
  }

  lemma ActKeepsDone(s: State, t: Tid, e: Event)
    requires Good(s)
    ensures DoneInv(Act(s, t, e))
  {
    var s' := Act(s, t, e);
    assert PcOk(s.sh, t, At(s, t));
    AdvanceKeepsPc(s.sh, t, At(s, t), e);
    if s'.sh.booted && s'.sh.total == 0 && !s'.sh.quit {
      if Looks(At(s, t)) {
        LookingEnds(s.sh, t, At(s, t), e);
      } else {
        DoneMoves(s.sh, t, At(s, t), e);
        if !Looks(At(s', t)) {
          var u := s.sh.gate.value;
          assert u != t;
          OthersKept(s, t, e, u);
        }
      }
    }
  }

  lemma InitIsGood()
    ensures Good(INIT)
  {
    assert Those(INIT.sh.services, Owed) == {};
  }

  lemma ActKeeps(s: State, t: Tid, e: Event)
    requires Good(s)
    ensures Good(Act(s, t, e))
  {
    var s' := Act(s, t, e);
    assert PcOk(s.sh, t, At(s, t));
    AdvanceKeepsShared(s.sh, t, At(s, t), e);
    AdvanceKeepsPc(s.sh, t, At(s, t), e);
    ActKeepsCounted(s, t, e);
    ActKeepsDone(s, t, e);
    forall u: Tid ensures PcOk(s'.sh, u, At(s', u)) {
      if u != t { OthersKept(s, t, e, u); }
    }
  }

  lemma {:induction false} RunIsGood(run: seq<State>)
    requires IsRun(run)
    ensures Good(run[|run| - 1])
  {
    if |run| == 1 {
      InitIsGood();
    } else {
      var before := run[..|run| - 1];
      forall i | 0 <= i < |before| - 1 ensures Step(before[i], before[i + 1]) {
        assert Step(run[i], run[i + 1]);
      }
      RunIsGood(before);
      var s, s' := run[|run| - 2], run[|run| - 1];
      assert s == before[|before| - 1] && Step(run[|run| - 2], run[|run| - 2 + 1]);
      var t, e :| s' == Act(s, t, e);
      ActKeeps(s, t, e);
    }
  }

  lemma ReachableIsGood(s: State)
    requires Reachable(s)
    ensures Good(s)
  {
    var run :| IsRun(run) && run[|run| - 1] == s;
    RunIsGood(run);
  }

  // ------------------------------------------------------------ the theorems

  /** With the gate free, `total` is the number of ordinary services whose destruction has not been
      accounted for; it never goes below zero. */
  lemma TotalIsExact(s: State)
    requires Reachable(s)
    ensures s.sh.total >= 0
    ensures s.sh.gate.None? ==> s.sh.total == |Those(s.sh.services, Outstanding)|
  {
    ReachableIsGood(s);
    if s.sh.gate.None? {
      assert Those(s.sh.services, Owed) == Those(s.sh.services, Outstanding);
    }
  }

  /** With the gate free, a node that has booted and has no ordinary service left is quitting. */
  lemma EmptyNodeQuits(s: State)
    requires Reachable(s) && s.sh.gate.None? && s.sh.booted && s.sh.total == 0
    ensures s.sh.quit
  {
    ReachableIsGood(s);
  }

  /** Once the node is quitting it stays so, and no handle is ever added to the table. */
  lemma NoLaunchAfterQuit(s: State, t: Tid, e: Event)
    requires Reachable(s) && s.sh.quit
    ensures Act(s, t, e).sh.quit && Table(Act(s, t, e).sh) <= Table(s.sh)
  {
    ReachableIsGood(s);
    assert PcOk(s.sh, t, At(s, t));
    FreshHandle(s.sh);
    StepsAreMild(s.sh, t, At(s, t), e, 0);
    forall h | h in Table(Act(s, t, e).sh) ensures h in Table(s.sh) {
      StepsAreMild(s.sh, t, At(s, t), e, h);
    }
  }

  /** When abort has returned there is no ordinary service in the table. */
  lemma AbortLeavesNoOrdinaryService(s: State, t: Tid, h: Handle)
    requires Reachable(s) && At(s, t).Aborted?
    ensures s.sh.quit && !Ordinary(s.sh, h)
  {
    ReachableIsGood(s);
    assert PcOk(s.sh, t, At(s, t));
  }

  /** And there never is one again. */
  lemma AbortIsForGood(s: State, t: Tid, e: Event)
    requires Reachable(s) && s.sh.quit && NoneOrdinary(s.sh)
    ensures Act(s, t, e).sh.quit && NoneOrdinary(Act(s, t, e).sh)
  {
    ReachableIsGood(s);
    assert PcOk(s.sh, t, At(s, t));
    FreshHandle(s.sh);
    StepsAreMild(s.sh, t, At(s, t), e, 0);
    forall h | h in Act(s, t, e).sh.services ensures !Ordinary(Act(s, t, e).sh, h) {
      StepsAreMild(s.sh, t, At(s, t), e, h);
    }
  }

  // ------------------------------------------------------------ retire_all ends

  predicate InSweep(pc: Pc) {
    pc.Snapshot? || pc.Sweeping?
  }

  /** The event of a step that gets `retire_all` further. */
  predicate Furthers(pc: Pc, e: Event) {
    pc.Snapshot? || (pc.Sweeping? && (pc.todo == {} || (e.Sweep? && e.h in pc.todo)))
  }

  /** How many steps are left to somebody about to list a table of that size. */
  function RoundsFor(size: nat): nat {
    if size == 0 then 3 else RoundsFor(size - 1) + size + 3
  }

  /** How many steps `retire_all` may still take: the rest of the list, and another round for what is
      then in the table; with nothing retired yet that is less than what was listed. */
  function SweepRank(sh: Shared, pc: Pc): nat {
    match pc
    case Snapshot => RoundsFor(|Table(sh)|)
    case Sweeping(todo, remaining, listed) =>
      |todo| + 1 + if remaining > 0 then RoundsFor(|Table(sh)|) else if listed == {} then 0 else RoundsFor(|listed| - 1)
    case _ => 0
  }

  lemma {:induction false} LargerTakesLonger(a: nat, b: nat)
    requires a <= b
    ensures RoundsFor(a) <= RoundsFor(b)
  {
    if a < b {
      LargerTakesLonger(a, b - 1);
    }
  }

  /** A step of one handle of the list. */
  lemma SweepStepLowers(sh: Shared, todo: set<Handle>, remaining: nat, listed: set<Handle>, e: Event)
    requires SweeperKnows(sh, todo, remaining, listed) && e.Sweep? && e.h in todo
    requires SweeperKnows(SweepStep(sh, todo, remaining, listed, e).sh, todo - {e.h},
                          SweepStep(sh, todo, remaining, listed, e).pc.remaining, listed)
    ensures var n := SweepStep(sh, todo, remaining, listed, e);
      SweepRank(n.sh, n.pc) < SweepRank(sh, Sweeping(todo, remaining, listed))
  {
    var n := SweepStep(sh, todo, remaining, listed, e);
    assert |todo - {e.h}| == |todo| - 1 && e.h in listed;
    if remaining > 0 {
      SubsetSize(Table(n.sh), Table(sh));
      LargerTakesLonger(|Table(n.sh)|, |Table(sh)|);
    } else if n.pc.remaining > 0 {
      SubsetSize(Table(n.sh), listed);
      LargerTakesLonger(|Table(n.sh)|, |listed| - 1);
    }
  }

  lemma OwnStepLowers(s: State, t: Tid, e: Event)
    requires Reachable(s) && Furthers(At(s, t), e)
    ensures SweepRank(Act(s, t, e).sh, At(Act(s, t, e), t)) < SweepRank(s.sh, At(s, t))
  {
    ReachableIsGood(s);
    assert PcOk(s.sh, t, At(s, t));
    match At(s, t)
    case Sweeping(todo, remaining, listed) =>
      if todo != {} {
        SweepKeepsKnowing(s.sh, t, todo, remaining, listed, e);
        SweepStepLowers(s.sh, todo, remaining, listed, e);
      }
    case Snapshot =>
  }

  /** `retire_all` comes to an end under any interleaving: every step that gets it further lowers its
      rank, and nobody else's step raises it. */
  lemma SweepsEnd(s: State, t: Tid, actor: Tid, e: Event)
    requires Reachable(s) && InSweep(At(s, t))
    ensures var s' := Act(s, actor, e);
      if actor == t && Furthers(At(s, t), e) then SweepRank(s'.sh, At(s', t)) < SweepRank(s.sh, At(s, t))
      else At(s', t) == At(s, t) && SweepRank(s'.sh, At(s', t)) <= SweepRank(s.sh, At(s, t))
  {
    if actor == t && Furthers(At(s, t), e) {
      OwnStepLowers(s, t, e);
    } else {
      ReachableIsGood(s);
      assert PcOk(s.sh, t, At(s, t));
      NoLaunchAfterQuit(s, actor, e);
      SubsetSize(Table(Act(s, actor, e).sh), Table(s.sh));
      LargerTakesLonger(|Table(Act(s, actor, e).sh)|, |Table(s.sh)|);
    }
  }

  datatype Move = Move(actor: Tid, e: Event)

  /** The steps that get the `retire_all` of a thread further, until it is done, when everybody moves as
      given. */
  function OwnSteps(s: State, t: Tid, moves: seq<Move>): nat
    decreases |moves|
  {
    if moves == [] || !InSweep(At(s, t)) then 0
    else
      var rest := OwnSteps(Act(s, moves[0].actor, moves[0].e), t, moves[1..]);
      if moves[0].actor == t && Furthers(At(s, t), moves[0].e) then rest + 1 else rest
  }

  lemma ReachableOn(s: State, actor: Tid, e: Event)
    requires Reachable(s)
    ensures Reachable(Act(s, actor, e))
  {
    var run :| IsRun(run) && run[|run| - 1] == s;
    var longer := run + [Act(s, actor, e)];
    forall i | 0 <= i < |longer| - 1 ensures Step(longer[i], longer[i + 1]) {
      if i < |run| - 1 {
        assert Step(run[i], run[i + 1]);
      }
    }
    assert IsRun(longer) && longer[|longer| - 1] == Act(s, actor, e);
  }

  /** However threads move, there is a number of steps of its own that `retire_all` does not exceed. */
  lemma {:induction false} SweepsAreBounded(s: State, t: Tid, moves: seq<Move>)
    requires Reachable(s)
    ensures OwnSteps(s, t, moves) <= SweepRank(s.sh, At(s, t))
    decreases |moves|
  {
    if moves != [] && InSweep(At(s, t)) {
      SweepsEnd(s, t, moves[0].actor, moves[0].e);
      ReachableOn(s, moves[0].actor, moves[0].e);
      SweepsAreBounded(Act(s, moves[0].actor, moves[0].e), t, moves[1..]);
    }
  }
}
