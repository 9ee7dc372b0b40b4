/** The worker monitor: a worker announces each poll by a version and a route, and one checker looks
    now and then whether the same poll is still running. One step per atomic access.
 */
module Monitor {

  type Handle = nat

  datatype Route = Route(source: Handle, destination: Handle)

  const NOWHERE := Route(0, 0)

  /** The next access of the worker. */
  datatype Worker =
    | Outside
    | Begin(r: Route, step: BeginStep)
    | Polling(r: Route)
    | Finish(stage: FinishStage)

  datatype BeginStep = Enter | Source | Destination | Leave       // after the version was raised
  datatype FinishStage = Reenter | ClearSource | ClearDestination | Releave | RaiseVersion

  /** The next access of the checker; `v` is the version it read first. */
  datatype Checker =
    | Resting
    | ReadSeq(v: nat)
    | ReadSource(v: nat, q: nat)
    | ReadDestination(v: nat, q: nat, source: Handle)
    | ReadAgain(v: nat, q: nat, r: Route)
    | ReadVersion(v: nat, r: Route)

  datatype Shared = Shared(version: nat, checked: nat, route: Route, seqno: nat)

  /** Bookkeeping: the route of each poll by its version, the route each even sequence number stands
      for, and the version every finished check ended with. */
  datatype Book = Book(polls: map<nat, Route>, published: map<nat, Route>, checks: seq<nat>)

  datatype Report = Silence | Stuck(source: Handle, destination: Handle, version: nat)

  datatype State = State(sh: Shared, worker: Worker, checker: Checker, book: Book, report: Report)

  const INIT := State(Shared(0, 0, NOWHERE, 0), Outside, Resting, Book(map[], map[0 := NOWHERE], []), Silence)

  datatype Event = WorkerStep(r: Route) | CheckerStep

  function Act(s: State, e: Event): State {
    match e
    case WorkerStep(r) => WorkerAct(s, r)
    case CheckerStep => CheckerAct(s)
  }

  /** `begin`, the poll and `finish`; a new poll takes its route from the event. */
  function WorkerAct(s: State, r: Route): State {
    var sh := s.sh;
    match s.worker
    case Outside =>
      s.(sh := sh.(version := sh.version + 1), worker := Begin(r, Enter),
         book := s.book.(polls := s.book.polls[sh.version + 1 := r]))
    case Begin(r, Enter) => s.(sh := sh.(seqno := sh.seqno + 1), worker := Begin(r, Source))
    case Begin(r, Source) => s.(sh := sh.(route := sh.route.(source := r.source)), worker := Begin(r, Destination))
    case Begin(r, Destination) =>
      s.(sh := sh.(route := sh.route.(destination := r.destination)), worker := Begin(r, Leave))
    case Begin(r, Leave) => Publish(s, Polling(r))
    case Polling(_) => s.(worker := Finish(Reenter))
    case Finish(Reenter) => s.(sh := sh.(seqno := sh.seqno + 1), worker := Finish(ClearSource))
    case Finish(ClearSource) => s.(sh := sh.(route := sh.route.(source := 0)), worker := Finish(ClearDestination))
    case Finish(ClearDestination) => s.(sh := sh.(route := sh.route.(destination := 0)), worker := Finish(Releave))
    case Finish(Releave) => Publish(s, Finish(RaiseVersion))
    case Finish(RaiseVersion) => s.(sh := sh.(version := sh.version + 1), worker := Outside)
  }

  /** The sequence number becomes even again: the route now stored is the one it stands for. */
  function Publish(s: State, next: Worker): State {
    s.(sh := s.sh.(seqno := s.sh.seqno + 1), worker := next,
       book := s.book.(published := s.book.published[s.sh.seqno + 1 := s.sh.route]))
  }

  /** `check`, with `read_route` inside it. `checked` is the checker's own, so its load is folded
      into the load of the version before it. */
  function CheckerAct(s: State): State {
    var sh := s.sh;
    match s.checker
    case Resting => s.(checker := ReadSeq(sh.version))
    case ReadSeq(v) => if sh.seqno % 2 != 0 then s else s.(checker := ReadSource(v, sh.seqno))
    case ReadSource(v, q) => s.(checker := ReadDestination(v, q, sh.route.source))
    case ReadDestination(v, q, source) => s.(checker := ReadAgain(v, q, Route(source, sh.route.destination)))
    case ReadAgain(v, q, r) => s.(checker := if sh.seqno == q then ReadVersion(v, r) else ReadSeq(v))
    case ReadVersion(v, r) =>
      var done := s.(checker := Resting, book := s.book.(checks := s.book.checks + [sh.version]));
      if v != sh.version || sh.version != sh.checked then done.(sh := sh.(checked := sh.version), report := Silence)
      else done.(report := if r.destination != 0 then Stuck(r.source, r.destination, sh.version) else Silence)
  }

  ghost predicate Step(s: State, s': State) {
    exists e :: s' == Act(s, e)
  }

  ghost predicate IsRun(run: seq<State>) {
    && |run| > 0 && run[0] == INIT
    && forall i :: 0 <= i < |run| - 1 ==> Step(run[i], run[i + 1])
  }

  ghost predicate Reachable(s: State) {
    exists run :: IsRun(run) && run[|run| - 1] == s
  }

  // ------------------------------------------------------------ the worker's side

  /** The worker is between storing a route and taking the lock off it. */
  predicate Writing(w: Worker) {
    (w.Begin? && !w.step.Enter?) || (w.Finish? && !w.stage.Reenter? && !w.stage.RaiseVersion?)
  }

  /** The poll of the current version is under way. */
  predicate InPoll(w: Worker) {
    !w.Outside?
  }

  /** The route of the current poll stands in the open. */
  predicate Shown(w: Worker) {
    w.Polling? || w == Finish(Reenter)
  }

  ghost predicate WorkerOk(sh: Shared, w: Worker, b: Book) {
    && (Writing(w) <==> sh.seqno % 2 == 1)
    && (InPoll(w) <==> sh.version in b.polls)
    && (forall v :: v in b.polls ==> v <= sh.version)
    && (forall q :: q in b.published ==> q <= sh.seqno)
    && (!Writing(w) ==> sh.seqno in b.published && b.published[sh.seqno] == sh.route)
    && (!Writing(w) ==> sh.route == if Shown(w) then b.polls[sh.version] else NOWHERE)
    && (w.Begin? || w.Polling? ==> b.polls[sh.version] == w.r)
    && (w.Begin? && w.step.Destination? ==> sh.route.source == w.r.source)
    && (w.Begin? && w.step.Leave? ==> sh.route == w.r)
    && (w == Finish(ClearDestination) ==> sh.route.source == 0)
    && (w == Finish(Releave) ==> sh.route == NOWHERE)
  }

  lemma WorkerKeepsItself(s: State, r: Route)
    requires WorkerOk(s.sh, s.worker, s.book)
    ensures var s' := WorkerAct(s, r); WorkerOk(s'.sh, s'.worker, s'.book)
  {
  }

  // ------------------------------------------------------------ the checker's side

  ghost predicate CheckerOk(sh: Shared, c: Checker, b: Book) {
    match c
    case Resting => true
    case ReadSeq(v) => v <= sh.version
    case ReadSource(v, q) => v <= sh.version && q % 2 == 0 && q in b.published
    case ReadDestination(v, q, source) =>
      v <= sh.version && q % 2 == 0 && q in b.published && (sh.seqno == q ==> source == b.published[q].source)
    case ReadAgain(v, q, r) =>
      v <= sh.version && q % 2 == 0 && q in b.published && (sh.seqno == q ==> r == b.published[q])
    case ReadVersion(v, r) =>
      v <= sh.version && (sh.version == v ==> r == NOWHERE || (v in b.polls && r == b.polls[v]))
  }

  ghost predicate ReportOk(sh: Shared, b: Book, report: Report) {
    && 0 !in b.polls
    && sh.checked == (if b.checks == [] then 0 else b.checks[|b.checks| - 1])
    && (report.Stuck? ==>
          && report.version in b.polls && b.polls[report.version] == Route(report.source, report.destination)
          && report.destination != 0
          && |b.checks| >= 2 && b.checks[|b.checks| - 1] == b.checks[|b.checks| - 2] == report.version)
  }

  ghost predicate Good(s: State) {
    WorkerOk(s.sh, s.worker, s.book) && CheckerOk(s.sh, s.checker, s.book) && ReportOk(s.sh, s.book, s.report)
  }

  /** Nothing the worker does falsifies what the checker holds. */
  lemma WorkerKeepsChecker(s: State, r: Route)
    requires Good(s)
    ensures var s' := WorkerAct(s, r); CheckerOk(s'.sh, s'.checker, s'.book) && ReportOk(s'.sh, s'.book, s'.report)
  {
  }

  lemma CheckerKeepsRead(s: State)
    requires Good(s)
    ensures CheckerOk(CheckerAct(s).sh, CheckerAct(s).checker, CheckerAct(s).book)
  {
  }

  lemma CheckerKeepsReport(s: State)
    requires CheckerOk(s.sh, s.checker, s.book) && ReportOk(s.sh, s.book, s.report)
    ensures ReportOk(CheckerAct(s).sh, CheckerAct(s).book, CheckerAct(s).report)
  {
  }

  lemma CheckerKeepsWorker(s: State)
    requires WorkerOk(s.sh, s.worker, s.book)
    ensures WorkerOk(CheckerAct(s).sh, CheckerAct(s).worker, CheckerAct(s).book)
  {
  }

  lemma ActKeeps(s: State, e: Event)
    requires Good(s)
    ensures Good(Act(s, e))
  {
    match e
    case WorkerStep(r) =>
      WorkerKeepsItself(s, r);
      WorkerKeepsChecker(s, r);
    case CheckerStep =>
      CheckerKeepsWorker(s);
      CheckerKeepsRead(s);
      CheckerKeepsReport(s);
  }

  lemma {:induction false} RunIsGood(run: seq<State>)
    requires IsRun(run)
    ensures Good(run[|run| - 1])
  {
    if |run| > 1 {
      var before := run[..|run| - 1];
      forall i | 0 <= i < |before| - 1 ensures Step(before[i], before[i + 1]) {
        assert Step(run[i], run[i + 1]);
      }
      RunIsGood(before);
      var s, s' := run[|run| - 2], run[|run| - 1];
      assert s == before[|before| - 1] && Step(run[|run| - 2], run[|run| - 2 + 1]);
      var e :| s' == Act(s, e);
      ActKeeps(s, e);
    }
  }

  lemma ReachableIsGood(s: State)
    requires Reachable(s)
    ensures Good(s)
  {
    var run :| IsRun(run) && run[|run| - 1] == s;
    RunIsGood(run);
  }

  // ------------------------------------------------------------ the theorems

  /** Where `read_route` returns: the pair it read is the route in force at that moment, never the
      source of one poll with the destination of another; a route that leads somewhere is that of
      the poll now running, which has not begun to clear it. */
  lemma ReadRouteIsAtomic(s: State)
    requires Reachable(s) && s.checker.ReadAgain? && CheckerAct(s).checker.ReadVersion?
    ensures s.checker.r == s.sh.route && !Writing(s.worker)
    ensures s.checker.r != NOWHERE ==>
      Shown(s.worker) && s.sh.version in s.book.polls && s.checker.r == s.book.polls[s.sh.version]
  {
    ReachableIsGood(s);
  }

  /** A report names a poll by its own route and version; the check before this one had already
      seen the same poll. */
  lemma ReportsAreTrue(s: State)
    requires Reachable(s) && s.report.Stuck?
    ensures s.report.version in s.book.polls
    ensures s.book.polls[s.report.version] == Route(s.report.source, s.report.destination)
    ensures |s.book.checks| >= 2
    ensures s.book.checks[|s.book.checks| - 1] == s.book.checks[|s.book.checks| - 2] == s.report.version
  {
    ReachableIsGood(s);
  }

  /** The step from state `n` of the run ends a check with a report. */
  ghost predicate ReportsAt(run: seq<State>, n: nat) {
    n < |run| && run[n].checker.ReadVersion? && CheckerAct(run[n]).report.Stuck?
  }

  /** The poll of version `v` returns in the step from state `i`. */
  ghost predicate ReturnsAt(run: seq<State>, i: nat, v: nat) {
    i + 1 < |run| && run[i].sh.version == v && run[i].worker.Polling? && run[i + 1].worker == Finish(Reenter)
  }

  /** In the step from state `j` `read_route` returned the route of poll `v`, which had not begun to
      clear it; since then, up to state `n`, the check has been about to load the version again. */
  ghost predicate SawAt(run: seq<State>, j: nat, n: nat, v: nat, r: Route) {
    && j < n < |run| && run[j].checker.ReadAgain? && Shown(run[j].worker)
    && run[j].sh.version == v && run[j].sh.route == r
    && forall i :: j < i <= n ==> run[i].checker == ReadVersion(v, r)
  }

  /** By state `n` poll `v` has returned: it had when it was seen, or did since. */
  ghost predicate ReturnedSince(run: seq<State>, j: nat, n: nat, v: nat)
    requires j < |run|
  {
    run[j].worker == Finish(Reenter) || exists i :: j < i < n && ReturnsAt(run, i, v)
  }

  lemma PrefixIsGood(run: seq<State>, n: nat)
    requires IsRun(run) && n < |run|
    ensures Good(run[n])
  {
    var part := run[..n + 1];
    forall i | 0 <= i < |part| - 1 ensures Step(part[i], part[i + 1]) {
      assert Step(run[i], run[i + 1]);
    }
    RunIsGood(part);
  }

  /** One step while the checker is about to load the version again. */
  lemma StillThere(s: State, e: Event, v: nat, r: Route)
    requires Good(s) && s.sh.version == v == Act(s, e).sh.version && s.checker == Act(s, e).checker == ReadVersion(v, r)
    requires s.worker.Polling? || s.worker.Finish?
    ensures Act(s, e).worker.Polling? || Act(s, e).worker.Finish?
    ensures Act(s, e).worker.Finish? <==>
      s.worker.Finish? || (s.worker.Polling? && Act(s, e).worker == Finish(Reenter))
  {
  }

  /** The step that gets the checker there. */
  lemma ReadsRoute(s: State, e: Event, v: nat, r: Route)
    requires Good(s) && !s.checker.ReadVersion? && Act(s, e).checker == ReadVersion(v, r) && Act(s, e).sh.version == v
    requires r != NOWHERE
    ensures s.checker.ReadAgain? && Shown(s.worker) && s.sh.version == v && s.sh.route == r
    ensures Act(s, e).worker == s.worker
  {
  }

  lemma {:induction false} SeenByTheCheck(run: seq<State>, n: nat, v: nat, r: Route) returns (j: nat)
    requires IsRun(run) && n < |run| && run[n].checker == ReadVersion(v, r) && r != NOWHERE && run[n].sh.version == v
    ensures SawAt(run, j, n, v, r) && (run[n].worker.Polling? || run[n].worker.Finish?)
    ensures run[n].worker.Finish? <==> ReturnedSince(run, j, n, v)
    decreases n
  {
    PrefixIsGood(run, n - 1);
    assert Step(run[n - 1], run[n - 1 + 1]);
    var s := run[n - 1];
    var e :| run[n] == Act(s, e);
    if s.checker.ReadVersion? {
      assert s.checker == ReadVersion(v, r) && s.sh.version == v;
      j := SeenByTheCheck(run, n - 1, v, r);
      StillThere(s, e, v, r);
      if run[n].worker.Finish? && !s.worker.Finish? {
        assert ReturnsAt(run, n - 1, v);
      }
    } else {
      ReadsRoute(s, e, v, r);
      j := n - 1;
    }
  }

  /** What a report says was true when the check read the route: the very poll it names was there, with
      that route, and had not begun to clear it. When the report is made, the version is still that of
      the poll, but the poll may have returned: exactly if it had already, without having begun to
      clear its route, or did before the version was loaded again. Otherwise it is running. */
  lemma ReportsAreOfSeenPolls(run: seq<State>, n: nat) returns (j: nat)
    requires IsRun(run) && ReportsAt(run, n)
    ensures var report := CheckerAct(run[n]).report;
      var r := Route(report.source, report.destination);
      && SawAt(run, j, n, report.version, r) && run[n].sh.version == report.version
      && (run[n].worker.Finish? <==> ReturnedSince(run, j, n, report.version))
      && (!run[n].worker.Finish? <==> run[n].worker == Polling(r))
  {
    PrefixIsGood(run, n);
    j := SeenByTheCheck(run, n, run[n].checker.v, run[n].checker.r);
  }

  lemma ReachableOn(s: State, e: Event)
    requires Reachable(s)
    ensures Reachable(Act(s, e))
  {
    var run :| IsRun(run) && run[|run| - 1] == s;
    var longer := run + [Act(s, e)];
    forall i | 0 <= i < |longer| - 1 ensures Step(longer[i], longer[i + 1]) {
      if i < |run| - 1 {
        assert Step(run[i], run[i + 1]);
      }
    }
    assert IsRun(longer) && longer[|longer| - 1] == Act(s, e);
  }

  /** A check up to its last load while the worker does not move, and a whole one. */
  function Reading(s: State): State {
    CheckerAct(CheckerAct(CheckerAct(CheckerAct(CheckerAct(s)))))
  }

  function Check(s: State): State {
    CheckerAct(Reading(s))
  }

  /** And a poll that stays long enough is reported: the second check at the latest says so. */
  lemma StuckPollsAreReported(s: State)
    requires Reachable(s) && s.checker.Resting? && s.worker.Polling? && s.worker.r.destination != 0
    ensures Check(s).checker.Resting? && Check(Check(s)).checker.Resting?
    ensures Check(Check(s)).report == Stuck(s.worker.r.source, s.worker.r.destination, s.sh.version)
  {
    ReachableIsGood(s);
    CheckOnce(s);
    CheckOnce(Check(s));
  }

  lemma CheckOnce(s: State)
    requires s.checker.Resting? && s.sh.seqno % 2 == 0
    ensures var s' := Check(s);
      && s'.checker.Resting? && s'.worker == s.worker && s'.sh == s.sh.(checked := s.sh.version)
      && s'.report == if s.sh.version == s.sh.checked && s.sh.route.destination != 0
                      then Stuck(s.sh.route.source, s.sh.route.destination, s.sh.version) else Silence
  {
    var s1 := CheckerAct(s);
    var s2 := CheckerAct(s1);
    var s3 := CheckerAct(s2);
    var s4 := CheckerAct(s3);
    var s5 := CheckerAct(s4);
    assert s5.checker == ReadVersion(s.sh.version, s.sh.route) && s5.sh == s.sh;
  }

  /** The worker alone: `begin` publishes the route of a new poll under a version of its own, and `finish`
      clears the route and raises the version again. */
  lemma PollsAreAnnounced(s: State, r: Route)
    requires Reachable(s) && s.worker.Outside?
    ensures var s1 := WorkerAct(WorkerAct(WorkerAct(WorkerAct(WorkerAct(s, r), r), r), r), r);
      var s2 := WorkerAct(WorkerAct(WorkerAct(WorkerAct(WorkerAct(WorkerAct(s1, r), r), r), r), r), r);
      && s1.worker == Polling(r) && s1.sh == s.sh.(version := s.sh.version + 1, seqno := s.sh.seqno + 2, route := r)
      && s2.worker.Outside? && s2.sh == s.sh.(version := s.sh.version + 2, seqno := s.sh.seqno + 4, route := NOWHERE)
  {
    ReachableIsGood(s);
    var s1 := WorkerAct(WorkerAct(WorkerAct(WorkerAct(WorkerAct(s, r), r), r), r), r);
    assert s1.worker == Polling(r) && s1.sh == s.sh.(version := s.sh.version + 1, seqno := s.sh.seqno + 2, route := r);
  }

  // ------------------------------------------------------------ a report that comes too late

  lemma ReachableByWorker(s: State, r: Route)
    requires Reachable(s)
    ensures Reachable(WorkerAct(WorkerAct(WorkerAct(WorkerAct(WorkerAct(s, r), r), r), r), r))
  {
    var s1 := WorkerAct(s, r);
    ReachableOn(s, WorkerStep(r));
    var s2 := WorkerAct(s1, r);
    ReachableOn(s1, WorkerStep(r));
    var s3 := WorkerAct(s2, r);
    ReachableOn(s2, WorkerStep(r));
    var s4 := WorkerAct(s3, r);
    ReachableOn(s3, WorkerStep(r));
    ReachableOn(s4, WorkerStep(r));
  }

  lemma ReachableByChecker(s: State)
    requires Reachable(s)
    ensures Reachable(Reading(s)) && Reachable(Check(s))
  {
    var s1 := CheckerAct(s);
    ReachableOn(s, CheckerStep);
    var s2 := CheckerAct(s1);
    ReachableOn(s1, CheckerStep);
    var s3 := CheckerAct(s2);
    ReachableOn(s2, CheckerStep);
    var s4 := CheckerAct(s3);
    ReachableOn(s3, CheckerStep);
    ReachableOn(s4, CheckerStep);
    ReachableOn(Reading(s), CheckerStep);
  }

  /** A poll with route `r` has begun and been checked once; the next check has read its route. */
  lemma CheckedAndSeen(r: Route) returns (s: State)
    ensures Reachable(s) && s.worker == Polling(r) && s.checker == ReadVersion(1, r)
    ensures s.sh == Shared(1, 1, r, 2)
  {
    assert IsRun([INIT]) && [INIT][|[INIT]| - 1] == INIT;
    ReachableByWorker(INIT, r);
    s := WorkerAct(WorkerAct(WorkerAct(WorkerAct(WorkerAct(INIT, r), r), r), r), r);
    assert s.sh == Shared(1, 0, r, 2) && s.worker == Polling(r) && s.checker.Resting?;
    CheckOnce(s);
    ReachableByChecker(s);
    s := Check(s);
    CheckOnce(s);
    ReachableByChecker(s);
    s := Reading(s);
  }

  predicate ReportsReturned(s: State, r: Route) {
    && s.worker == Finish(RaiseVersion) && s.sh.route == NOWHERE
    && s.checker.ReadVersion? && CheckerAct(s).report == Stuck(r.source, r.destination, s.sh.version)
  }

  /** So a poll that has returned and cleared its route can still be reported. */
  lemma ReturnedPollCanBeReported(r: Route)
    requires r.destination != 0
    ensures exists s :: Reachable(s) && ReportsReturned(s, r)
  {
    var s := CheckedAndSeen(r);
    ReachableByWorker(s, r);
    s := WorkerAct(WorkerAct(WorkerAct(WorkerAct(WorkerAct(s, r), r), r), r), r);
    assert ReportsReturned(s, r);
  }
}
