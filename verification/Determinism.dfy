/**
 What user code does decides what a run records, whatever the interleaving.
 */
module Determinism {
  import opened Paths
  import opened Tree
  import opened Common
  import opened Selection
  import opened EventLog
  import opened Fixtures
  import opened Engine
  import opened Control
  import opened Lifecycle
  import Scheduling
  import Conservation
  import Collector
  import NameLists
  import Progress
  import Termination
  import Completion

  // ---------------------------------------------------------------------------------------------
  // How a setup ends, without the cache
  // ---------------------------------------------------------------------------------------------

  /** The nested setups of a type always run the code of that type. */
  predicate Follows(code: TypeId -> Plan, plan: Plan)
    decreases plan
  {
    match plan
    case SetUp(ty, nested, _, next) => nested == code(ty) && Follows(code, nested) && Follows(code, next)
    case Fetch(_, next) => Follows(code, next)
    case _ => true
  }

  /** How code ends if every nested setup runs anew, unless its type is permanent. */
  function EndOf(permanent: set<TypeId>, plan: Plan): End
    decreases plan
  {
    match plan
    case Retain(_) => MakesFixture
    case ReturnNone => MakesNone
    case Panic => Breaks
    case Fetch(_, next) => EndOf(permanent, next)
    case SetUp(ty, nested, shielded, next) =>
      if ty !in permanent && EndOf(permanent, nested) == Breaks && !shielded then Breaks
      else EndOf(permanent, next)
  }

  /** The types there are permanent, or their code makes a fixture. */
  predicate Fitting(code: TypeId -> Plan, permanent: set<TypeId>, present: set<TypeId>) {
    && permanent <= present
    && forall ty :: ty in present && ty !in permanent ==> EndOf(permanent, code(ty)) == MakesFixture
  }

  /** That setups are memoised changes nothing about how they end: it does not matter which of the types whose code
      makes a fixture are there. */
  lemma {:induction false} MemoIsInvisible(
      code: TypeId -> Plan, permanent: set<TypeId>, present: set<TypeId>, plan: Plan)
    requires Follows(code, plan) && Fitting(code, permanent, present)
    ensures FateOf(present, plan).end == EndOf(permanent, plan)
    ensures Fitting(code, permanent, FateOf(present, plan).present)
    decreases plan
  {
    match plan
    case SetUp(ty, nested, shielded, next) =>
      if ty in present {
        MemoIsInvisible(code, permanent, present, next);
      } else {
        MemoIsInvisible(code, permanent, present, nested);
        var inner := FateOf(present, nested);
        if inner.end != Breaks || shielded {
          MemoIsInvisible(
            code, permanent, if inner.end == MakesFixture then inner.present + {ty} else inner.present, next);
        }
      }
    case Fetch(_, next) => MemoIsInvisible(code, permanent, present, next);
    case _ =>
  }

  /** How the setup of a type ends, from a cache or without one. */
  function SetupEnd(code: TypeId -> Plan, permanent: set<TypeId>, ty: TypeId): End {
    if ty in permanent then MakesFixture else EndOf(permanent, code(ty))
  }

  predicate HasEnd(r: SetupResult, end: End) {
    match r
    case Passed(_) => end == MakesFixture
    case Skipped => end == MakesNone
    case Failed => end == Breaks
  }

  lemma SetupHasEnd(code: TypeId -> Plan, permanent: set<TypeId>, m: Manager, ty: TypeId)
    requires Follows(code, code(ty)) && Fitting(code, permanent, Present(m))
    ensures HasEnd(Setup(m, ty, code(ty)).1, SetupEnd(code, permanent, ty))
    ensures Fitting(code, permanent, Present(Setup(m, ty, code(ty)).0))
  {
    SetupMeetsFate(m, ty, code(ty));
    MemoIsInvisible(code, permanent, Present(m), code(ty));
  }

  lemma SweepKeepsFitting(code: TypeId -> Plan, permanent: set<TypeId>, m: Manager, order: seq<TypeId>)
    requires Fitting(code, permanent, Present(m)) && m.permanent == permanent
    ensures Fitting(code, permanent, Present(ExtractAll(m, order)))
  {
    SweepRemoves(m, order);
  }

  // ---------------------------------------------------------------------------------------------
  // Runs of given user code
  // ---------------------------------------------------------------------------------------------

  /** All that is not up to the interleaving: the code of each fixture type; and of each group and test, whether its
      setup runs out of time, whether its body passes, and whether its sweep does. */
  datatype Behaviour = Behaviour(code: TypeId -> Plan, late: Path -> bool, body: Path -> bool, sweep: Path -> bool)

  ghost predicate Consistent(b: Behaviour) {
    forall ty {:trigger b.code(ty)} :: Ranked(ty, b.code(ty)) && Follows(b.code, b.code(ty))
  }

  predicate Obeys(b: Behaviour, cfg: Config, step: Step) {
    match step
    case RunSetupOf(p, plan) => !b.late(p) && FixtureAt(cfg, p).Some? && plan == b.code(FixtureAt(cfg, p).value)
    case TimeOutSetup(p) => b.late(p)
    case RunBody(p, passed) => passed == b.body(p)
    case RunTeardown(p, _, ok, _) => ok == b.sweep(p)
    case _ => true
  }

  ghost predicate NextObeys(b: Behaviour, cfg: Config, run: seq<State>, i: nat)
    requires i + 1 < |run|
  {
    exists step :: Enabled(cfg, run[i], step) && Obeys(b, cfg, step) && run[i + 1] == Apply(cfg, run[i], step)
  }

  /** A run in which user code behaves so; all else, the order of the steps and of the sweeps, is free. */
  ghost predicate IsRunOf(b: Behaviour, cfg: Config, run: seq<State>) {
    IsRun(cfg, run) && forall i :: 0 <= i < |run| - 1 ==> NextObeys(b, cfg, run, i)
  }

  function EndAt(b: Behaviour, cfg: Config, p: Path): End {
    if b.late(p) then Breaks
    else match FixtureAt(cfg, p)
      case None => Breaks
      case Some(ty) => SetupEnd(b.code, cfg.permanent, ty)
  }

  function VerdictAt(b: Behaviour, cfg: Config, p: Path, task: Task): Verdict {
    match EndAt(b, cfg, p)
    case MakesFixture => Finished(task == OfGroup || b.body(p))
    case MakesNone => WasSkipped
    case Breaks => SetupBroke
  }

  /** A node is where the behaviour leads it. */
  predicate AsExpected(b: Behaviour, cfg: Config, p: Path, node: Node) {
    match node.pc
    case Starting => true
    case SetUpDone(r) => HasEnd(r, EndAt(b, cfg, p))
    case Open(_) => EndAt(b, cfg, p) == MakesFixture
    case Running(_) => EndAt(b, cfg, p) == MakesFixture
    case Ran(_, passed) => EndAt(b, cfg, p) == MakesFixture && passed == b.body(p)
    case Judged(_, passed) => EndAt(b, cfg, p) == MakesFixture && passed == b.body(p)
    case Closing(v) => v == VerdictAt(b, cfg, p, node.task)
    case TearingDown(v) => v == VerdictAt(b, cfg, p, node.task)
    case TornDown(v, ok) => v == VerdictAt(b, cfg, p, node.task) && ok == b.sweep(p)
    case Done(v, ok) => v == VerdictAt(b, cfg, p, node.task) && ok == b.sweep(p)
  }

  ghost predicate AllAsExpected(b: Behaviour, cfg: Config, s: State) {
    && Fitting(b.code, cfg.permanent, Present(s.fixtures))
    && forall p {:trigger AsExpected(b, cfg, p, s.nodes[p])} :: p in s.nodes ==> AsExpected(b, cfg, p, s.nodes[p])
  }

  lemma StepKeepsFitting(b: Behaviour, cfg: Config, s: State, step: Step)
    requires Consistent(b) && Enabled(cfg, s, step) && Obeys(b, cfg, step)
    requires Fitting(b.code, cfg.permanent, Present(s.fixtures)) && s.fixtures.permanent == cfg.permanent
    ensures Fitting(b.code, cfg.permanent, Present(Apply(cfg, s, step).fixtures))
    ensures step.RunSetupOf? ==> HasEnd(Setup(s.fixtures, FixtureAt(cfg, step.path).value, step.plan).1,
                                        SetupEnd(b.code, cfg.permanent, FixtureAt(cfg, step.path).value))
  {
    Collector.FixturesAfter(cfg, s, step);
    match step
    case RunSetupOf(p, plan) => SetupHasEnd(b.code, cfg.permanent, s.fixtures, FixtureAt(cfg, p).value);
    case RunTeardown(_, order, _, _) => SweepKeepsFitting(b.code, cfg.permanent, s.fixtures, order);
    case _ =>
  }

  /** The node that moves goes where it is expected. */
  lemma MoverIsExpected(b: Behaviour, cfg: Config, s: State, step: Step)
    requires Enabled(cfg, s, step) && Obeys(b, cfg, step) && !IsLaunch(step)
    requires step.path in s.nodes && AsExpected(b, cfg, step.path, s.nodes[step.path])
    requires s.nodes[step.path].task == OfGroup ==> !InBody(s.nodes[step.path].pc)
    requires step.RunSetupOf? ==> HasEnd(Setup(s.fixtures, FixtureAt(cfg, step.path).value, step.plan).1,
                                         SetupEnd(b.code, cfg.permanent, FixtureAt(cfg, step.path).value))
    ensures var t := Apply(cfg, s, step);
            step.path in t.nodes && AsExpected(b, cfg, step.path, t.nodes[step.path])
  {
  }

  lemma StepIsExpected(b: Behaviour, cfg: Config, s: State, step: Step)
    requires Consistent(b) && Enabled(cfg, s, step) && Obeys(b, cfg, step)
    requires AllPlaced(cfg, s) && AllAsExpected(b, cfg, s) && s.fixtures.permanent == cfg.permanent
    ensures AllAsExpected(b, cfg, Apply(cfg, s, step))
  {
    var t := Apply(cfg, s, step);
    StepKeepsFitting(b, cfg, s, step);
    if IsLaunch(step) {
      StepLaunches(cfg, s, step);
      forall p | p in t.nodes
        ensures AsExpected(b, cfg, p, t.nodes[p])
      {
        assert p in s.nodes ==> AsExpected(b, cfg, p, s.nodes[p]);
      }
    } else {
      StepAdvances(cfg, s, step);
      assert Placed(cfg, step.path, s.nodes[step.path]);
      MoverIsExpected(b, cfg, s, step);
      forall p | p in t.nodes
        ensures AsExpected(b, cfg, p, t.nodes[p])
      {
        assert p in s.nodes && AsExpected(b, cfg, p, s.nodes[p]);
      }
    }
  }

  lemma ObeyingStepAt(b: Behaviour, cfg: Config, run: seq<State>, i: nat, j: nat) returns (step: Step)
    requires IsRunOf(b, cfg, run) && i + 1 == j < |run|
    ensures Enabled(cfg, run[i], step) && Obeys(b, cfg, step) && run[j] == Apply(cfg, run[i], step)
  {
    assert NextObeys(b, cfg, run, i);
    step :| Enabled(cfg, run[i], step) && Obeys(b, cfg, step) && run[i + 1] == Apply(cfg, run[i], step);
  }

  lemma NextIsExpected(b: Behaviour, cfg: Config, run: seq<State>, i: nat, j: nat)
    requires WellNamed(cfg.root) && Consistent(b) && IsRunOf(b, cfg, run) && i + 1 == j < |run|
    requires AllAsExpected(b, cfg, run[i])
    ensures AllAsExpected(b, cfg, run[j])
  {
    RunIsControlled(cfg, run, i);
    Collector.RunIsTended(cfg, run, i);
    var step := ObeyingStepAt(b, cfg, run, i, j);
    StepIsExpected(b, cfg, run[i], step);
  }

  /** In every reachable state every node is where the behaviour leads it. */
  lemma {:induction false} RunIsExpected(b: Behaviour, cfg: Config, run: seq<State>, i: nat)
    requires WellNamed(cfg.root) && Consistent(b) && IsRunOf(b, cfg, run) && i < |run|
    ensures AllAsExpected(b, cfg, run[i])
  {
    if i > 0 {
      var k: nat :| k + 1 == i;
      RunIsExpected(b, cfg, run, k);
      NextIsExpected(b, cfg, run, k, i);
    }
  }

  // ---------------------------------------------------------------------------------------------
  // What a finished run records
  // ---------------------------------------------------------------------------------------------

  /** A place that is launched: the filter wants it, and the setups of all groups above it pass. */
  predicate IsLaunched(b: Behaviour, cfg: Config, p: Path)
    decreases |p|
  {
    if |p| < 2 then p == RootPath(cfg)
    else
      && IsLaunched(b, cfg, Parent(p))
      && GroupAt(cfg.root, Parent(p)).Some?
      && EndAt(b, cfg, Parent(p)) == MakesFixture
      && if GroupAt(cfg.root, p).Some? then Enters(cfg.filter, p)
         else TestAt(cfg.root, p).Some? && Selects(cfg.filter, p)
  }

  function TaskAt(cfg: Config, p: Path): Task {
    if GroupAt(cfg.root, p).Some? then OfGroup else OfTest
  }

  /** The events of a place in a finished run, told from the behaviour, the tree and the filter alone. */
  function ExpectedWord(b: Behaviour, cfg: Config, p: Path): seq<Event> {
    if IsLaunched(b, cfg, p) then Word(TaskAt(cfg, p), Done(VerdictAt(b, cfg, p, TaskAt(cfg, p)), b.sweep(p))) else []
  }

  lemma TaskOfNode(cfg: Config, s: State, p: Path)
    requires WellNamed(cfg.root) && Controlled(cfg, s) && p in s.nodes
    ensures s.nodes[p].task == TaskAt(cfg, p)
    ensures GroupAt(cfg.root, p).Some? || TestAt(cfg.root, p).Some?
  {
    assert Placed(cfg, p, s.nodes[p]);
    if GroupAt(cfg.root, p).Some? {
      Conservation.DoneGroupIsGroup(cfg, s, p);
    }
  }

  lemma DoneIsExpected(b: Behaviour, cfg: Config, s: State, p: Path)
    requires AllAsExpected(b, cfg, s) && IsDone(s, p)
    ensures s.nodes[p].pc == Done(VerdictAt(b, cfg, p, s.nodes[p].task), b.sweep(p))
    ensures WasOpened(s.nodes[p].pc) <==> EndAt(b, cfg, p) == MakesFixture
  {
    assert AsExpected(b, cfg, p, s.nodes[p]);
  }

  lemma AllAreDone(cfg: Config, s: State, p: Path)
    requires WellNamed(cfg.root) && Controlled(cfg, s) && IsDone(s, RootPath(cfg)) && p in s.nodes
    ensures IsDone(s, p) && p != []
  {
    Scheduling.OnlyRootActive(cfg, s, p);
    Scheduling.PlacedFacts(cfg, s, p);
  }

  lemma {:induction false} NodeIsLaunched(b: Behaviour, cfg: Config, s: State, p: Path)
    requires WellNamed(cfg.root) && Controlled(cfg, s) && IsDone(s, RootPath(cfg)) && AllAsExpected(b, cfg, s)
    requires p in s.nodes
    ensures IsLaunched(b, cfg, p)
    decreases |p|
  {
    Scheduling.PlacedFacts(cfg, s, p);
    if p != RootPath(cfg) {
      assert UnderParent(cfg, s, p) && Placed(cfg, p, s.nodes[p]);
      NodeIsLaunched(b, cfg, s, Parent(p));
      AllAreDone(cfg, s, Parent(p));
      DoneIsExpected(b, cfg, s, Parent(p));
      TaskOfNode(cfg, s, p);
      TaskOfNode(cfg, s, Parent(p));
    }
  }

  lemma {:induction false} LaunchedIsNode(b: Behaviour, cfg: Config, s: State, p: Path)
    requires WellNamed(cfg.root) && Controlled(cfg, s) && IsDone(s, RootPath(cfg)) && AllAsExpected(b, cfg, s)
    requires IsLaunched(b, cfg, p)
    ensures p in s.nodes
    decreases |p|
  {
    if p != RootPath(cfg) {
      var q := Parent(p);
      LaunchedIsNode(b, cfg, s, q);
      AllAreDone(cfg, s, q);
      DoneIsExpected(b, cfg, s, q);
      TaskOfNode(cfg, s, q);
      Conservation.ChildOfDoneIsDone(cfg, s, q, p);
    }
  }

  /** In every finished run the events of each place are those told from the behaviour alone. */
  lemma RecordIsExpected(b: Behaviour, cfg: Config, run: seq<State>, i: nat, p: Path)
    requires WellNamed(cfg.root) && Consistent(b) && IsRunOf(b, cfg, run) && i < |run|
    requires IsDone(run[i], RootPath(cfg)) && p != [] && ValidPath(p)
    ensures Projection(run[i].log.events, Join(p)) == ExpectedWord(b, cfg, p)
  {
    var s := run[i];
    RunIsControlled(cfg, run, i);
    RunIsLogged(cfg, run, i);
    RunIsExpected(b, cfg, run, i);
    if p in s.nodes {
      NodeIsLaunched(b, cfg, s, p);
      AllAreDone(cfg, s, p);
      DoneIsExpected(b, cfg, s, p);
      TaskOfNode(cfg, s, p);
    } else {
      UnlaunchedIsSilent(cfg, s, p);
      if IsLaunched(b, cfg, p) {
        LaunchedIsNode(b, cfg, s, p);
      }
    }
  }

  /** The events that what user code does calls for at a place. */
  predicate Expects(b: Behaviour, cfg: Config, p: Path, e: Event) {
    var end, task := EndAt(b, cfg, p), TaskAt(cfg, p);
    && IsLaunched(b, cfg, p)
    && match e
       case SetupLaunched => true
       case SetupPassed => end == MakesFixture
       case SetupSkipped(t) => end == MakesNone && t == task
       case SetupFailed(t) => end == Breaks && t == task
       case TestLaunched => end == MakesFixture && task == OfTest
       case TestPassed => end == MakesFixture && task == OfTest && b.body(p)
       case TestFailed => end == MakesFixture && task == OfTest && !b.body(p)
       case TeardownLaunched => true
       case TeardownPassed => b.sweep(p)
       case TeardownFailed => !b.sweep(p)
       case _ => false
  }

  /** In every finished run an event is recorded for a place iff what user code does calls for it. */
  lemma EventsMeetBehaviour(b: Behaviour, cfg: Config, run: seq<State>, i: nat, p: Path, e: Event)
    requires WellNamed(cfg.root) && Consistent(b) && IsRunOf(b, cfg, run) && i < |run|
    requires IsDone(run[i], RootPath(cfg)) && p != [] && ValidPath(p)
    ensures e in Projection(run[i].log.events, Join(p)) <==> Expects(b, cfg, p, e)
  {
    RecordIsExpected(b, cfg, run, i, p);
    WordMeetsBehaviour(b, cfg, p, e);
  }

  lemma WordMeetsBehaviour(b: Behaviour, cfg: Config, p: Path, e: Event)
    ensures e in ExpectedWord(b, cfg, p) <==> Expects(b, cfg, p, e)
  {
    DoneWordHolds(TaskAt(cfg, p), VerdictAt(b, cfg, p, TaskAt(cfg, p)), b.sweep(p));
  }

  lemma DoneWordHolds(task: Task, v: Verdict, ok: bool)
    ensures forall e :: e in Word(task, Done(v, ok)) <==>
              || e == SetupLaunched || e == TeardownLaunched || e == (if ok then TeardownPassed else TeardownFailed)
              || e == (match v case WasSkipped => SetupSkipped(task) case SetupBroke => SetupFailed(task)
                       case Finished(_) => SetupPassed)
              || (task == OfTest && v.Finished? && e in {TestLaunched, if v.passed then TestPassed else TestFailed})
  {
    var w, head := Word(task, Done(v, ok)), WorkWord(task, v);
    assert w == head + [TeardownLaunched] + [if ok then TeardownPassed else TeardownFailed];
    if v.Finished? && task == OfTest {
      assert head[0] == SetupLaunched && head[1] == SetupPassed && head[2] == TestLaunched;
      assert head[3] == if v.passed then TestPassed else TestFailed;
    } else {
      assert head[0] == SetupLaunched;
      assert head[1] == (match v case WasSkipped => SetupSkipped(task) case SetupBroke => SetupFailed(task)
                         case Finished(_) => SetupPassed);
    }
    assert w[|head|] == TeardownLaunched && w[|head| + 1] == if ok then TeardownPassed else TeardownFailed;
    assert forall i :: 0 <= i < |head| ==> w[i] == head[i];
  }

  // ---------------------------------------------------------------------------------------------
  // Two runs
  // ---------------------------------------------------------------------------------------------

  /** The same tests, and the same events of each name in the same order. */
  ghost predicate SameRecord(a: Log, b: Log) {
    a.included == b.included && forall n :: Projection(a.events, n) == Projection(b.events, n)
  }

  function WithLimit(cfg: Config, limit: nat): Config {
    cfg.(concurrency := limit)
  }

  lemma {:induction false} LimitIsNoMatter(b: Behaviour, cfg: Config, limit: nat, p: Path)
    ensures IsLaunched(b, WithLimit(cfg, limit), p) == IsLaunched(b, cfg, p)
    ensures ExpectedWord(b, WithLimit(cfg, limit), p) == ExpectedWord(b, cfg, p)
    decreases |p|
  {
    if |p| >= 2 {
      LimitIsNoMatter(b, cfg, limit, Parent(p));
    }
  }

  lemma SameStart(cfg: Config, limit: nat)
    ensures StartLog(WithLimit(cfg, limit)) == StartLog(cfg)
  {
    assert forall n :: Includes(WithLimit(cfg, limit), n) == Includes(cfg, n);
  }

  /** Where a finished run has an event, any other finished run has the same events. */
  lemma EventsAreTheSame(
      b: Behaviour, cfg: Config, limit: nat, run: seq<State>, i: nat, again: seq<State>, j: nat, n: string)
    requires WellNamed(cfg.root) && Consistent(b)
    requires IsRunOf(b, cfg, run) && i < |run| && IsDone(run[i], RootPath(cfg))
    requires IsRunOf(b, WithLimit(cfg, limit), again) && j < |again| && IsDone(again[j], RootPath(cfg))
    ensures Projection(run[i].log.events, n) == Projection(again[j].log.events, n)
  {
    var other := WithLimit(cfg, limit);
    RunIsControlled(cfg, run, i);
    RunIsLogged(cfg, run, i);
    RunIsControlled(other, again, j);
    RunIsLogged(other, again, j);
    if Projection(run[i].log.events, n) != [] || Projection(again[j].log.events, n) != [] {
      var p :| (p in run[i].nodes || p in again[j].nodes) && n == Join(p);
      if p in run[i].nodes {
        Scheduling.PlacedFacts(cfg, run[i], p);
      } else {
        Scheduling.PlacedFacts(other, again[j], p);
      }
      RecordIsExpected(b, cfg, run, i, p);
      RecordIsExpected(b, other, again, j, p);
      LimitIsNoMatter(b, cfg, limit, p);
    }
  }

  lemma SameNames(a: Log, b: Log, kinds: set<Event>)
    requires SameRecord(a, b)
    ensures NamesWith(a.events, kinds) == NamesWith(b.events, kinds)
  {
    forall n
      ensures n in NamesWith(a.events, kinds) <==> n in NamesWith(b.events, kinds)
    {
      NameHeld(a.events, n, kinds);
      NameHeld(b.events, n, kinds);
    }
  }

  lemma NamesBelowOf(a: Log, b: Log, kind: Event)
    requires SameRecord(a, b)
    ensures NamesBelow(a, kind) <= NamesBelow(b, kind)
  {
    forall x | x in NamesBelow(a, kind)
      ensures x in NamesBelow(b, kind)
    {
      var i :| 0 <= i < |a.events| && a.events[i].event == kind && x in Included(a, a.events[i].name);
      var n := a.events[i].name;
      ProjectionHolds(a.events, n, kind);
      BelowIsProjected(b, n, kind, x);
    }
  }

  lemma SameNamesBelow(a: Log, b: Log, kind: Event)
    requires SameRecord(a, b)
    ensures NamesBelow(a, kind) == NamesBelow(b, kind)
  {
    NamesBelowOf(a, b, kind);
    NamesBelowOf(b, a, kind);
  }

  lemma SameCount(cfg: Config, s: State, other: Config, t: State, kinds: set<Event>)
    requires SameRecord(s.log, t.log) && Logged(cfg, s) && Logged(other, t)
    requires Conservation.WordsHoldOne(s, kinds) && Conservation.WordsHoldOne(t, kinds)
    ensures Count(s.log.events, kinds) == Count(t.log.events, kinds)
  {
    SameNames(s.log, t.log, kinds);
    Conservation.CountsNodes(cfg, s, kinds);
    Conservation.CountsNodes(other, t, kinds);
  }

  /** What the lists are made of. */
  ghost predicate SameLists(a: Log, b: Log) {
    && PassedNames(a) == PassedNames(b) && FailedTestNames(a) == FailedTestNames(b)
    && SkippedNames(a) == SkippedNames(b) && SkippedByFixtureErrNames(a) == SkippedByFixtureErrNames(b)
    && EventLog.FailedNames(a) == EventLog.FailedNames(b)
    && (IsSuccess(a) <==> IsSuccess(b))
  }

  lemma RecordGivesLists(a: Log, b: Log)
    requires SameRecord(a, b)
    ensures SameLists(a, b)
  {
    SameNames(a, b, {TestPassed});
    SameNames(a, b, {TestFailed});
    SameNames(a, b, {TeardownFailed});
    SameNames(a, b, {SetupFailed(OfTest), SetupFailed(OfGroup)});
    SameNames(a, b, {SetupSkipped(OfTest)});
    SameNames(a, b, {SetupFailed(OfTest)});
    SameNamesBelow(a, b, SetupSkipped(OfGroup));
    SameNamesBelow(a, b, SetupFailed(OfGroup));
    FailedNamesForm(a);
    FailedNamesForm(b);
  }

  ghost predicate SameCounters(a: Log, b: Log) {
    && TestsPassed(a) == TestsPassed(b) && TestsFailed(a) == TestsFailed(b) && TestsLaunched(a) == TestsLaunched(b)
    && TestsSkipped(a) == TestsSkipped(b) && TestsSkippedByFixtureErr(a) == TestsSkippedByFixtureErr(b)
    && SetupsLaunched(a) == SetupsLaunched(b) && SetupsPassed(a) == SetupsPassed(b)
    && SetupsSkipped(a) == SetupsSkipped(b) && SetupsFailed(a) == SetupsFailed(b)
    && TeardownsLaunched(a) == TeardownsLaunched(b)
    && TeardownsPassed(a) == TeardownsPassed(b) && TeardownsFailed(a) == TeardownsFailed(b)
  }

  lemma SameCountOf(cfg: Config, s: State, other: Config, t: State, kinds: set<Event>)
    requires SameRecord(s.log, t.log) && Logged(cfg, s) && Logged(other, t)
    requires |kinds| == 1 || forall e :: e in kinds ==> Conservation.Settling(e)
    ensures Count(s.log.events, kinds) == Count(t.log.events, kinds)
  {
    Conservation.WordsHoldOneOf(s, kinds);
    Conservation.WordsHoldOneOf(t, kinds);
    SameCount(cfg, s, other, t, kinds);
  }

  lemma RecordGivesCounters(cfg: Config, s: State, other: Config, t: State)
    requires WellNamed(cfg.root) && Controlled(cfg, s) && Logged(cfg, s)
    requires WellNamed(other.root) && Controlled(other, t) && Logged(other, t)
    requires SameRecord(s.log, t.log)
    ensures SameCounters(s.log, t.log)
  {
    SameCountOf(cfg, s, other, t, {TestPassed});
    SameCountOf(cfg, s, other, t, {TestFailed});
    SameCountOf(cfg, s, other, t, {TestLaunched});
    SameCountOf(cfg, s, other, t, {SetupLaunched});
    SameCountOf(cfg, s, other, t, {SetupPassed});
    SameCountOf(cfg, s, other, t, {SetupSkipped(OfGroup), SetupSkipped(OfTest)});
    SameCountOf(cfg, s, other, t, {SetupFailed(OfGroup), SetupFailed(OfTest)});
    SameCountOf(cfg, s, other, t, {TeardownLaunched});
    SameCountOf(cfg, s, other, t, {TeardownPassed});
    SameCountOf(cfg, s, other, t, {TeardownFailed});
    RecordGivesLists(s.log, t.log);
    Conservation.NothingSettledTwice(cfg, s);
    Conservation.NothingSettledTwice(other, t);
    NameLists.SettledOnceIsCounted(s.log);
    NameLists.SettledOnceIsCounted(t.log);
  }

  /** Whatever the interleaving, the order of each sweep, and even the limit of concurrency: where user code behaves in
      the same way, two finished runs record the same events of each name in the same order. So their counters, their
      name lists and their success are the same. */
  lemma InterleavingIsInvisible(
      b: Behaviour, cfg: Config, limit: nat, run: seq<State>, i: nat, again: seq<State>, j: nat)
    requires WellNamed(cfg.root) && Consistent(b)
    requires IsRunOf(b, cfg, run) && i < |run| && IsDone(run[i], RootPath(cfg))
    requires IsRunOf(b, WithLimit(cfg, limit), again) && j < |again| && IsDone(again[j], RootPath(cfg))
    ensures SameRecord(run[i].log, again[j].log)
    ensures SameLists(run[i].log, again[j].log) && SameCounters(run[i].log, again[j].log)
  {
    RunIsControlled(cfg, run, i);
    RunIsLogged(cfg, run, i);
    RunIsControlled(WithLimit(cfg, limit), again, j);
    RunIsLogged(WithLimit(cfg, limit), again, j);
    SameStart(cfg, limit);
    forall n
      ensures Projection(run[i].log.events, n) == Projection(again[j].log.events, n)
    {
      EventsAreTheSame(b, cfg, limit, run, i, again, j, n);
    }
    RecordGivesLists(run[i].log, again[j].log);
    RecordGivesCounters(cfg, run[i], WithLimit(cfg, limit), again[j]);
  }

  // ---------------------------------------------------------------------------------------------
  // There are such runs
  // ---------------------------------------------------------------------------------------------

  /** What the behaviour makes of a step. */
  function Obeying(b: Behaviour, cfg: Config, step: Step): Step
    requires step.RunSetupOf? ==> FixtureAt(cfg, step.path).Some?
  {
    match step
    case RunSetupOf(p, _) =>
      if b.late(p) then TimeOutSetup(p) else RunSetupOf(p, b.code(FixtureAt(cfg, p).value))
    case RunBody(p, _) => RunBody(p, b.body(p))
    case RunTeardown(p, order, ok, _) => if b.sweep(p) then step else RunTeardown(p, order, false, false)
    case _ => step
  }

  lemma ObeyingIsEnabled(b: Behaviour, cfg: Config, s: State, step: Step)
    requires Consistent(b) && Enabled(cfg, s, step) && Progress.Passing(step)
    ensures step.RunSetupOf? ==> FixtureAt(cfg, step.path).Some?
    ensures Enabled(cfg, s, Obeying(b, cfg, step)) && Obeys(b, cfg, Obeying(b, cfg, step))
  {
  }

  lemma RunOfExtends(b: Behaviour, cfg: Config, run: seq<State>, i: nat, step: Step)
    requires IsRunOf(b, cfg, run) && i + 1 == |run| && Enabled(cfg, run[i], step) && Obeys(b, cfg, step)
    ensures IsRunOf(b, cfg, run + [Apply(cfg, run[i], step)])
  {
    var t := Apply(cfg, run[i], step);
    var more := run + [t];
    RunExtends(cfg, run, i, t);
    forall j: nat | j + 1 < |more|
      ensures NextObeys(b, cfg, more, j)
    {
      if j < i {
        assert NextObeys(b, cfg, run, j);
      }
    }
  }

  /** However user code behaves, some run of it goes on until it has panicked or finished the root. */
  lemma {:induction false} RunOfCanFinish(b: Behaviour, cfg: Config, run: seq<State>, i: nat)
    returns (full: seq<State>, n: nat)
    requires WellNamed(cfg.root) && Consistent(b) && IsRunOf(b, cfg, run) && i + 1 == |run|
    requires StartLog(cfg).included != {}
    ensures IsRunOf(b, cfg, full) && run <= full && n + 1 == |full|
    ensures full[n].panicked || IsDone(full[n], RootPath(cfg))
    decreases Termination.Distance(cfg, run[i])
  {
    RunIsControlled(cfg, run, i);
    Termination.DistanceIsNat(cfg, run[i]);
    if run[i].panicked || IsDone(run[i], RootPath(cfg)) {
      full, n := run, i;
    } else {
      Completion.IncludedStays(cfg, run, i);
      Progress.SomeStepCanBeTaken(cfg, run[i]);
      var passing :| Enabled(cfg, run[i], passing) && Progress.Passing(passing);
      ObeyingIsEnabled(b, cfg, run[i], passing);
      var step := Obeying(b, cfg, passing);
      var t := Apply(cfg, run[i], step);
      RunOfExtends(b, cfg, run, i, step);
      Termination.StepComesCloser(cfg, run[i], step);
      RunIsControlled(cfg, run + [t], i + 1);
      Termination.DistanceIsNat(cfg, t);
      full, n := RunOfCanFinish(b, cfg, run + [t], i + 1);
    }
  }
}
