/**
 Every run can be finished; what happens when all setups pass; and exactly when no assertion of `record` can fail.
 */
module Completion {
  import opened Paths
  import opened Tree
  import Filters
  import opened Selection
  import opened EventLog
  import opened Engine
  import opened Control
  import Scheduling
  import opened Lifecycle
  import opened Guards
  import Conservation
  import Termination
  import Progress

  // ---------------------------------------------------------------------------------------------
  // The hypotheses about the filter hold of every compiled filter
  // ---------------------------------------------------------------------------------------------

  /** What `run` includes, `run_group` reaches. */
  lemma CompiledIsReached(filters: seq<string>, cfg: Config)
    requires WellNamed(cfg.root) && cfg.filter == Filters.Compile(filters, cfg.root)
    ensures Conservation.SelectedAreReached(cfg)
  {
    forall c, k | TestAt(cfg.root, c).Some? && 2 <= k < |c| && Selects(cfg.filter, c)
      ensures Enters(cfg.filter, c[..k])
    {
      SelectedIsReached(filters, cfg.root, c, k);
    }
  }

  /** A group with a test in its subtree has one below its place. */
  lemma ListedTestIsBelow(root: Group, q: Path) returns (c: Path)
    requires WellNamed(root) && GroupAt(root, q).Some? && TestPaths(GroupAt(root, q).value) != []
    ensures TestAt(root, c).Some? && q < c
  {
    var r := TestPaths(GroupAt(root, q).value)[0];
    TestBelow(root, q, GroupAt(root, q).value, r);
    c := q + r;
  }

  lemma BelowIsListed(root: Group, q: Path, c: Path)
    requires WellNamed(root) && GroupAt(root, q).Some? && TestAt(root, c).Some? && q < c
    ensures TestPaths(GroupAt(root, q).value) != []
  {
    var r := c[|q|..];
    assert c == q + r;
    TestBelow(root, q, GroupAt(root, q).value, r);
  }

  /** Every subgroup entered has a selected test iff the compiled map is not empty or every subgroup has a test. */
  lemma CompiledHasSelectedIff(filters: seq<string>, cfg: Config)
    requires WellNamed(cfg.root) && cfg.filter == Filters.Compile(filters, cfg.root)
    ensures GroupsHaveSelected(cfg) <==> cfg.filter.tests != map[] || SubgroupsHaveTests(cfg.root)
  {
    EmptyIffNothingPicked(filters, cfg.root);
    if cfg.filter.tests != map[] {
      forall q | GroupAt(cfg.root, q).Some? && |q| >= 2 && Enters(cfg.filter, q)
        ensures HasSelected(cfg, q)
      {
        var p := EnteredHasSelected(filters, cfg.root, q);
      }
    } else {
      forall q | GroupAt(cfg.root, q).Some? && |q| >= 2
        ensures HasSelected(cfg, q) <==> TestPaths(GroupAt(cfg.root, q).value) != []
      {
        UnfilteredHasSelectedIff(cfg, q);
      }
    }
  }

  lemma UnfilteredHasSelectedIff(cfg: Config, q: Path)
    requires WellNamed(cfg.root) && cfg.filter.tests == map[] && GroupAt(cfg.root, q).Some?
    ensures HasSelected(cfg, q) <==> TestPaths(GroupAt(cfg.root, q).value) != []
  {
    if TestPaths(GroupAt(cfg.root, q).value) != [] {
      var c := ListedTestIsBelow(cfg.root, q);
      assert Selects(cfg.filter, c);
    }
    if c :| TestAt(cfg.root, c).Some? && q < c && Selects(cfg.filter, c) {
      BelowIsListed(cfg.root, q, c);
    }
  }

  // ---------------------------------------------------------------------------------------------
  // Runs in which every setup passes
  // ---------------------------------------------------------------------------------------------

  /** The setup of the node passed, or may still. */
  predicate Good(pc: Pc) {
    match pc
    case SetUpDone(result) => result.Passed?
    case Closing(v) => v.Finished?
    case TearingDown(v) => v.Finished?
    case TornDown(v, _) => v.Finished?
    case Done(v, _) => v.Finished?
    case _ => true
  }

  ghost predicate AllGood(s: State) {
    forall p :: p in s.nodes ==> Good(s.nodes[p].pc)
  }

  lemma PassingKeepsAllGood(cfg: Config, s: State, step: Step)
    requires Enabled(cfg, s, step) && Progress.Passing(step) && AllGood(s)
    ensures AllGood(Apply(cfg, s, step))
  {
    var t := Apply(cfg, s, step);
    if IsLaunch(step) {
      StepLaunches(cfg, s, step);
    } else {
      StepAdvances(cfg, s, step);
      PassingMoverIsGood(cfg, s, step);
    }
  }

  lemma PassingMoverIsGood(cfg: Config, s: State, step: Step)
    requires Enabled(cfg, s, step) && Progress.Passing(step) && AllGood(s) && !IsLaunch(step) && step.path in s.nodes
    ensures var t := Apply(cfg, s, step);
            step.path in t.nodes && Good(t.nodes[step.path].pc)
  {
    assert Good(s.nodes[step.path].pc);
  }

  /** The states of a run share one set of included tests. */
  lemma IncludedStays(cfg: Config, run: seq<State>, i: nat)
    requires WellNamed(cfg.root) && IsRun(cfg, run) && i < |run|
    ensures run[i].log.included == StartLog(cfg).included
  {
    RunIsLogged(cfg, run, i);
  }

  /** From any state of any run, whatever failed before, the run can be finished. If every setup so far passed, all
      the others may pass too. */
  lemma {:induction false} RunCanFinish(cfg: Config, run: seq<State>, i: nat) returns (full: seq<State>, n: nat)
    requires WellNamed(cfg.root) && IsRun(cfg, run) && i + 1 == |run| && StartLog(cfg).included != {}
    ensures IsRun(cfg, full) && run <= full && n + 1 == |full|
    ensures full[n].panicked || IsDone(full[n], RootPath(cfg))
    ensures AllGood(run[i]) ==> AllGood(full[n])
    decreases Termination.Distance(cfg, run[i])
  {
    RunIsControlled(cfg, run, i);
    Termination.DistanceIsNat(cfg, run[i]);
    if run[i].panicked || IsDone(run[i], RootPath(cfg)) {
      full, n := run, i;
    } else {
      IncludedStays(cfg, run, i);
      var t := NextGood(cfg, run[i]);
      RunExtends(cfg, run, i, t);
      RunIsControlled(cfg, run + [t], i + 1);
      Termination.DistanceIsNat(cfg, t);
      full, n := RunCanFinish(cfg, run + [t], i + 1);
    }
  }

  lemma NextGood(cfg: Config, s: State) returns (t: State)
    requires WellNamed(cfg.root) && Controlled(cfg, s)
    requires !s.panicked && s.log.included != {} && !IsDone(s, RootPath(cfg))
    ensures Next(cfg, s, t) && Termination.Distance(cfg, t) < Termination.Distance(cfg, s)
    ensures AllGood(s) ==> AllGood(t)
  {
    Progress.SomeStepCanBeTaken(cfg, s);
    var step :| Enabled(cfg, s, step) && Progress.Passing(step);
    t := Apply(cfg, s, step);
    Termination.StepComesCloser(cfg, s, step);
    if AllGood(s) {
      PassingKeepsAllGood(cfg, s, step);
    }
  }

  // ---------------------------------------------------------------------------------------------
  // When all setups passed
  // ---------------------------------------------------------------------------------------------

  /** The events of a test that was executed: once, between its setup and its teardown. */
  predicate IsExecution(w: seq<Event>) {
    && |w| == 6
    && w[0] == SetupLaunched && w[1] == SetupPassed
    && w[2] == TestLaunched && w[3] in {TestPassed, TestFailed}
    && w[4] == TeardownLaunched && w[5] in {TeardownPassed, TeardownFailed}
  }

  lemma DoneTestIsExecuted(pc: Pc)
    requires pc.Done? && WasOpened(pc)
    ensures IsExecution(Word(OfTest, pc))
  {
  }

  lemma DoneIsOpened(s: State, p: Path)
    requires AllGood(s) && IsDone(s, p)
    ensures WasOpened(s.nodes[p].pc)
  {
  }

  // ---------------------------------------------------------------------------------------------
  // Which tests are executed
  // ---------------------------------------------------------------------------------------------

  /** The setups of the groups above a place and of the place itself passed, as the log tells it. */
  ghost predicate SetupsPassedTo(log: Log, c: Path) {
    forall k :: 1 <= k <= |c| ==> SetupPassed in Projection(log.events, Join(c[..k]))
  }

  lemma PassedIsOpened(task: Task, pc: Pc)
    requires task == OfGroup ==> !InBody(pc)
    ensures SetupPassed in Word(task, pc) <==> WasOpened(pc)
    ensures TestLaunched in Word(task, pc) ==> WasOpened(pc) && task == OfTest
  {
    if WasOpened(pc) {
      assert Word(task, pc)[1] == SetupPassed;
    }
  }

  /** A place with an event in the log is that of a node, whose word it belongs to. */
  lemma RecordedIsLaunched(cfg: Config, s: State, p: Path, e: Event)
    requires WellNamed(cfg.root) && Controlled(cfg, s) && Logged(cfg, s)
    requires p != [] && ValidPath(p) && e in Projection(s.log.events, Join(p))
    ensures p in s.nodes && e in WordOf(s, p) && Placed(cfg, p, s.nodes[p])
  {
    if p !in s.nodes {
      UnlaunchedIsSilent(cfg, s, p);
    }
  }

  lemma OpenedIsRecorded(cfg: Config, s: State, p: Path)
    requires WellNamed(cfg.root) && Controlled(cfg, s) && Logged(cfg, s)
    requires p != [] && ValidPath(p)
    ensures SetupPassed in Projection(s.log.events, Join(p)) <==> p in s.nodes && WasOpened(s.nodes[p].pc)
  {
    if SetupPassed in Projection(s.log.events, Join(p)) {
      RecordedIsLaunched(cfg, s, p, SetupPassed);
    }
    if p in s.nodes {
      assert Placed(cfg, p, s.nodes[p]);
      PassedIsOpened(s.nodes[p].task, s.nodes[p].pc);
    }
  }

  lemma SetupOnTheWay(cfg: Config, s: State, c: Path, k: nat)
    requires WellNamed(cfg.root) && Controlled(cfg, s) && Logged(cfg, s)
    requires ValidPath(c) && c in s.nodes && WasOpened(s.nodes[c].pc) && 1 <= k <= |c|
    ensures SetupPassed in Projection(s.log.events, Join(c[..k]))
  {
    if k < |c| {
      Conservation.AncestorsWereOpened(cfg, s, c, k);
    } else {
      assert c[..k] == c;
    }
    OpenedIsRecorded(cfg, s, c[..k]);
  }

  /** Where a test was launched as a body, every setup on the way passed. */
  lemma ExecutedHasSetups(cfg: Config, s: State, c: Path)
    requires WellNamed(cfg.root) && Controlled(cfg, s) && Logged(cfg, s)
    requires TestAt(cfg.root, c).Some? && TestLaunched in Projection(s.log.events, Join(c))
    ensures SetupsPassedTo(s.log, c)
  {
    TestAtFacts(cfg.root, c);
    RecordedIsLaunched(cfg, s, c, TestLaunched);
    PassedIsOpened(s.nodes[c].task, s.nodes[c].pc);
    forall k | 1 <= k <= |c|
      ensures SetupPassed in Projection(s.log.events, Join(c[..k]))
    {
      SetupOnTheWay(cfg, s, c, k);
    }
  }

  /** Where every setup on the way to a selected test passed and the root is done, the test was executed. */
  lemma SetupsGiveExecution(cfg: Config, s: State, c: Path)
    requires WellNamed(cfg.root) && Conservation.SelectedAreReached(cfg) && Controlled(cfg, s) && Logged(cfg, s)
    requires IsDone(s, RootPath(cfg)) && TestAt(cfg.root, c).Some? && Selects(cfg.filter, c)
    requires SetupsPassedTo(s.log, c)
    ensures IsExecution(Projection(s.log.events, Join(c)))
  {
    TestAtFacts(cfg.root, c);
    var p := Conservation.SettlingNode(cfg, s, c);
    Scheduling.PlacedFacts(cfg, s, p);
    assert p == c[..|p|];
    OpenedIsRecorded(cfg, s, p);
    assert WasOpened(s.nodes[p].pc);
    DoneTestIsExecuted(s.nodes[p].pc);
  }

  /** In every finished run, whatever failed elsewhere: an included test was executed, exactly once, iff its own setup
      and those of all groups above it passed; otherwise its body was never launched. */
  lemma ExecutedIffSetupsPassed(cfg: Config, run: seq<State>, i: nat, c: Path)
    requires WellNamed(cfg.root) && Conservation.SelectedAreReached(cfg) && IsRun(cfg, run) && i < |run|
    requires IsDone(run[i], RootPath(cfg)) && TestAt(cfg.root, c).Some? && Selects(cfg.filter, c)
    ensures IsExecution(Projection(run[i].log.events, Join(c))) <==> SetupsPassedTo(run[i].log, c)
    ensures !SetupsPassedTo(run[i].log, c) ==> TestLaunched !in Projection(run[i].log.events, Join(c))
  {
    RunIsControlled(cfg, run, i);
    RunIsLogged(cfg, run, i);
    if SetupsPassedTo(run[i].log, c) {
      SetupsGiveExecution(cfg, run[i], c);
    }
    if TestLaunched in Projection(run[i].log.events, Join(c)) {
      ExecutedHasSetups(cfg, run[i], c);
    }
  }

  // ---------------------------------------------------------------------------------------------
  // Which of the others count as skipped, and which as skipped by a fixture error
  // ---------------------------------------------------------------------------------------------

  /** The first setup on the way to `c` that is not known to have passed is that of the place of length `k`. */
  ghost predicate StopsAt(log: Log, c: Path, k: nat)
    requires 1 <= k <= |c|
  {
    && (forall j :: 1 <= j < k ==> SetupPassed in Projection(log.events, Join(c[..j])))
    && SetupPassed !in Projection(log.events, Join(c[..k]))
  }

  function StopEvent(task: Task, broke: bool): Event {
    if broke then SetupFailed(task) else SetupSkipped(task)
  }

  /** That setup was recorded as failed or as skipped, of the test itself or of a group above it. */
  ghost predicate Stopped(log: Log, c: Path, broke: bool) {
    exists k :: 1 <= k <= |c| && StopsAt(log, c, k) &&
      StopEvent(if k == |c| then OfTest else OfGroup, broke) in Projection(log.events, Join(c[..k]))
  }

  function StoppedNames(log: Log, broke: bool): set<string> {
    if broke then SkippedByFixtureErrNames(log) else SkippedNames(log)
  }

  lemma StopIsNotOpened(task: Task, pc: Pc, e: Event)
    requires e in Word(task, pc) && (e.SetupSkipped? || e.SetupFailed?)
    ensures !WasOpened(pc) && e.task == task
  {
  }

  /** A node at or above `c` with such an event is where the way to `c` stops. */
  lemma StopsAtNode(cfg: Config, s: State, c: Path, p: Path, e: Event)
    requires WellNamed(cfg.root) && Controlled(cfg, s) && Logged(cfg, s) && ValidPath(c)
    requires p in s.nodes && p != [] && p <= c && e in WordOf(s, p) && (e.SetupSkipped? || e.SetupFailed?)
    ensures StopsAt(s.log, c, |p|) && e.task == s.nodes[p].task && c[..|p|] == p
  {
    assert p == c[..|p|];
    StopIsNotOpened(s.nodes[p].task, s.nodes[p].pc, e);
    OpenedIsRecorded(cfg, s, p);
    forall j | 1 <= j < |p|
      ensures SetupPassed in Projection(s.log.events, Join(c[..j]))
    {
      assert p[..j] == c[..j];
      Conservation.AncestorsWereOpened(cfg, s, p, j);
      OpenedIsRecorded(cfg, s, c[..j]);
    }
  }

  lemma CountedIsStopped(cfg: Config, s: State, c: Path, broke: bool)
    requires WellNamed(cfg.root) && Controlled(cfg, s) && Logged(cfg, s) && TestAt(cfg.root, c).Some?
    requires Join(c) in StoppedNames(s.log, broke)
    ensures Stopped(s.log, c, broke)
  {
    TestAtFacts(cfg.root, c);
    var own := NamesWith(s.log.events, {StopEvent(OfTest, broke)});
    var task := if Join(c) in own then OfTest else OfGroup;
    var i :| 0 <= i < |s.log.events| && s.log.events[i].event == StopEvent(task, broke) &&
      if task == OfTest then s.log.events[i].name == Join(c) else Join(c) in Included(s.log, s.log.events[i].name);
    var p := Conservation.EntryHasNode(cfg, s, i);
    Scheduling.PlacedFacts(cfg, s, p);
    StopIsNotOpened(s.nodes[p].task, s.nodes[p].pc, StopEvent(task, broke));
    if task == OfTest {
      JoinInjective(p, c);
    } else {
      IncludedBelow(cfg, s.log, p, c);
      assert Placed(cfg, p, s.nodes[p]);
      assert p != c;
    }
    StopsAtNode(cfg, s, c, p, StopEvent(task, broke));
    assert |p| == |c| ==> p == c;
  }

  /** An event of the test, or of a group above it, that stops its way counts it. */
  lemma StopIsCounted(cfg: Config, log: Log, c: Path, k: nat, broke: bool)
    requires WellNamed(cfg.root) && log.included == StartLog(cfg).included
    requires TestAt(cfg.root, c).Some? && Selects(cfg.filter, c) && 1 <= k <= |c|
    requires StopEvent(if k == |c| then OfTest else OfGroup, broke) in Projection(log.events, Join(c[..k]))
    ensures Join(c) in StoppedNames(log, broke)
  {
    TestAtFacts(cfg.root, c);
    if k == |c| {
      assert c[..k] == c;
      NamedIsProjected(log.events, Join(c), StopEvent(OfTest, broke));
    } else {
      IncludedBelow(cfg, log, c[..k], c);
      BelowIsProjected(log, Join(c[..k]), StopEvent(OfGroup, broke), Join(c));
    }
  }

  /** In every reachable state, whatever failed elsewhere: an included test counts as skipped iff the first setup on
      its way that did not pass was skipped, and as skipped by a fixture error iff that setup failed. */
  lemma CountedIffStopped(cfg: Config, run: seq<State>, i: nat, c: Path)
    requires WellNamed(cfg.root) && IsRun(cfg, run) && i < |run|
    requires TestAt(cfg.root, c).Some? && Selects(cfg.filter, c)
    ensures Join(c) in SkippedNames(run[i].log) <==> Stopped(run[i].log, c, false)
    ensures Join(c) in SkippedByFixtureErrNames(run[i].log) <==> Stopped(run[i].log, c, true)
  {
    RunIsControlled(cfg, run, i);
    RunIsLogged(cfg, run, i);
    forall broke
      ensures Join(c) in StoppedNames(run[i].log, broke) <==> Stopped(run[i].log, c, broke)
    {
      if Stopped(run[i].log, c, broke) {
        var k :| 1 <= k <= |c| && StopsAt(run[i].log, c, k) &&
          StopEvent(if k == |c| then OfTest else OfGroup, broke) in Projection(run[i].log.events, Join(c[..k]));
        StopIsCounted(cfg, run[i].log, c, k, broke);
      }
      if Join(c) in StoppedNames(run[i].log, broke) {
        CountedIsStopped(cfg, run[i], c, broke);
      }
    }
    assert StoppedNames(run[i].log, false) == SkippedNames(run[i].log);
    assert StoppedNames(run[i].log, true) == SkippedByFixtureErrNames(run[i].log);
  }

  // ---------------------------------------------------------------------------------------------
  // When the guard can fail
  // ---------------------------------------------------------------------------------------------

  lemma WordStarts(task: Task, pc: Pc)
    ensures SetupLaunched in Word(task, pc)
  {
    assert Word(task, pc)[0] == SetupLaunched;
  }

  /** What is recorded for a launched node was admitted. */
  lemma LaunchedHasIncluded(cfg: Config, s: State, q: Path) returns (x: string)
    requires Logged(cfg, s) && Guarded(s.log) && q in s.nodes
    ensures x in Included(s.log, Join(q))
  {
    WordStarts(s.nodes[q].task, s.nodes[q].pc);
    x := RecordedHasIncluded(s.log, Join(q), SetupLaunched);
  }

  lemma IncludedGivesSelected(cfg: Config, log: Log, q: Path, x: string)
    requires WellNamed(cfg.root) && log.included == StartLog(cfg).included
    requires GroupAt(cfg.root, q).Some? && x in Included(log, Join(q))
    ensures HasSelected(cfg, q)
  {
    var c := IncludedIsPlace(cfg, x);
    GroupAtFacts(cfg.root, q);
    TestAtFacts(cfg.root, c);
    IncludedBelow(cfg, log, q, c);
    PrefixIsSameOrProper(q, c);
  }

  /** A group that was launched without a panic has a selected test below it. */
  lemma LaunchedHasSelected(cfg: Config, s: State, q: Path)
    requires WellNamed(cfg.root) && Logged(cfg, s) && Guarded(s.log)
    requires q in s.nodes && Placed(cfg, q, s.nodes[q]) && s.nodes[q].task == OfGroup
    ensures HasSelected(cfg, q)
  {
    var x := LaunchedHasIncluded(cfg, s, q);
    IncludedGivesSelected(cfg, s.log, q, x);
  }

  /** In a finished run whose setups all passed, every group that can be reached was launched. */
  lemma {:induction false} EachEnteredIsDone(cfg: Config, s: State, q: Path)
    requires WellNamed(cfg.root) && Controlled(cfg, s) && IsDone(s, RootPath(cfg)) && AllGood(s)
    requires GroupAt(cfg.root, q).Some?
    requires forall p :: |p| >= 2 && GroupAt(cfg.root, p).Some? ==> Enters(cfg.filter, p)
    ensures IsDone(s, q) && s.nodes[q].task == OfGroup
    decreases |q|
  {
    GroupAtFacts(cfg.root, q);
    if |q| == 1 {
      assert q == RootPath(cfg);
    } else {
      EachEnteredIsDone(cfg, s, Parent(q));
      DoneIsOpened(s, Parent(q));
      Conservation.ChildOfDoneIsDone(cfg, s, Parent(q), q);
    }
    Conservation.DoneGroupIsGroup(cfg, s, q);
  }

  /** With an empty map, if some subgroup has no test, then some run ends in a panic. */
  lemma EmptySubgroupPanics(filters: seq<string>, cfg: Config, q: Path) returns (run: seq<State>, n: nat)
    requires WellNamed(cfg.root) && cfg.filter == Filters.Compile(filters, cfg.root) && StartLog(cfg).included != {}
    requires cfg.filter.tests == map[]
    requires |q| >= 2 && GroupAt(cfg.root, q).Some? && TestPaths(GroupAt(cfg.root, q).value) == []
    ensures IsRun(cfg, run) && n < |run| && run[n].panicked
  {
    EmptyIffNothingPicked(filters, cfg.root);
    run, n := RunCanFinish(cfg, [Start(cfg)], 0);
    if !run[n].panicked {
      RunIsControlled(cfg, run, n);
      RunIsLogged(cfg, run, n);
      RunIsGuarded(cfg, run, n);
      EachEnteredIsDone(cfg, run[n], q);
      LaunchedHasSelected(cfg, run[n], q);
      UnfilteredHasSelectedIff(cfg, q);
    }
  }

  ghost predicate NeverPanics(cfg: Config) {
    forall run: seq<State>, i: nat :: IsRun(cfg, run) && i < |run| ==> !run[i].panicked
  }

  /** For any list of filters, once something is included: no run fails an assertion of `record` iff some filter hits
      something or every subgroup has a test. */
  lemma NeverPanicsIff(filters: seq<string>, cfg: Config)
    requires WellNamed(cfg.root) && cfg.filter == Filters.Compile(filters, cfg.root) && StartLog(cfg).included != {}
    ensures NeverPanics(cfg) <==> cfg.filter.tests != map[] || SubgroupsHaveTests(cfg.root)
  {
    CompiledHasSelectedIff(filters, cfg);
    if GroupsHaveSelected(cfg) {
      forall run: seq<State>, i: nat | IsRun(cfg, run) && i < |run|
        ensures !run[i].panicked
      {
        RunDoesNotPanic(cfg, run, i);
      }
    } else {
      var q :| |q| >= 2 && GroupAt(cfg.root, q).Some? && TestPaths(GroupAt(cfg.root, q).value) == [];
      var run, n := EmptySubgroupPanics(filters, cfg, q);
    }
  }
}
