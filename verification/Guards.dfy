/**
 What is included, and why the guard of `record` holds.
 */
module Guards {
  import opened Common
  import opened Paths
  import opened Tree
  import opened Selection
  import opened EventLog
  import opened Engine
  import opened Control
  import opened Lifecycle

  // ---------------------------------------------------------------------------------------------
  // The included tests
  // ---------------------------------------------------------------------------------------------

  /** `run` asks the filter about the split name exactly what `run_group` asks about the place. */
  lemma IncludesIsSelects(cfg: Config, p: Path)
    requires WellNamed(cfg.root) && TestAt(cfg.root, p).Some?
    ensures p != [] && p[1..] != [] && (Includes(cfg, Join(p[1..])) <==> Selects(cfg.filter, p))
  {
    PlaceIsListed(cfg.root, p);
    TestAtFacts(cfg.root, p);
    assert [cfg.root.name] + Parent(p[1..]) == Parent(p);
  }

  /** A test is included iff the filter selects it. */
  lemma IncludedIffSelected(cfg: Config, p: Path)
    requires WellNamed(cfg.root) && TestAt(cfg.root, p).Some?
    ensures p != [] && (Join(p) in StartLog(cfg).included <==> Selects(cfg.filter, p))
    ensures Join(p) in StartLog(cfg).defined
  {
    PlaceIsListed(cfg.root, p);
    IncludesIsSelects(cfg, p);
    assert FullName(cfg, Join(p[1..])) == Join(p);
    if Join(p) in StartLog(cfg).included {
      var q := IncludedIsPlace(cfg, Join(p));
      TestAtFacts(cfg.root, p);
      TestAtFacts(cfg.root, q);
      JoinInjective(p, q);
    }
  }

  /** Defined are the tests of the tree, whatever the filter. */
  lemma DefinedIsPlace(cfg: Config, x: string)
    requires WellNamed(cfg.root)
    ensures x in StartLog(cfg).defined <==> exists p :: TestAt(cfg.root, p).Some? && p != [] && x == Join(p)
  {
    if x in StartLog(cfg).defined {
      var n :| n in TestNames(cfg.root) && x == FullName(cfg, n);
      var p := ListedIsPlace(cfg.root, n);
      PlaceIsListed(cfg.root, p);
    }
    if p :| TestAt(cfg.root, p).Some? && p != [] && x == Join(p) {
      IncludedIffSelected(cfg, p);
    }
  }

  /** Only selected tests are included. */
  lemma IncludedIsPlace(cfg: Config, x: string) returns (p: Path)
    requires WellNamed(cfg.root) && x in StartLog(cfg).included
    ensures TestAt(cfg.root, p).Some? && p != [] && x == Join(p) && Selects(cfg.filter, p)
  {
    var n :| n in TestNames(cfg.root) && Includes(cfg, n) && x == FullName(cfg, n);
    p := ListedIsPlace(cfg.root, n);
    PlaceIsListed(cfg.root, p);
    IncludesIsSelects(cfg, p);
  }

  /** `iter_included` of a node's path string finds exactly the selected tests at or below the node. */
  lemma IncludedBelow(cfg: Config, log: Log, p: Path, c: Path)
    requires WellNamed(cfg.root) && log.included == StartLog(cfg).included
    requires p != [] && ValidPath(p) && TestAt(cfg.root, c).Some?
    ensures c != [] && (Join(c) in Included(log, Join(p)) <==> p <= c && Selects(cfg.filter, c))
  {
    TestAtFacts(cfg.root, c);
    IncludedIffSelected(cfg, c);
    SentinelPrefix(p, c);
    if Join(c) == Join(p) {
      JoinInjective(c, p);
    }
    assert p <= c <==> p < c || p == c;
  }

  // ---------------------------------------------------------------------------------------------
  // The guard
  // ---------------------------------------------------------------------------------------------

  /** Every subgroup that the filter lets the engine enter has a selected test below it. */
  ghost predicate GroupsHaveSelected(cfg: Config) {
    forall q :: GroupAt(cfg.root, q).Some? && |q| >= 2 && Enters(cfg.filter, q) ==> HasSelected(cfg, q)
  }

  ghost predicate HasSelected(cfg: Config, q: Path) {
    exists c :: TestAt(cfg.root, c).Some? && q < c && Selects(cfg.filter, c)
  }

  /** A node whose place has a selected test may record any event of its kind. */
  lemma GuardHolds(cfg: Config, log: Log, p: Path, task: Task, pc: Pc, flag: bool, e: Event)
    requires WellNamed(cfg.root) && GroupsHaveSelected(cfg)
    requires log.included == StartLog(cfg).included && log.included != {}
    requires Placed(cfg, p, Node(task, pc, flag))
    requires e != TestIncluded && (task == OfTest || (!e.TestLaunched? && !e.TestPassed? && !e.TestFailed?))
    ensures Admits(log, Join(p), e)
  {
    if task == OfTest {
      IncludedIffSelected(cfg, p);
      assert Join(p) in Included(log, Join(p));
    } else {
      GroupAtFacts(cfg.root, p);
      var c: Path;
      if p == RootPath(cfg) {
        var x :| x in log.included;
        c := IncludedIsPlace(cfg, x);
        TestAtFacts(cfg.root, c);
      } else {
        assert HasSelected(cfg, p);
        c :| TestAt(cfg.root, c).Some? && p < c && Selects(cfg.filter, c);
      }
      IncludedBelow(cfg, log, p, c);
      assert Join(c) in Included(log, Join(p));
    }
  }

  /** A step that is not a launch panics only where the guard fails for its event. */
  lemma PanicsByGuard(cfg: Config, s: State, step: Step)
    requires Enabled(cfg, s, step) && !IsLaunch(step) && step.path in s.nodes
    ensures Apply(cfg, s, step).panicked ==>
              EventOf(s, step).Some? && !Admits(s.log, Join(step.path), EventOf(s, step).value)
    ensures EventOf(s, step).Some? ==>
              var e := EventOf(s, step).value;
              && e != TestIncluded
              && (e.TestLaunched? || e.TestPassed? || e.TestFailed? ==>
                    s.nodes[step.path].task == OfTest || InBody(s.nodes[step.path].pc))
  {
  }

  /** No step panics. */
  lemma StepDoesNotPanic(cfg: Config, s: State, step: Step)
    requires WellNamed(cfg.root) && GroupsHaveSelected(cfg)
    requires Controlled(cfg, s) && Logged(cfg, s) && s.log.included != {} && Enabled(cfg, s, step)
    ensures !Apply(cfg, s, step).panicked
  {
    if IsLaunch(step) {
      LaunchDoesNotPanic(cfg, s, step);
    } else {
      StepAdvances(cfg, s, step);
      PanicsByGuard(cfg, s, step);
      if EventOf(s, step).Some? {
        EventIsAdmitted(cfg, s, step.path, EventOf(s, step).value);
      }
    }
  }

  lemma EventIsAdmitted(cfg: Config, s: State, p: Path, e: Event)
    requires WellNamed(cfg.root) && GroupsHaveSelected(cfg)
    requires Controlled(cfg, s) && Logged(cfg, s) && s.log.included != {} && p in s.nodes
    requires e != TestIncluded
    requires e.TestLaunched? || e.TestPassed? || e.TestFailed? ==> s.nodes[p].task == OfTest || InBody(s.nodes[p].pc)
    ensures Admits(s.log, Join(p), e)
  {
    var node := s.nodes[p];
    assert Placed(cfg, p, node);
    GuardHolds(cfg, s.log, p, node.task, node.pc, node.concurrent, e);
  }

  lemma LaunchDoesNotPanic(cfg: Config, s: State, step: Step)
    requires WellNamed(cfg.root) && GroupsHaveSelected(cfg)
    requires Logged(cfg, s) && s.log.included != {} && Enabled(cfg, s, step) && IsLaunch(step)
    ensures !Apply(cfg, s, step).panicked
  {
    var p := Mover(cfg, step);
    match step
    case LaunchRoot =>
      assert GroupAt(cfg.root, p) == Some(cfg.root);
      GuardHolds(cfg, s.log, p, OfGroup, Starting, true, SetupLaunched);
    case LaunchGroup(q, i) =>
      GroupAtFacts(cfg.root, q);
      GroupChildAt(cfg.root, q, GroupAt(cfg.root, q).value, i);
      GuardHolds(cfg, s.log, p, OfGroup, Starting, true, SetupLaunched);
    case LaunchTest(q, i) =>
      GroupAtFacts(cfg.root, q);
      TestChildAt(cfg.root, q, GroupAt(cfg.root, q).value, i);
      GuardHolds(cfg, s.log, p, OfTest, Starting, true, SetupLaunched);
    case _ =>
  }

  lemma NoStepWhenNothingIncluded(cfg: Config)
    requires StartLog(cfg).included == {}
    ensures forall t :: !Next(cfg, Start(cfg), t)
  {
  }

  /** `run` does not run the root group when nothing is included. */
  lemma NothingIncludedNothingRuns(cfg: Config, run: seq<State>)
    requires IsRun(cfg, run) && StartLog(cfg).included == {}
    ensures |run| == 1
  {
    assert |run| > 1 ==> Steps(cfg, run, 0);
    NoStepWhenNothingIncluded(cfg);
  }

  lemma NextDoesNotPanic(cfg: Config, run: seq<State>, i: nat, j: nat)
    requires WellNamed(cfg.root) && GroupsHaveSelected(cfg) && IsRun(cfg, run) && i + 1 == j < |run|
    ensures !run[j].panicked
  {
    if StartLog(cfg).included == {} {
      NothingIncludedNothingRuns(cfg, run);
    } else {
      RunIsLogged(cfg, run, i);
      RunIsControlled(cfg, run, i);
      var step := StepAt(cfg, run, i, j);
      StepDoesNotPanic(cfg, run[i], step);
    }
  }

  /** No assertion of `record` fails in any run, when every subgroup the engine may enter has a selected test. */
  lemma RunDoesNotPanic(cfg: Config, run: seq<State>, i: nat)
    requires WellNamed(cfg.root) && GroupsHaveSelected(cfg) && IsRun(cfg, run) && i < |run|
    ensures !run[i].panicked
  {
    if i > 0 {
      var k: nat :| k + 1 == i;
      NextDoesNotPanic(cfg, run, k, i);
    }
  }

  // ---------------------------------------------------------------------------------------------
  // Success
  // ---------------------------------------------------------------------------------------------

  /** A step appends at most one entry, which the guard admits. */
  lemma StepKeepsGuarded(cfg: Config, s: State, step: Step)
    requires Enabled(cfg, s, step) && Guarded(s.log)
    ensures Guarded(Apply(cfg, s, step).log)
  {
    var t := Apply(cfg, s, step);
    if t.log != s.log {
      var name, e := RecordedBy(cfg, s, step);
      RecordKeepsGuarded(s.log, name, e);
    }
  }

  lemma RecordedBy(cfg: Config, s: State, step: Step) returns (name: string, e: Event)
    requires Enabled(cfg, s, step) && Apply(cfg, s, step).log != s.log
    ensures Admits(s.log, name, e) && Apply(cfg, s, step).log == Recorded(s.log, name, e)
  {
    if IsLaunch(step) {
      name, e := Join(Mover(cfg, step)), SetupLaunched;
    } else {
      name, e := Join(step.path), EventOf(s, step).value;
    }
  }

  lemma NextIsGuarded(cfg: Config, run: seq<State>, i: nat, j: nat)
    requires IsRun(cfg, run) && i + 1 == j < |run|
    requires Guarded(run[i].log)
    ensures Guarded(run[j].log)
  {
    var step := StepAt(cfg, run, i, j);
    StepKeepsGuarded(cfg, run[i], step);
  }

  lemma {:induction false} RunIsGuarded(cfg: Config, run: seq<State>, i: nat)
    requires IsRun(cfg, run) && i < |run|
    ensures Guarded(run[i].log)
  {
    if i > 0 {
      var k: nat :| k + 1 == i;
      RunIsGuarded(cfg, run, k);
      NextIsGuarded(cfg, run, k, i);
    }
  }

  /** In every reachable state, whatever the tree and the filter are, the run counts as a success iff something is
      included and the counters of failed tests, tests skipped by a fixture error, and failed teardowns are zero. */
  lemma SuccessInEveryRun(cfg: Config, run: seq<State>, i: nat)
    requires IsRun(cfg, run) && i < |run|
    ensures var log := run[i].log;
            IsSuccess(log) <==>
            && log.included != {}
            && TestsFailed(log) == 0 && TestsSkippedByFixtureErr(log) == 0 && TeardownsFailed(log) == 0
  {
    RunIsGuarded(cfg, run, i);
    SuccessIffNoFailures(run[i].log);
  }
}
