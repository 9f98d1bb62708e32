/**
 The concurrency that is configured is used: tests start in order, as many at once as the limit allows, and no fewer.
 */
module Concurrency {
  import opened Common
  import opened Paths
  import opened Tree
  import opened Selection
  import opened EventLog
  import opened Engine
  import opened Control
  import opened Scheduling
  import opened Lifecycle
  import Guards
  import Completion

  /** The selected tests of a group that the fixtures above them and their own allow to run at once. */
  ghost predicate Wanted(cfg: Config, q: Path, g: Group, k: nat)
    requires k < |g.tests|
  {
    Allowed(cfg.root, TestChild(q, g, k)) && Selects(cfg.filter, TestChild(q, g, k))
  }

  /** Those that are not launched. */
  ghost function Waiting(cfg: Config, s: State, q: Path, g: Group): set<nat> {
    set k: nat | k < |g.tests| && Wanted(cfg, q, g, k) && TestChild(q, g, k) !in s.nodes
  }

  /** The tests of the group that are launched and not done. */
  function Active(s: State, q: Path, g: Group): set<Path> {
    set k: nat | k < |g.tests| && IsActive(s, TestChild(q, g, k)) :: TestChild(q, g, k)
  }

  lemma ActiveAreInFlight(cfg: Config, s: State, q: Path, g: Group)
    requires WellNamed(cfg.root) && Controlled(cfg, s) && GroupAt(cfg.root, q) == Some(g)
    ensures Active(s, q, g) == InFlight(s, q)
  {
    GroupAtFacts(cfg.root, q);
    forall p | p in Active(s, q, g)
      ensures p in InFlight(s, q)
    {
      var k: nat :| k < |g.tests| && p == TestChild(q, g, k);
      TestChildAt(cfg.root, q, g, k);
      TestAtFacts(cfg.root, p);
      assert Placed(cfg, p, s.nodes[p]);
    }
    forall p | p in InFlight(s, q)
      ensures p in Active(s, q, g)
    {
      PlacedFacts(cfg, s, p);
      var h, k := ChildIndex(cfg, s, p);
    }
  }

  /** In an open group the phase of a test is told from the tree. */
  lemma PhaseIsAllowed(cfg: Config, s: State, q: Path, g: Group, k: nat)
    requires WellNamed(cfg.root) && FlagsRight(cfg, s) && GroupAt(cfg.root, q) == Some(g) && k < |g.tests|
    requires IsOpen(s, q) && s.nodes[q].task == OfGroup
    ensures InConcurrentPhase(s, q, g, k) <==> Allowed(cfg.root, TestChild(q, g, k))
  {
    GroupAtFacts(cfg.root, q);
    TestChildAt(cfg.root, q, g, k);
    assert FlagRight(cfg, q, s.nodes[q]);
  }

  // ---------------------------------------------------------------------------------------------
  // Tests start in order
  // ---------------------------------------------------------------------------------------------

  lemma NewTestIsLaunched(cfg: Config, s: State, step: Step, q: Path, g: Group, k: nat)
    requires WellNamed(cfg.root) && Controlled(cfg, s) && Enabled(cfg, s, step)
    requires GroupAt(cfg.root, q) == Some(g) && k < |g.tests|
    requires TestChild(q, g, k) !in s.nodes && TestChild(q, g, k) in Apply(cfg, s, step).nodes
    ensures CanLaunchTest(cfg, s, q, k)
  {
    GroupAtFacts(cfg.root, q);
    TestChildAt(cfg.root, q, g, k);
    var p := TestChild(q, g, k);
    if IsLaunch(step) {
      StepLaunches(cfg, s, step);
      LaunchIsPlaced(cfg, s, Apply(cfg, s, step), step);
      TestAtFacts(cfg.root, p);
      LaunchOfTest(cfg, s, step, q, g, k);
    } else {
      StepAdvances(cfg, s, step);
    }
  }

  lemma LaunchOfTest(cfg: Config, s: State, step: Step, q: Path, g: Group, k: nat)
    requires WellNamed(cfg.root) && Enabled(cfg, s, step) && IsLaunch(step)
    requires GroupAt(cfg.root, q) == Some(g) && k < |g.tests| && Mover(cfg, step) == TestChild(q, g, k)
    ensures step == LaunchTest(q, k)
  {
    GroupAtFacts(cfg.root, q);
    TestChildAt(cfg.root, q, g, k);
    TestAtFacts(cfg.root, TestChild(q, g, k));
    if step.LaunchTest? {
      GroupAtFacts(cfg.root, step.parent);
      TestChildAt(cfg.root, step.parent, GroupAt(cfg.root, step.parent).value, step.i);
    } else if step.LaunchGroup? {
      LaunchedGroupIsGroup(cfg, s, step);
    }
  }

  lemma LaunchedGroupIsGroup(cfg: Config, s: State, step: Step)
    requires WellNamed(cfg.root) && Enabled(cfg, s, step) && step.LaunchGroup?
    ensures GroupAt(cfg.root, Mover(cfg, step)).Some?
  {
    GroupAtFacts(cfg.root, step.parent);
    GroupChildAt(cfg.root, step.parent, GroupAt(cfg.root, step.parent).value, step.i);
  }

  /** In every reachable state: where a test that may run beside others was launched, so were all wanted ones before it
      in the order of the group. */
  lemma {:induction false} TestsStartInOrder(cfg: Config, run: seq<State>, i: nat, q: Path, g: Group, j: nat, k: nat)
    requires WellNamed(cfg.root) && IsRun(cfg, run) && i < |run| && GroupAt(cfg.root, q) == Some(g)
    requires j < k < |g.tests| && Wanted(cfg, q, g, j) && Wanted(cfg, q, g, k)
    requires TestChild(q, g, k) in run[i].nodes
    ensures TestChild(q, g, j) in run[i].nodes
    decreases i
  {
    var h: nat :| h + 1 == i;
    RunIsControlled(cfg, run, h);
    RunHasFlagsRight(cfg, run, h);
    var step := StepAt(cfg, run, h, i);
    NodesStay(cfg, run[h], step, TestChild(q, g, j));
    if TestChild(q, g, k) in run[h].nodes {
      TestsStartInOrder(cfg, run, h, q, g, j, k);
    } else {
      NewTestIsLaunched(cfg, run[h], step, q, g, k);
      PhaseIsAllowed(cfg, run[h], q, g, j);
      PhaseIsAllowed(cfg, run[h], q, g, k);
    }
  }

  lemma NodesStay(cfg: Config, s: State, step: Step, p: Path)
    requires Enabled(cfg, s, step)
    ensures p in s.nodes ==> p in Apply(cfg, s, step).nodes
  {
    if IsLaunch(step) {
      StepLaunches(cfg, s, step);
    } else {
      StepAdvances(cfg, s, step);
    }
  }

  // ---------------------------------------------------------------------------------------------
  // The limit is what is configured
  // ---------------------------------------------------------------------------------------------

  /** An open group whose subgroups are done. */
  ghost predicate InTestLoops(cfg: Config, s: State, q: Path, g: Group) {
    && IsOpen(s, q) && s.nodes[q].task == OfGroup && GroupAt(cfg.root, q) == Some(g)
    && GroupsDone(cfg, s, q, g, |g.groups|)
  }

  /** While fewer tests of an open group are active than the concurrency that is configured, or one if that is zero, the
      next wanted test may be launched: of those that may run at once, the first one that was not launched. */
  lemma NextTestCanStart(cfg: Config, run: seq<State>, i: nat, q: Path, g: Group, k: nat)
    requires WellNamed(cfg.root) && IsRun(cfg, run) && i < |run| && !run[i].panicked
    requires InTestLoops(cfg, run[i], q, g) && k in Waiting(cfg, run[i], q, g)
    requires forall j :: j in Waiting(cfg, run[i], q, g) ==> k <= j
    requires |Active(run[i], q, g)| < if cfg.concurrency == 0 then 1 else cfg.concurrency
    ensures Enabled(cfg, run[i], LaunchTest(q, k))
  {
    var s := run[i];
    RunIsControlled(cfg, run, i);
    RunHasFlagsRight(cfg, run, i);
    ActiveAreInFlight(cfg, s, q, g);
    PhaseIsAllowed(cfg, s, q, g, k);
    forall j | 0 <= j < k && InConcurrentPhase(s, q, g, j) && Selects(cfg.filter, TestChild(q, g, j))
      ensures TestChild(q, g, j) in s.nodes
    {
      PhaseIsAllowed(cfg, s, q, g, j);
      assert TestChild(q, g, j) !in s.nodes ==> j in Waiting(cfg, s, q, g);
    }
  }

  lemma {:induction false} LeastOf(a: set<nat>) returns (k: nat)
    requires a != {}
    ensures k in a && forall j :: j in a ==> k <= j
  {
    k :| k in a;
    if a != {k} {
      assert a == (a - {k}) + {k};
      var m := LeastOf(a - {k});
      k := if m < k then m else k;
    }
  }

  lemma WantedIsLaunched(cfg: Config, s: State, q: Path, g: Group, k: nat)
    requires WellNamed(cfg.root) && Logged(cfg, s) && GroupAt(cfg.root, q) == Some(g)
    requires k in Waiting(cfg, s, q, g) && Enabled(cfg, s, LaunchTest(q, k))
    ensures Launches(cfg, s, Apply(cfg, s, LaunchTest(q, k)), LaunchTest(q, k))
  {
    LaunchedTestIsIncluded(cfg, s, q, g, k);
    StepLaunches(cfg, s, LaunchTest(q, k));
  }

  /** The launch of a test keeps the group in its loops. */
  lemma LaunchKeepsLoops(cfg: Config, s: State, t: State, q: Path, g: Group, k: nat)
    requires InTestLoops(cfg, s, q, g) && Launches(cfg, s, t, LaunchTest(q, k))
    ensures InTestLoops(cfg, t, q, g)
  {
    assert Onward(s, t);
  }

  /** The test is one more that is active. */
  lemma OneMoreInFlight(cfg: Config, s: State, t: State, q: Path, g: Group, k: nat)
    requires WellNamed(cfg.root) && GroupAt(cfg.root, q) == Some(g) && Launches(cfg, s, t, LaunchTest(q, k))
    ensures |InFlight(t, q)| == |InFlight(s, q)| + 1
  {
    LaunchIsInFlight(cfg, s, t, LaunchTest(q, k));
    assert TestChild(q, g, k) !in InFlight(s, q);
  }

  lemma OneWaitsNoMore(cfg: Config, s: State, t: State, q: Path, g: Group, k: nat)
    requires WellNamed(cfg.root) && GroupAt(cfg.root, q) == Some(g) && k in Waiting(cfg, s, q, g)
    requires t.nodes.Keys == s.nodes.Keys + {TestChild(q, g, k)}
    ensures Waiting(cfg, t, q, g) == Waiting(cfg, s, q, g) - {k}
  {
    forall j: nat | j < |g.tests| && j != k
      ensures TestChild(q, g, j) != TestChild(q, g, k)
    {
      TestsApart(cfg, q, g, j, k);
    }
  }

  /** The next test to be launched, and what its launch does. */
  lemma NextLaunch(cfg: Config, run: seq<State>, i: nat, q: Path, g: Group) returns (k: nat, t: State)
    requires WellNamed(cfg.root) && IsRun(cfg, run) && i < |run| && !run[i].panicked
    requires InTestLoops(cfg, run[i], q, g) && Waiting(cfg, run[i], q, g) != {}
    requires |Active(run[i], q, g)| < if cfg.concurrency == 0 then 1 else cfg.concurrency
    ensures k in Waiting(cfg, run[i], q, g)
    ensures Enabled(cfg, run[i], LaunchTest(q, k)) && t == Apply(cfg, run[i], LaunchTest(q, k))
    ensures Launches(cfg, run[i], t, LaunchTest(q, k)) && Controlled(cfg, run[i]) && Controlled(cfg, t)
  {
    RunIsControlled(cfg, run, i);
    RunIsLogged(cfg, run, i);
    k := LeastOf(Waiting(cfg, run[i], q, g));
    NextTestCanStart(cfg, run, i, q, g, k);
    WantedIsLaunched(cfg, run[i], q, g, k);
    t := Apply(cfg, run[i], LaunchTest(q, k));
    StepKeepsControlled(cfg, run[i], LaunchTest(q, k));
  }

  /** A run goes on with the launch of the next test. */
  lemma OneMoreActive(cfg: Config, run: seq<State>, i: nat, q: Path, g: Group) returns (t: State)
    requires WellNamed(cfg.root) && IsRun(cfg, run) && i + 1 == |run| && !run[i].panicked
    requires InTestLoops(cfg, run[i], q, g) && Waiting(cfg, run[i], q, g) != {}
    requires |Active(run[i], q, g)| < if cfg.concurrency == 0 then 1 else cfg.concurrency
    ensures IsRun(cfg, run + [t]) && !t.panicked && InTestLoops(cfg, t, q, g)
    ensures |Active(t, q, g)| == |Active(run[i], q, g)| + 1
    ensures |Waiting(cfg, t, q, g)| == |Waiting(cfg, run[i], q, g)| - 1
  {
    var k;
    k, t := NextLaunch(cfg, run, i, q, g);
    LaunchKeepsLoops(cfg, run[i], t, q, g, k);
    OneMoreInFlight(cfg, run[i], t, q, g, k);
    OneWaitsNoMore(cfg, run[i], t, q, g, k);
    ActiveAreInFlight(cfg, run[i], q, g);
    ActiveAreInFlight(cfg, t, q, g);
    RunExtends(cfg, run, i, t);
  }

  lemma TestsApart(cfg: Config, q: Path, g: Group, j: nat, k: nat)
    requires WellNamed(cfg.root) && GroupAt(cfg.root, q) == Some(g) && j < |g.tests| && k < |g.tests| && j != k
    ensures TestChild(q, g, j) != TestChild(q, g, k)
  {
    GroupAtFacts(cfg.root, q);
    TestChildAt(cfg.root, q, g, j);
    TestChildAt(cfg.root, q, g, k);
  }

  lemma LaunchedTestIsIncluded(cfg: Config, s: State, q: Path, g: Group, k: nat)
    requires WellNamed(cfg.root) && Logged(cfg, s) && GroupAt(cfg.root, q) == Some(g)
    requires k in Waiting(cfg, s, q, g)
    ensures Admits(s.log, Join(TestChild(q, g, k)), SetupLaunched)
  {
    GroupAtFacts(cfg.root, q);
    TestChildAt(cfg.root, q, g, k);
    Guards.IncludedIffSelected(cfg, TestChild(q, g, k));
    assert Join(TestChild(q, g, k)) in Included(s.log, Join(TestChild(q, g, k)));
  }

  /** From a state in which the loops of a group have come to its tests, as many of those that wait can be launched as
      the limit leaves room for. */
  lemma {:induction false} FillsUp(cfg: Config, run: seq<State>, i: nat, q: Path, g: Group, target: nat)
    returns (full: seq<State>, n: nat)
    requires WellNamed(cfg.root) && IsRun(cfg, run) && i + 1 == |run| && !run[i].panicked
    requires InTestLoops(cfg, run[i], q, g)
    requires |Active(run[i], q, g)| <= target <= |Active(run[i], q, g)| + |Waiting(cfg, run[i], q, g)|
    requires target <= if cfg.concurrency == 0 then 1 else cfg.concurrency
    ensures IsRun(cfg, full) && run <= full && n + 1 == |full| && |Active(full[n], q, g)| == target
    decreases target - |Active(run[i], q, g)|
  {
    if |Active(run[i], q, g)| == target {
      full, n := run, i;
    } else {
      var t := OneMoreActive(cfg, run, i, q, g);
      full, n := FillsUp(cfg, run + [t], i + 1, q, g, target);
    }
  }

  // ---------------------------------------------------------------------------------------------
  // And it is reached
  // ---------------------------------------------------------------------------------------------

  ghost predicate NoTestLaunched(s: State, q: Path, g: Group) {
    forall k :: 0 <= k < |g.tests| ==> TestChild(q, g, k) !in s.nodes
  }

  /** A group is left, and its tests are launched, only when its subgroups are done. */
  lemma SubgroupsFirst(cfg: Config, s: State, step: Step, q: Path, g: Group)
    requires WellNamed(cfg.root) && Controlled(cfg, s) && Enabled(cfg, s, step) && !Apply(cfg, s, step).panicked
    requires IsOpen(s, q) && s.nodes[q].task == OfGroup && GroupAt(cfg.root, q) == Some(g) && NoTestLaunched(s, q, g)
    requires var t := Apply(cfg, s, step); !(IsOpen(t, q) && t.nodes[q].task == OfGroup && NoTestLaunched(t, q, g))
    ensures GroupsDone(cfg, s, q, g, |g.groups|)
  {
    var t := Apply(cfg, s, step);
    if IsLaunch(step) {
      StepLaunches(cfg, s, step);
      var k :| 0 <= k < |g.tests| && TestChild(q, g, k) in t.nodes;
      NewTestIsLaunched(cfg, s, step, q, g, k);
    } else {
      StepAdvances(cfg, s, step);
    }
  }

  /** In a run in which an open group without launched tests is left, its loops come to its tests. */
  lemma {:induction false} LoopsComeToTests(cfg: Config, run: seq<State>, i: nat, n: nat, q: Path, g: Group)
    returns (m: nat)
    requires WellNamed(cfg.root) && IsRun(cfg, run) && i <= n < |run|
    requires forall j :: i <= j <= n ==> !run[j].panicked
    requires IsOpen(run[i], q) && run[i].nodes[q].task == OfGroup && GroupAt(cfg.root, q) == Some(g)
    requires NoTestLaunched(run[i], q, g) && !IsOpen(run[n], q)
    ensures i <= m <= n && InTestLoops(cfg, run[m], q, g) && NoTestLaunched(run[m], q, g)
    decreases n - i
  {
    var h: nat := i + 1;
    RunIsControlled(cfg, run, i);
    var step := StepAt(cfg, run, i, h);
    var t := run[h];
    if IsOpen(t, q) && t.nodes[q].task == OfGroup && NoTestLaunched(t, q, g) {
      m := LoopsComeToTests(cfg, run, h, n, q, g);
    } else {
      SubgroupsFirst(cfg, run[i], step, q, g);
      m := i;
    }
  }

  function Least(a: nat, b: nat): nat {
    if a < b then a else b
  }

  /** From every state of a run in which a group is open and none of its tests is launched, some run goes on to a state
      in which as many of its tests are active at once as may run at once and the filter wants, up to the concurrency
      that is configured. */
  lemma LimitIsReached(cfg: Config, run: seq<State>, i: nat, q: Path, g: Group) returns (full: seq<State>, n: nat)
    requires WellNamed(cfg.root) && Guards.GroupsHaveSelected(cfg) && IsRun(cfg, run) && i + 1 == |run|
    requires IsOpen(run[i], q) && run[i].nodes[q].task == OfGroup && GroupAt(cfg.root, q) == Some(g)
    requires NoTestLaunched(run[i], q, g)
    ensures IsRun(cfg, full) && run <= full && n < |full|
    ensures |Active(full[n], q, g)| ==
            Least(|set k: nat | k < |g.tests| && Wanted(cfg, q, g, k)|,
                  if cfg.concurrency == 0 then 1 else cfg.concurrency)
  {
    var whole, last := FinishedFrom(cfg, run, i, q);
    forall j | i <= j <= last
      ensures !whole[j].panicked
    {
      Guards.RunDoesNotPanic(cfg, whole, j);
    }
    var m := LoopsComeToTests(cfg, whole, i, last, q, g);
    var part := whole[..m + 1];
    RunIsCut(cfg, whole, m);
    var wanted := set k: nat | k < |g.tests| && Wanted(cfg, q, g, k);
    assert Waiting(cfg, part[m], q, g) == wanted;
    assert Active(part[m], q, g) == {};
    full, n := FillsUp(cfg, part, m, q, g, Least(|wanted|, if cfg.concurrency == 0 then 1 else cfg.concurrency));
    assert run <= part;
  }

  lemma FinishedFrom(cfg: Config, run: seq<State>, i: nat, q: Path) returns (whole: seq<State>, last: nat)
    requires WellNamed(cfg.root) && Guards.GroupsHaveSelected(cfg) && IsRun(cfg, run) && i + 1 == |run|
    requires IsOpen(run[i], q)
    ensures IsRun(cfg, whole) && run <= whole && last + 1 == |whole| && !IsOpen(whole[last], q)
  {
    if StartLog(cfg).included == {} {
      Guards.NothingIncludedNothingRuns(cfg, run);
    }
    whole, last := Completion.RunCanFinish(cfg, run, i);
    Guards.RunDoesNotPanic(cfg, whole, last);
    RunIsControlled(cfg, whole, last);
    if q in whole[last].nodes {
      OnlyRootActive(cfg, whole[last], q);
    }
  }
}
