/**
 A run that stops has finished: as long as the root is not done, some step can be taken.
 */
module Progress {
  import opened Common
  import opened Paths
  import opened Tree
  import opened Selection
  import opened EventLog
  import opened Fixtures
  import opened Engine
  import opened Control

  /** Steps by which everything goes well. */
  ghost predicate Passing(step: Step) {
    match step
    case RunSetupOf(_, plan) => plan == Retain([])
    case TimeOutSetup(_) => false
    case RunBody(_, passed) => passed
    case RunTeardown(_, _, ok, _) => ok
    case _ => true
  }

  ghost predicate CanPass(cfg: Config, s: State) {
    exists step :: Enabled(cfg, s, step) && Passing(step)
  }

  lemma CanPassBy(cfg: Config, s: State, step: Step)
    requires Enabled(cfg, s, step) && Passing(step)
    ensures CanPass(cfg, s)
  {
  }

  lemma PlacedHasFixture(cfg: Config, p: Path, node: Node)
    requires Placed(cfg, p, node)
    ensures FixtureAt(cfg, p).Some?
  {
  }

  /** A node that waits for no other node can move. */
  lemma NodeCanPass(cfg: Config, s: State, p: Path)
    requires !s.panicked && IsActive(s, p) && Placed(cfg, p, s.nodes[p])
    requires s.nodes[p].task == OfTest || !s.nodes[p].pc.Open?
    ensures CanPass(cfg, s)
  {
    match s.nodes[p].pc
    case Starting =>
      PlacedHasFixture(cfg, p, s.nodes[p]);
      CanPassBy(cfg, s, RunSetupOf(p, Retain([])));
    case SetUpDone(_) => CanPassBy(cfg, s, RecordSetup(p));
    case Open(_) => CanPassBy(cfg, s, LaunchBody(p));
    case Running(_) => CanPassBy(cfg, s, RunBody(p, true));
    case Ran(_, _) => CanPassBy(cfg, s, RecordBody(p));
    case Judged(_, _) => CanPassBy(cfg, s, DropFixture(p));
    case Closing(_) => CanPassBy(cfg, s, LaunchTeardown(p));
    case TearingDown(_) =>
      var order := SweepCanFinish(s.fixtures, Held(s));
      CanPassBy(cfg, s, RunTeardown(p, order, true, false));
    case TornDown(_, _) => CanPassBy(cfg, s, RecordTeardown(p));
  }

  /** An active test can move. */
  lemma ActiveTestCanPass(cfg: Config, s: State, p: Path)
    requires !s.panicked && Controlled(cfg, s) && IsActive(s, p) && s.nodes[p].task == OfTest
    ensures CanPass(cfg, s)
  {
    NodeCanPass(cfg, s, p);
  }

  // ---------------------------------------------------------------------------------------------
  // The loops of an open group
  // ---------------------------------------------------------------------------------------------

  /** The first subgroup that is not through. */
  lemma FirstUndoneGroup(cfg: Config, s: State, q: Path, g: Group, n: nat) returns (i: nat)
    requires n <= |g.groups| && !GroupsDone(cfg, s, q, g, n)
    ensures i < n && Enters(cfg.filter, GroupChild(q, g, i)) && !IsDone(s, GroupChild(q, g, i))
    ensures GroupsDone(cfg, s, q, g, i)
  {
    i :| i < n && Enters(cfg.filter, GroupChild(q, g, i)) && !IsDone(s, GroupChild(q, g, i));
    if !GroupsDone(cfg, s, q, g, i) {
      i := FirstUndoneGroup(cfg, s, q, g, i);
    }
  }

  /** The first test of the concurrent phase that is not launched. */
  lemma FirstUnlaunchedTest(cfg: Config, s: State, q: Path, g: Group, n: nat) returns (i: nat)
    requires q in s.nodes && n <= |g.tests| && !ConcurrentTestsLaunched(cfg, s, q, g, n)
    ensures i < n && InConcurrentPhase(s, q, g, i) && Selects(cfg.filter, TestChild(q, g, i))
    ensures TestChild(q, g, i) !in s.nodes && ConcurrentTestsLaunched(cfg, s, q, g, i)
  {
    i :| i < n && InConcurrentPhase(s, q, g, i) && Selects(cfg.filter, TestChild(q, g, i))
      && TestChild(q, g, i) !in s.nodes;
    if !ConcurrentTestsLaunched(cfg, s, q, g, i) {
      i := FirstUnlaunchedTest(cfg, s, q, g, i);
    }
  }

  /** The first of the other tests that is not through. */
  lemma FirstUndoneTest(cfg: Config, s: State, q: Path, g: Group, n: nat) returns (i: nat)
    requires q in s.nodes && n <= |g.tests| && !OtherTestsDone(cfg, s, q, g, n)
    ensures i < n && !InConcurrentPhase(s, q, g, i) && Selects(cfg.filter, TestChild(q, g, i))
    ensures !IsDone(s, TestChild(q, g, i)) && OtherTestsDone(cfg, s, q, g, i)
  {
    i :| i < n && !InConcurrentPhase(s, q, g, i) && Selects(cfg.filter, TestChild(q, g, i))
      && !IsDone(s, TestChild(q, g, i));
    if !OtherTestsDone(cfg, s, q, g, i) {
      i := FirstUndoneTest(cfg, s, q, g, i);
    }
  }

  ghost predicate IsOpenGroup(cfg: Config, s: State, q: Path, g: Group) {
    IsOpen(s, q) && s.nodes[q].task == OfGroup && GroupAt(cfg.root, q) == Some(g)
  }

  /** A launched test of an open group is a node of a test. */
  lemma LaunchedTestIsTest(cfg: Config, s: State, q: Path, g: Group, i: nat)
    requires WellNamed(cfg.root) && Controlled(cfg, s) && IsOpenGroup(cfg, s, q, g)
    requires i < |g.tests| && TestChild(q, g, i) in s.nodes
    ensures s.nodes[TestChild(q, g, i)].task == OfTest
  {
    GroupAtFacts(cfg.root, q);
    TestChildAt(cfg.root, q, g, i);
    assert Placed(cfg, TestChild(q, g, i), s.nodes[TestChild(q, g, i)]);
  }

  /** If no test of an open group can move, and some of its tests wait for the concurrent phase, none is in flight. */
  lemma NoneInFlight(cfg: Config, s: State, q: Path, g: Group)
    requires WellNamed(cfg.root) && Controlled(cfg, s) && !s.panicked && IsOpenGroup(cfg, s, q, g)
    requires !CanPass(cfg, s)
    ensures InFlight(s, q) == {}
  {
    if p :| p in InFlight(s, q) {
      ActiveTestCanPass(cfg, s, p);
    }
  }

  lemma ConcurrentPhaseMoves(cfg: Config, s: State, q: Path, g: Group)
    requires WellNamed(cfg.root) && Controlled(cfg, s) && !s.panicked && IsOpenGroup(cfg, s, q, g)
    requires GroupsDone(cfg, s, q, g, |g.groups|) && !ConcurrentTestsDone(cfg, s, q, g)
    ensures CanPass(cfg, s)
  {
    if !ConcurrentTestsLaunched(cfg, s, q, g, |g.tests|) {
      if !CanPass(cfg, s) {
        NoneInFlight(cfg, s, q, g);
        var i := FirstUnlaunchedTest(cfg, s, q, g, |g.tests|);
        CanPassBy(cfg, s, LaunchTest(q, i));
      }
    } else {
      var i :| 0 <= i < |g.tests| && InConcurrentPhase(s, q, g, i) && Selects(cfg.filter, TestChild(q, g, i))
        && !IsDone(s, TestChild(q, g, i));
      LaunchedTestIsTest(cfg, s, q, g, i);
      ActiveTestCanPass(cfg, s, TestChild(q, g, i));
    }
  }

  lemma OtherTestsMove(cfg: Config, s: State, q: Path, g: Group)
    requires WellNamed(cfg.root) && Controlled(cfg, s) && !s.panicked && IsOpenGroup(cfg, s, q, g)
    requires GroupsDone(cfg, s, q, g, |g.groups|) && ConcurrentTestsDone(cfg, s, q, g)
    requires !OtherTestsDone(cfg, s, q, g, |g.tests|)
    ensures CanPass(cfg, s)
  {
    var i := FirstUndoneTest(cfg, s, q, g, |g.tests|);
    if TestChild(q, g, i) in s.nodes {
      LaunchedTestIsTest(cfg, s, q, g, i);
      ActiveTestCanPass(cfg, s, TestChild(q, g, i));
    } else {
      CanPassBy(cfg, s, LaunchTest(q, i));
    }
  }

  /** Somewhere in the subtree of an active group a step can be taken. */
  lemma {:induction false} GroupMoves(cfg: Config, s: State, q: Path, g: Group)
    requires WellNamed(cfg.root) && Controlled(cfg, s) && !s.panicked
    requires IsActive(s, q) && s.nodes[q].task == OfGroup && GroupAt(cfg.root, q) == Some(g)
    ensures CanPass(cfg, s)
    decreases g
  {
    if !s.nodes[q].pc.Open? {
      NodeCanPass(cfg, s, q);
    } else if !GroupsDone(cfg, s, q, g, |g.groups|) {
      var i := FirstUndoneGroup(cfg, s, q, g, |g.groups|);
      if GroupChild(q, g, i) in s.nodes {
        LaunchedGroupIsGroup(cfg, s, q, g, i);
        GroupMoves(cfg, s, GroupChild(q, g, i), g.groups[i]);
      } else {
        CanPassBy(cfg, s, LaunchGroup(q, i));
      }
    } else if !ConcurrentTestsDone(cfg, s, q, g) {
      ConcurrentPhaseMoves(cfg, s, q, g);
    } else if !OtherTestsDone(cfg, s, q, g, |g.tests|) {
      OtherTestsMove(cfg, s, q, g);
    } else {
      CanPassBy(cfg, s, DropFixture(q));
    }
  }

  lemma LaunchedGroupIsGroup(cfg: Config, s: State, q: Path, g: Group, i: nat)
    requires WellNamed(cfg.root) && Controlled(cfg, s) && IsOpenGroup(cfg, s, q, g)
    requires i < |g.groups| && GroupChild(q, g, i) in s.nodes
    ensures s.nodes[GroupChild(q, g, i)].task == OfGroup
    ensures GroupAt(cfg.root, GroupChild(q, g, i)) == Some(g.groups[i])
  {
    GroupAtFacts(cfg.root, q);
    GroupChildAt(cfg.root, q, g, i);
    assert Placed(cfg, GroupChild(q, g, i), s.nodes[GroupChild(q, g, i)]);
  }

  /** No deadlock: unless an assertion of `record` failed, nothing is included, or the root is done, some step can be
      taken, and everything can go well in it whatever failed before. */
  lemma SomeStepCanBeTaken(cfg: Config, s: State)
    requires WellNamed(cfg.root) && Controlled(cfg, s)
    requires !s.panicked && s.log.included != {} && !IsDone(s, RootPath(cfg))
    ensures CanPass(cfg, s)
  {
    var root := RootPath(cfg);
    assert GroupAt(cfg.root, root) == Some(cfg.root);
    if root !in s.nodes {
      CanPassBy(cfg, s, LaunchRoot);
    } else {
      assert Placed(cfg, root, s.nodes[root]);
      GroupMoves(cfg, s, root, cfg.root);
    }
  }

  /** A run that cannot go on has panicked, had nothing to run, or is done. */
  lemma StuckIsDone(cfg: Config, run: seq<State>, i: nat)
    requires WellNamed(cfg.root) && IsRun(cfg, run) && i < |run|
    requires forall t :: !Next(cfg, run[i], t)
    ensures run[i].panicked || run[i].log.included == {} || IsDone(run[i], RootPath(cfg))
  {
    RunIsControlled(cfg, run, i);
    if !run[i].panicked && run[i].log.included != {} && !IsDone(run[i], RootPath(cfg)) {
      SomeStepCanBeTaken(cfg, run[i]);
      var step :| Enabled(cfg, run[i], step) && Passing(step);
      assert Next(cfg, run[i], Apply(cfg, run[i], step));
    }
  }
}
