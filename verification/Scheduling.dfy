/**
 What may run at the same time.
 */
module Scheduling {
  import opened Common
  import opened Paths
  import opened Tree
  import opened Selection
  import opened EventLog
  import opened Engine
  import opened Control

  // ---------------------------------------------------------------------------------------------
  // Two active nodes
  // ---------------------------------------------------------------------------------------------

  /** While a node is active, every group above it is open. */
  lemma {:induction false} AncestorsAreOpen(cfg: Config, s: State, p: Path, k: nat)
    requires WellNamed(cfg.root) && Controlled(cfg, s) && IsActive(s, p) && 1 <= k < |p|
    ensures IsOpen(s, p[..k]) && s.nodes[p[..k]].task == OfGroup
    decreases |p|
  {
    assert UnderParent(cfg, s, p);
    if k == |p| - 1 {
      assert p[..k] == Parent(p);
    } else {
      AncestorsAreOpen(cfg, s, Parent(p), k);
      assert p[..k] == Parent(p)[..k];
    }
  }

  lemma PlacedFacts(cfg: Config, s: State, p: Path)
    requires WellNamed(cfg.root) && Controlled(cfg, s) && p in s.nodes
    ensures p != [] && p[0] == cfg.root.name && ValidPath(p)
    ensures s.nodes[p].task == OfTest ==> |p| >= 2
  {
    assert Placed(cfg, p, s.nodes[p]);
    if s.nodes[p].task == OfGroup {
      GroupAtFacts(cfg.root, p);
    } else {
      TestAtFacts(cfg.root, p);
    }
  }

  /** While the root is not open, every other launched node is done. */
  lemma OnlyRootActive(cfg: Config, s: State, p: Path)
    requires WellNamed(cfg.root) && Controlled(cfg, s) && p in s.nodes
    requires RootPath(cfg) in s.nodes && !s.nodes[RootPath(cfg)].pc.Open?
    ensures p == RootPath(cfg) || IsDone(s, p)
  {
    PlacedFacts(cfg, s, p);
    if |p| == 1 {
      assert p == RootPath(cfg);
    } else if IsActive(s, p) {
      assert p[..1] == RootPath(cfg);
      AncestorsAreOpen(cfg, s, p, 1);
    }
  }

  /** The index of a launched child among its siblings. */
  lemma ChildIndex(cfg: Config, s: State, c: Path) returns (g: Group, i: nat)
    requires WellNamed(cfg.root) && Controlled(cfg, s) && c in s.nodes && |c| >= 2
    ensures GroupAt(cfg.root, Parent(c)) == Some(g)
    ensures s.nodes[c].task == OfGroup ==>
              i < |g.groups| && c == GroupChild(Parent(c), g, i) && Enters(cfg.filter, GroupChild(Parent(c), g, i))
    ensures s.nodes[c].task == OfTest ==>
              i < |g.tests| && c == TestChild(Parent(c), g, i) && Selects(cfg.filter, TestChild(Parent(c), g, i))
  {
    assert Placed(cfg, c, s.nodes[c]);
    if s.nodes[c].task == OfGroup {
      g, i := GroupHasParent(cfg.root, c);
    } else {
      g, i := TestHasParent(cfg.root, c);
    }
  }

  /** A launched subgroup that is not done has no launched siblings after it, and no launched tests beside it. */
  lemma ActiveGroupIsAlone(cfg: Config, s: State, q: Path, g: Group, i: nat)
    requires q in s.nodes && InOrder(cfg, s, q, g) && i < |g.groups|
    requires Enters(cfg.filter, GroupChild(q, g, i)) && IsActive(s, GroupChild(q, g, i))
    ensures forall j :: i < j < |g.groups| ==> GroupChild(q, g, j) !in s.nodes
    ensures forall j :: 0 <= j < |g.tests| ==> TestChild(q, g, j) !in s.nodes
  {
    UndoneGroup(cfg, s, q, g, i);
  }

  /** Two tests of a group that are active at once are both of the concurrent phase. */
  lemma ActiveTestsAreConcurrent(cfg: Config, s: State, q: Path, g: Group, i: nat, j: nat)
    requires q in s.nodes && InOrder(cfg, s, q, g) && i < |g.tests| && j < |g.tests| && i != j
    requires Selects(cfg.filter, TestChild(q, g, i)) && IsActive(s, TestChild(q, g, i))
    requires Selects(cfg.filter, TestChild(q, g, j)) && IsActive(s, TestChild(q, g, j))
    ensures InConcurrentPhase(s, q, g, i) && InConcurrentPhase(s, q, g, j)
  {
    UndoneTest(cfg, s, q, g, i);
    UndoneTest(cfg, s, q, g, j);
  }

  /** Two active siblings are tests of the concurrent phase. */
  lemma ActiveSiblings(cfg: Config, s: State, c: Path, d: Path) returns (g: Group, i: nat, j: nat)
    requires WellNamed(cfg.root) && Controlled(cfg, s)
    requires IsActive(s, c) && IsActive(s, d) && c != d
    requires |c| >= 2 && |d| >= 2 && Parent(c) == Parent(d)
    ensures s.nodes[c].task == OfTest && s.nodes[d].task == OfTest
    ensures Parent(c) in s.nodes && GroupAt(cfg.root, Parent(c)) == Some(g)
    ensures i < |g.tests| && c == TestChild(Parent(c), g, i) && InConcurrentPhase(s, Parent(c), g, i)
    ensures j < |g.tests| && d == TestChild(Parent(c), g, j) && InConcurrentPhase(s, Parent(c), g, j)
  {
    var q := Parent(c);
    assert UnderParent(cfg, s, c) && c != RootPath(cfg);
    var h;
    g, i := ChildIndex(cfg, s, c);
    h, j := ChildIndex(cfg, s, d);
    assert InOrder(cfg, s, q, g);
    if s.nodes[c].task == OfGroup {
      ActiveGroupIsAlone(cfg, s, q, g, i);
    }
    if s.nodes[d].task == OfGroup {
      ActiveGroupIsAlone(cfg, s, q, g, j);
    }
    ActiveTestsAreConcurrent(cfg, s, q, g, i, j);
  }

  /** The first place where two paths part. */
  lemma {:induction false} FirstDifference(p: Path, q: Path) returns (k: nat)
    requires !(p <= q) && !(q <= p)
    ensures k < |p| && k < |q| && p[..k] == q[..k] && p[k] != q[k]
    decreases |p|
  {
    if p[0] != q[0] {
      k := 0;
    } else {
      assert p == [p[0]] + p[1..] && q == [q[0]] + q[1..];
      var j := FirstDifference(p[1..], q[1..]);
      k := j + 1;
      assert p[..k] == [p[0]] + p[1..][..j] && q[..k] == [q[0]] + q[1..][..j];
    }
  }

  /** An active node at or above an active node. */
  lemma PrefixIsActive(cfg: Config, s: State, p: Path, k: nat)
    requires WellNamed(cfg.root) && Controlled(cfg, s) && IsActive(s, p) && 1 <= k <= |p|
    ensures IsActive(s, p[..k])
    ensures s.nodes[p[..k]].task == OfTest ==> p == p[..k]
  {
    if k < |p| {
      AncestorsAreOpen(cfg, s, p, k);
    } else {
      assert p[..k] == p;
    }
  }

  /** Of two active nodes one is above the other, or they are tests of one group in its concurrent phase. */
  lemma ActiveNodesMeet(cfg: Config, s: State, p: Path, q: Path)
    requires WellNamed(cfg.root) && Controlled(cfg, s)
    requires IsActive(s, p) && IsActive(s, q)
    requires !(p <= q) && !(q <= p)
    ensures |p| >= 2 && |q| >= 2 && Parent(p) == Parent(q)
    ensures s.nodes[p].task == OfTest && s.nodes[q].task == OfTest
  {
    var k := FirstDifference(p, q);
    PlacedFacts(cfg, s, p);
    PlacedFacts(cfg, s, q);
    PartedPrefixes(p, q, k);
    PartedNodesMeet(cfg, s, p, q, p[..k + 1], q[..k + 1]);
  }

  lemma PartedNodesMeet(cfg: Config, s: State, p: Path, q: Path, c: Path, d: Path)
    requires WellNamed(cfg.root) && Controlled(cfg, s)
    requires IsActive(s, p) && IsActive(s, q)
    requires c <= p && d <= q && |c| >= 2 && |d| >= 2 && c != d && Parent(c) == Parent(d)
    ensures c == p && d == q && s.nodes[p].task == OfTest && s.nodes[q].task == OfTest
  {
    assert p[..|c|] == c && q[..|d|] == d;
    PrefixIsActive(cfg, s, p, |c|);
    PrefixIsActive(cfg, s, q, |d|);
    var g, i, j := ActiveSiblings(cfg, s, c, d);
  }

  lemma PartedPrefixes(p: Path, q: Path, k: nat)
    requires p != [] && q != [] && p[0] == q[0]
    requires k < |p| && k < |q| && p[..k] == q[..k] && p[k] != q[k]
    ensures k >= 1
    ensures p[..k + 1] != q[..k + 1] && Parent(p[..k + 1]) == Parent(q[..k + 1])
  {
    assert p[..k + 1][k] == p[k] && q[..k + 1][k] == q[k];
    assert Parent(p[..k + 1]) == p[..k] && Parent(q[..k + 1]) == q[..k];
  }

  // ---------------------------------------------------------------------------------------------
  // How many tests run at once
  // ---------------------------------------------------------------------------------------------

  function ActiveTests(s: State): set<Path> {
    set p | p in s.nodes && s.nodes[p].task == OfTest && !s.nodes[p].pc.Done?
  }

  ghost predicate Bounded(cfg: Config, s: State) {
    forall q :: |InFlight(s, q)| <= if cfg.concurrency == 0 then 1 else cfg.concurrency
  }

  lemma MoveKeepsBounded(cfg: Config, s: State, t: State, p: Path)
    requires Bounded(cfg, s) && Moves(cfg, s, t, p)
    ensures Bounded(cfg, t)
  {
    forall q
      ensures |InFlight(t, q)| <= if cfg.concurrency == 0 then 1 else cfg.concurrency
    {
      SubsetIsSmaller(InFlight(t, q), InFlight(s, q));
    }
  }

  /** When a test outside the concurrent phase is launched, no other test of the group is in flight. */
  lemma NothingInFlight(cfg: Config, s: State, q: Path, k: nat)
    requires WellNamed(cfg.root) && Controlled(cfg, s) && CanLaunchTest(cfg, s, q, k)
    requires !InConcurrentPhase(s, q, GroupAt(cfg.root, q).value, k)
    ensures InFlight(s, q) == {}
  {
    var g := GroupAt(cfg.root, q).value;
    UndoneTest(cfg, s, q, g, k);
    forall p | p in s.nodes && p != [] && Parent(p) == q && s.nodes[p].task == OfTest
      ensures IsDone(s, p)
    {
      PlacedFacts(cfg, s, p);
      var h, i := ChildIndex(cfg, s, p);
      assert InOrder(cfg, s, q, g);
    }
  }

  /** A launched test is one more in flight in its group. */
  lemma LaunchIsInFlight(cfg: Config, s: State, t: State, step: Step)
    requires WellNamed(cfg.root) && Launches(cfg, s, t, step)
    ensures var p := Mover(cfg, step);
            forall q :: InFlight(t, q) == InFlight(s, q) + if step.LaunchTest? && q == step.parent then {p} else {}
  {
    var p := Mover(cfg, step);
    LaunchIsPlaced(cfg, s, t, step);
    if step.LaunchTest? {
      GroupAtFacts(cfg.root, step.parent);
      TestChildAt(cfg.root, step.parent, GroupAt(cfg.root, step.parent).value, step.i);
      assert Parent(p) == step.parent;
    }
  }

  lemma LaunchKeepsBounded(cfg: Config, s: State, t: State, step: Step)
    requires WellNamed(cfg.root) && Controlled(cfg, s) && Bounded(cfg, s) && Launches(cfg, s, t, step)
    ensures Bounded(cfg, t)
  {
    LaunchIsInFlight(cfg, s, t, step);
    if step.LaunchTest? && !InConcurrentPhase(s, step.parent, GroupAt(cfg.root, step.parent).value, step.i) {
      NothingInFlight(cfg, s, step.parent, step.i);
    }
  }

  lemma NextIsBounded(cfg: Config, run: seq<State>, i: nat, j: nat)
    requires WellNamed(cfg.root) && IsRun(cfg, run) && i + 1 == j < |run|
    requires Bounded(cfg, run[i])
    ensures Bounded(cfg, run[j])
  {
    RunIsControlled(cfg, run, i);
    var step := StepAt(cfg, run, i, j);
    StepKeepsBounded(cfg, run[i], step);
  }

  /** In every reachable state at most `max(1, concurrency)` tests are in flight in a group. */
  lemma {:induction false} RunIsBounded(cfg: Config, run: seq<State>, i: nat)
    requires WellNamed(cfg.root) && IsRun(cfg, run) && i < |run|
    ensures Bounded(cfg, run[i])
  {
    if i == 0 {
      assert forall q :: InFlight(run[0], q) == {};
    } else {
      var k: nat :| k + 1 == i;
      RunIsBounded(cfg, run, k);
      NextIsBounded(cfg, run, k, i);
    }
  }

  lemma StepKeepsBounded(cfg: Config, s: State, step: Step)
    requires WellNamed(cfg.root) && Controlled(cfg, s) && Bounded(cfg, s) && Enabled(cfg, s, step)
    ensures Bounded(cfg, Apply(cfg, s, step))
  {
    if IsLaunch(step) {
      StepLaunches(cfg, s, step);
    } else {
      StepAdvances(cfg, s, step);
    }
    KeepsBounded(cfg, s, Apply(cfg, s, step), step);
  }

  lemma KeepsBounded(cfg: Config, s: State, t: State, step: Step)
    requires WellNamed(cfg.root) && Controlled(cfg, s) && Bounded(cfg, s)
    requires SameButPanicked(s, t) || Launches(cfg, s, t, step) || exists p :: Moves(cfg, s, t, p)
    ensures Bounded(cfg, t)
  {
    if SameButPanicked(s, t) {
      assert forall q :: InFlight(t, q) == InFlight(s, q);
    } else if Launches(cfg, s, t, step) {
      LaunchKeepsBounded(cfg, s, t, step);
    } else {
      var p :| Moves(cfg, s, t, p);
      MoveKeepsBounded(cfg, s, t, p);
    }
  }

  /** All tests in flight are in one group, so at most `max(1, concurrency)` tests run at once in the whole tree. */
  lemma TestsAtOnce(cfg: Config, run: seq<State>, i: nat)
    requires WellNamed(cfg.root) && IsRun(cfg, run) && i < |run|
    ensures |ActiveTests(run[i])| <= if cfg.concurrency == 0 then 1 else cfg.concurrency
  {
    var s := run[i];
    RunIsControlled(cfg, run, i);
    RunIsBounded(cfg, run, i);
    if p :| p in ActiveTests(s) {
      PlacedFacts(cfg, s, p);
      forall q | q in ActiveTests(s)
        ensures q in InFlight(s, Parent(p))
      {
        PlacedFacts(cfg, s, q);
        ActiveTestsShareParent(cfg, s, p, q);
      }
      SubsetIsSmaller(ActiveTests(s), InFlight(s, Parent(p)));
    }
  }

  lemma ActiveTestsShareParent(cfg: Config, s: State, p: Path, q: Path)
    requires WellNamed(cfg.root) && Controlled(cfg, s)
    requires p in ActiveTests(s) && q in ActiveTests(s)
    ensures p != [] && q != [] && Parent(p) == Parent(q)
  {
    PlacedFacts(cfg, s, p);
    PlacedFacts(cfg, s, q);
    if p <= q {
      assert q[..|p|] == p;
      PrefixIsActive(cfg, s, q, |p|);
    } else if q <= p {
      assert p[..|q|] == q;
      PrefixIsActive(cfg, s, p, |q|);
    } else {
      ActiveNodesMeet(cfg, s, p, q);
    }
  }

  // ---------------------------------------------------------------------------------------------
  // Which tests may share the time
  // ---------------------------------------------------------------------------------------------

  /** The fixtures of the group and of all groups above it allow concurrent tests. */
  ghost predicate GroupsAllow(root: Group, q: Path)
    decreases |q|
  {
    q == [] ||
    (GroupAt(root, q).Some? && GroupAt(root, q).value.fixture.concurrent && GroupsAllow(root, Parent(q)))
  }

  lemma {:induction false} GroupsAllowIff(root: Group, q: Path)
    ensures GroupsAllow(root, q) <==>
            forall k :: 1 <= k <= |q| ==> GroupAt(root, q[..k]).Some? && GroupAt(root, q[..k]).value.fixture.concurrent
    decreases |q|
  {
    if q != [] {
      GroupsAllowIff(root, Parent(q));
      assert q[..|q|] == q;
      assert forall k :: 1 <= k < |q| ==> q[..k] == Parent(q)[..k];
    }
  }

  /** And so does the fixture of the test itself. */
  ghost predicate Allowed(root: Group, p: Path) {
    TestAt(root, p).Some? && TestAt(root, p).value.fixture.concurrent && GroupsAllow(root, Parent(p))
  }

  /** The flag of the context is the conjunction of the flags on the way down. */
  ghost predicate FlagRight(cfg: Config, p: Path, node: Node)
    requires p != []
  {
    match node.task
    case OfGroup =>
      node.concurrent == GroupsAllow(cfg.root, if WasOpened(node.pc) then p else Parent(p))
      || (node.pc.Closing? || node.pc.TearingDown? || node.pc.TornDown? || node.pc.Done?)
    case OfTest => node.concurrent == Allowed(cfg.root, p)
  }

  ghost predicate FlagsRight(cfg: Config, s: State) {
    forall p :: p in s.nodes && p != [] ==> FlagRight(cfg, p, s.nodes[p])
  }

  lemma MoveKeepsFlag(cfg: Config, s: State, t: State, p: Path)
    requires Moves(cfg, s, t, p) && p != []
    requires Placed(cfg, p, s.nodes[p]) && FlagRight(cfg, p, s.nodes[p])
    ensures FlagRight(cfg, p, t.nodes[p])
  {
  }

  lemma MoveKeepsFlags(cfg: Config, s: State, t: State, p: Path)
    requires WellNamed(cfg.root) && Controlled(cfg, s) && FlagsRight(cfg, s) && Moves(cfg, s, t, p)
    ensures FlagsRight(cfg, t)
  {
    PlacedFacts(cfg, s, p);
    MoveKeepsFlag(cfg, s, t, p);
    assert forall x :: x in t.nodes && x != p ==> t.nodes[x] == s.nodes[x];
  }

  lemma LaunchHasFlag(cfg: Config, s: State, t: State, step: Step)
    requires WellNamed(cfg.root) && FlagsRight(cfg, s) && Launches(cfg, s, t, step)
    ensures var p := Mover(cfg, step); p != [] && FlagRight(cfg, p, t.nodes[p])
  {
    match step
    case LaunchRoot =>
      assert Parent(RootPath(cfg)) == [];
    case LaunchGroup(q, i) =>
      GroupAtFacts(cfg.root, q);
      GroupChildAt(cfg.root, q, GroupAt(cfg.root, q).value, i);
      assert FlagRight(cfg, q, s.nodes[q]);
    case LaunchTest(q, i) =>
      GroupAtFacts(cfg.root, q);
      TestChildAt(cfg.root, q, GroupAt(cfg.root, q).value, i);
      assert FlagRight(cfg, q, s.nodes[q]);
    case _ =>
  }

  lemma LaunchKeepsFlags(cfg: Config, s: State, t: State, step: Step)
    requires WellNamed(cfg.root) && FlagsRight(cfg, s) && Launches(cfg, s, t, step)
    ensures FlagsRight(cfg, t)
  {
    LaunchHasFlag(cfg, s, t, step);
    assert forall x :: x in t.nodes && x != Mover(cfg, step) ==> t.nodes[x] == s.nodes[x];
  }

  lemma KeepsFlags(cfg: Config, s: State, t: State, step: Step)
    requires WellNamed(cfg.root) && Controlled(cfg, s) && FlagsRight(cfg, s)
    requires SameButPanicked(s, t) || Launches(cfg, s, t, step) || exists p :: Moves(cfg, s, t, p)
    ensures FlagsRight(cfg, t)
  {
    if SameButPanicked(s, t) {
    } else if Launches(cfg, s, t, step) {
      LaunchKeepsFlags(cfg, s, t, step);
    } else {
      var p :| Moves(cfg, s, t, p);
      MoveKeepsFlags(cfg, s, t, p);
    }
  }

  lemma StepKeepsFlags(cfg: Config, s: State, step: Step)
    requires WellNamed(cfg.root) && Controlled(cfg, s) && FlagsRight(cfg, s) && Enabled(cfg, s, step)
    ensures FlagsRight(cfg, Apply(cfg, s, step))
  {
    if IsLaunch(step) {
      StepLaunches(cfg, s, step);
    } else {
      StepAdvances(cfg, s, step);
    }
    KeepsFlags(cfg, s, Apply(cfg, s, step), step);
  }

  lemma NextHasFlagsRight(cfg: Config, run: seq<State>, i: nat, j: nat)
    requires WellNamed(cfg.root) && IsRun(cfg, run) && i + 1 == j < |run|
    requires FlagsRight(cfg, run[i])
    ensures FlagsRight(cfg, run[j])
  {
    RunIsControlled(cfg, run, i);
    var step := StepAt(cfg, run, i, j);
    StepKeepsFlags(cfg, run[i], step);
  }

  lemma {:induction false} RunHasFlagsRight(cfg: Config, run: seq<State>, i: nat)
    requires WellNamed(cfg.root) && IsRun(cfg, run) && i < |run|
    ensures FlagsRight(cfg, run[i])
  {
    if i > 0 {
      var k: nat :| k + 1 == i;
      RunHasFlagsRight(cfg, run, k);
      NextHasFlagsRight(cfg, run, k, i);
    }
  }

  /** In every reachable state, the flag that an open group hands down is on iff the fixtures of the group and of every
      group above it allow concurrent tests. */
  lemma FlagIsConjunction(cfg: Config, run: seq<State>, i: nat, q: Path)
    requires WellNamed(cfg.root) && IsRun(cfg, run) && i < |run|
    requires IsOpen(run[i], q) && run[i].nodes[q].task == OfGroup
    ensures run[i].nodes[q].concurrent <==>
            forall k :: 1 <= k <= |q| ==>
              GroupAt(cfg.root, q[..k]).Some? && GroupAt(cfg.root, q[..k]).value.fixture.concurrent
  {
    RunIsControlled(cfg, run, i);
    PlacedFacts(cfg, run[i], q);
    RunHasFlagsRight(cfg, run, i);
    assert FlagRight(cfg, q, run[i].nodes[q]);
    GroupsAllowIff(cfg.root, q);
  }

  /** Two tests that overlap are in one group, and their fixtures and those of all groups above them allow it: a test
      that is not allowed never overlaps any other test of the tree. */
  lemma OverlappingTestsAreAllowed(cfg: Config, run: seq<State>, i: nat, p: Path, q: Path)
    requires WellNamed(cfg.root) && IsRun(cfg, run) && i < |run|
    requires p in ActiveTests(run[i]) && q in ActiveTests(run[i]) && p != q
    ensures |p| >= 2 && |q| >= 2 && Parent(p) == Parent(q) && Allowed(cfg.root, p) && Allowed(cfg.root, q)
  {
    var s := run[i];
    RunIsControlled(cfg, run, i);
    RunHasFlagsRight(cfg, run, i);
    PlacedFacts(cfg, s, p);
    PlacedFacts(cfg, s, q);
    ActiveTestsShareParent(cfg, s, p, q);
    var g, j, k := ActiveSiblings(cfg, s, p, q);
    GroupAtFacts(cfg.root, Parent(p));
    TestChildAt(cfg.root, Parent(p), g, j);
    TestChildAt(cfg.root, Parent(p), g, k);
    assert UnderParent(cfg, s, p);
    assert FlagRight(cfg, Parent(p), s.nodes[Parent(p)]);
  }
}
