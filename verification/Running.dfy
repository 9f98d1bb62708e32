/**
 The runner in the program's own form: methods that call each other down the tree, with the loops of a group inside,
 working on one event log and one fixture manager. Every call takes steps of the engine and nothing else.
 */
module Running {
  import opened Common
  import opened Paths
  import opened Tree
  import opened Filters
  import Selection
  import opened EventLog
  import opened Fixtures
  import FixtureManager
  import opened Engine
  import opened Control
  import Scheduling
  import opened Termination
  import Progress

  /** What user code does where a group or test stands: the code of its fixture, whether its setup runs out of time
      before it gets the lock, whether its body passes, after how many teardowns its sweep is cut short, and whether
      the last of them then broke off. */
  datatype User = User(
    plan: Path -> Plan, timesOut: Path -> bool, passes: Path -> bool, stop: Path -> Option<nat>, breaks: Path -> bool)

  ghost predicate Behaves(cfg: Config, user: User) {
    forall p :: FixtureAt(cfg, p).Some? ==> Ranked(FixtureAt(cfg, p).value, user.plan(p))
  }

  /** A step in which user code does what it does. */
  predicate IsOfUser(user: User, step: Step) {
    match step
    case RunSetupOf(p, plan) => !user.timesOut(p) && plan == user.plan(p)
    case TimeOutSetup(p) => user.timesOut(p)
    case RunBody(p, passed) => passed == user.passes(p)
    case RunTeardown(p, order, ok, broke) =>
      && (ok <==> user.stop(p).None? || |order| < user.stop(p).value)
      && (broke <==> !ok && order != [] && user.breaks(p))
    case _ => true
  }

  ghost predicate NextByUser(cfg: Config, user: User, run: seq<State>, i: nat)
    requires i + 1 < |run|
  {
    exists step :: Enabled(cfg, run[i], step) && IsOfUser(user, step) && run[i + 1] == Apply(cfg, run[i], step)
  }

  /** A run of the engine in which user code does what it does. */
  ghost predicate IsRunBy(cfg: Config, user: User, run: seq<State>) {
    IsRun(cfg, run) && forall i :: 0 <= i < |run| - 1 ==> NextByUser(cfg, user, run, i)
  }

  lemma RunByExtends(cfg: Config, user: User, run: seq<State>, i: nat, step: Step)
    requires IsRunBy(cfg, user, run) && i + 1 == |run| && Enabled(cfg, run[i], step) && IsOfUser(user, step)
    ensures IsRunBy(cfg, user, run + [Apply(cfg, run[i], step)])
  {
    var t := Apply(cfg, run[i], step);
    var more := run + [t];
    RunExtends(cfg, run, i, t);
    forall j: nat | j + 1 < |more|
      ensures NextByUser(cfg, user, more, j)
    {
      if j < i {
        assert NextByUser(cfg, user, run, j);
      }
    }
  }

  // ---------------------------------------------------------------------------------------------
  // What calls leave alone
  // ---------------------------------------------------------------------------------------------

  /** Nothing changed but at and below `q`. */
  ghost predicate SameElsewhere(a: map<Path, Node>, b: map<Path, Node>, q: Path) {
    forall p :: !(q <= p) ==> SameAt(a, b, p)
  }

  ghost predicate SameAt(a: map<Path, Node>, b: map<Path, Node>, p: Path) {
    (p in a <==> p in b) && (p in a ==> a[p] == b[p])
  }

  lemma ElsewhereTrans(a: map<Path, Node>, b: map<Path, Node>, c: map<Path, Node>, q: Path, r: Path)
    requires SameElsewhere(a, b, q) && SameElsewhere(b, c, r) && q <= r
    ensures SameElsewhere(a, c, q)
  {
    forall p | !(q <= p)
      ensures SameAt(a, c, p)
    {
      assert !(r <= p);
      assert SameAt(a, b, p) && SameAt(b, c, p);
    }
  }

  lemma UpdateAgain(a: map<Path, Node>, b: map<Path, Node>, c: map<Path, Node>, p: Path)
    requires p in b && p in c && b == a[p := b[p]] && c == b[p := c[p]]
    ensures c == a[p := c[p]]
  {
  }

  lemma OneNodeElsewhere(a: map<Path, Node>, p: Path, node: Node, q: Path)
    requires q <= p
    ensures SameElsewhere(a, a[p := node], q)
  {
  }

  lemma ChildApart(q: Path, name: string, other: string)
    ensures q <= q + [name] && !(q + [name] <= q)
    ensures Parent(q + [name]) == q && Last(q + [name]) == name
    ensures name != other ==> !(q + [name] <= q + [other]) && q + [name] != q + [other]
  {
    assert (q + [name])[|q|] == name && (q + [other])[|q|] == other;
  }

  // ---------------------------------------------------------------------------------------------
  // The loops of a group
  // ---------------------------------------------------------------------------------------------

  ghost predicate InLoops(cfg: Config, s: State, q: Path, g: Group, enabled: bool) {
    && !s.panicked && IsOpen(s, q) && s.nodes[q].task == OfGroup && s.nodes[q].concurrent == enabled
    && GroupAt(cfg.root, q) == Some(g) && WellNamed(g)
  }

  /** The first loop, before subgroup `i`. */
  ghost predicate BeforeGroup(cfg: Config, s: State, q: Path, g: Group, enabled: bool, i: nat) {
    && InLoops(cfg, s, q, g, enabled) && i <= |g.groups|
    && GroupsDone(cfg, s, q, g, i)
    && (forall j :: i <= j < |g.groups| ==> GroupChild(q, g, j) !in s.nodes)
    && (forall j :: 0 <= j < |g.tests| ==> TestChild(q, g, j) !in s.nodes)
  }

  /** The second loop: the tests of the concurrent phase before `next` are launched, those of `inFlight` not done. */
  ghost predicate InConcurrentLoop(
    cfg: Config, s: State, q: Path, g: Group, enabled: bool, next: nat, inFlight: set<Path>)
  {
    && InLoops(cfg, s, q, g, enabled) && next <= |g.tests|
    && GroupsDone(cfg, s, q, g, |g.groups|)
    && ConcurrentTestsLaunched(cfg, s, q, g, next)
    && inFlight == InFlight(s, q)
    && (forall j :: 0 <= j < |g.tests| && (next <= j || !InConcurrentPhase(s, q, g, j)) ==>
          TestChild(q, g, j) !in s.nodes)
  }

  /** The third loop, before test `i`. */
  ghost predicate BeforeOtherTest(cfg: Config, s: State, q: Path, g: Group, enabled: bool, i: nat) {
    && InLoops(cfg, s, q, g, enabled) && i <= |g.tests|
    && GroupsDone(cfg, s, q, g, |g.groups|)
    && ConcurrentTestsDone(cfg, s, q, g)
    && OtherTestsDone(cfg, s, q, g, i)
    && (forall j :: i <= j < |g.tests| && !InConcurrentPhase(s, q, g, j) ==> TestChild(q, g, j) !in s.nodes)
  }

  lemma GroupCanStart(cfg: Config, s: State, q: Path, g: Group, enabled: bool, i: nat)
    requires BeforeGroup(cfg, s, q, g, enabled, i) && i < |g.groups|
    requires Selection.Enters(cfg.filter, GroupChild(q, g, i))
    ensures CanStart(cfg, s, GroupChild(q, g, i), OfGroup, enabled, LaunchGroup(q, i))
    ensures GroupAt(cfg.root, GroupChild(q, g, i)) == Some(g.groups[i])
  {
    GroupChildAt(cfg.root, q, g, i);
  }

  /** What stands in the first loop but at and below the child that ran stays as it was. */
  lemma GroupRan(cfg: Config, s: State, t: State, q: Path, g: Group, enabled: bool, i: nat)
    requires BeforeGroup(cfg, s, q, g, enabled, i) && i < |g.groups| && !t.panicked
    requires SameElsewhere(s.nodes, t.nodes, GroupChild(q, g, i)) && IsDone(t, GroupChild(q, g, i))
    ensures BeforeGroup(cfg, t, q, g, enabled, i + 1)
    ensures SameElsewhere(s.nodes, t.nodes, q) && t.nodes[q] == s.nodes[q]
  {
    var c := GroupChild(q, g, i);
    ChildApart(q, g.groups[i].name, "");
    assert SameAt(s.nodes, t.nodes, q);
    forall j | 0 <= j < |g.groups| && j != i
      ensures SameAt(s.nodes, t.nodes, GroupChild(q, g, j))
    {
      ChildApart(q, g.groups[i].name, g.groups[j].name);
    }
    forall j | 0 <= j < |g.tests|
      ensures SameAt(s.nodes, t.nodes, TestChild(q, g, j))
    {
      ChildApart(q, g.groups[i].name, g.tests[j].name);
    }
    ElsewhereTrans(s.nodes, s.nodes, t.nodes, q, c);
  }

  /** The launch of this node is the next step of its parent. */
  ghost predicate CanStart(cfg: Config, s: State, p: Path, task: Task, concurrent: bool, step: Step) {
    && Enabled(cfg, s, step) && IsLaunch(step) && p == Mover(cfg, step)
    && task == (if step.LaunchTest? then OfTest else OfGroup)
    && concurrent == LaunchFlag(cfg, s, step)
  }

  /** A group that has just opened stands before its first loop. */
  lemma GroupOpened(cfg: Config, s: State, t: State, q: Path, g: Group, enabled: bool, arc: Arc)
    requires WellNamed(cfg.root) && Controlled(cfg, s) && GroupAt(cfg.root, q) == Some(g)
    requires q !in s.nodes && q in t.nodes && t.nodes == s.nodes[q := t.nodes[q]] && !t.panicked
    requires t.nodes[q] == AfterSetup(cfg, q, Node(OfGroup, SetUpDone(Passed(arc)), enabled))
    ensures BeforeGroup(cfg, t, q, g, enabled && g.fixture.concurrent, 0)
  {
    GroupAtFacts(cfg.root, q);
    UnopenedHasNoChildren(cfg, s, q, g);
    NewGroupHasNoChildren(cfg, s, t, q, g);
  }

  lemma NothingStarted(cfg: Config, s: State, q: Path, g: Group, enabled: bool)
    requires WellNamed(cfg.root) && Controlled(cfg, s)
    requires BeforeGroup(cfg, s, q, g, enabled, |g.groups|)
    ensures InConcurrentLoop(cfg, s, q, g, enabled, 0, {})
  {
    if p :| p in InFlight(s, q) {
      Scheduling.PlacedFacts(cfg, s, p);
      var h, i := Scheduling.ChildIndex(cfg, s, p);
    }
  }

  /** Whether the filter wants test `i` of the group and the test belongs to the concurrent phase. */
  predicate InPhase(f: Filter, q: Path, t: Tree.Test, enabled: bool) {
    ConsiderTest(f, q, t.name) && enabled && t.fixture.concurrent
  }

  lemma InPhaseIs(cfg: Config, s: State, q: Path, g: Group, enabled: bool, i: nat)
    requires InLoops(cfg, s, q, g, enabled) && i < |g.tests|
    ensures InPhase(cfg.filter, q, g.tests[i], enabled) <==>
            InConcurrentPhase(s, q, g, i) && Selection.Selects(cfg.filter, TestChild(q, g, i))
  {
    ChildApart(q, g.tests[i].name, "");
  }

  lemma SkipConcurrentTest(
      cfg: Config, s: State, q: Path, g: Group, enabled: bool, next: nat, inFlight: set<Path>)
    requires InConcurrentLoop(cfg, s, q, g, enabled, next, inFlight) && next < |g.tests|
    requires !InPhase(cfg.filter, q, g.tests[next], enabled)
    ensures InConcurrentLoop(cfg, s, q, g, enabled, next + 1, inFlight)
  {
    InPhaseIs(cfg, s, q, g, enabled, next);
  }

  lemma ConcurrentTestCanStart(
      cfg: Config, s: State, q: Path, g: Group, enabled: bool, next: nat, inFlight: set<Path>)
    requires InConcurrentLoop(cfg, s, q, g, enabled, next, inFlight) && next < |g.tests|
    requires InPhase(cfg.filter, q, g.tests[next], enabled) && |inFlight| < Limit(cfg)
    ensures CanStart(cfg, s, TestChild(q, g, next), OfTest, true, LaunchTest(q, next))
  {
    InPhaseIs(cfg, s, q, g, enabled, next);
  }

  /** A test added or moved on below the group leaves the group as it was and brings the end closer. */
  ghost predicate OneTestMoved(cfg: Config, s: State, t: State, q: Path, p: Path) {
    && p != [] && Parent(p) == q && p in t.nodes && t.nodes == s.nodes[p := t.nodes[p]] && !t.panicked
    && t.nodes[p].task == OfTest && (p in s.nodes ==> IsActive(s, p) && s.nodes[p].task == OfTest)
  }

  lemma TestIsBelow(q: Path, p: Path)
    requires p != [] && Parent(p) == q
    ensures q <= p && q != p
  {
    ParentLast(p);
  }

  lemma OneTestKeepsLoops(cfg: Config, s: State, t: State, q: Path, p: Path, g: Group, enabled: bool)
    requires InLoops(cfg, s, q, g, enabled) && OneTestMoved(cfg, s, t, q, p)
    ensures InLoops(cfg, t, q, g, enabled) && SameElsewhere(s.nodes, t.nodes, q)
    ensures Onward(s, t) && t.nodes[q] == s.nodes[q]
    ensures GroupsDone(cfg, s, q, g, |g.groups|) ==> GroupsDone(cfg, t, q, g, |g.groups|)
  {
    TestIsBelow(q, p);
    OneNodeElsewhere(s.nodes, p, t.nodes[p], q);
  }

  lemma TestsNotStarted(cfg: Config, s: State, t: State, q: Path, g: Group, enabled: bool, next: nat)
    requires InLoops(cfg, s, q, g, enabled) && next < |g.tests|
    requires forall j :: 0 <= j < |g.tests| && (next <= j || !InConcurrentPhase(s, q, g, j)) ==>
               TestChild(q, g, j) !in s.nodes
    requires q in t.nodes && t.nodes[q].concurrent == enabled && InConcurrentPhase(s, q, g, next)
    requires t.nodes.Keys == s.nodes.Keys + {TestChild(q, g, next)}
    ensures forall j :: 0 <= j < |g.tests| && (next + 1 <= j || !InConcurrentPhase(t, q, g, j)) ==>
              TestChild(q, g, j) !in t.nodes
  {
    forall j | 0 <= j < |g.tests| && (next + 1 <= j || !InConcurrentPhase(t, q, g, j))
      ensures TestChild(q, g, j) !in t.nodes
    {
      ChildApart(q, g.tests[next].name, g.tests[j].name);
    }
  }

  lemma StartedIsOneMoved(cfg: Config, s: State, t: State, q: Path, g: Group, enabled: bool, next: nat)
    requires InLoops(cfg, s, q, g, enabled) && next < |g.tests| && Launches(cfg, s, t, LaunchTest(q, next))
    ensures OneTestMoved(cfg, s, t, q, TestChild(q, g, next))
  {
    ChildApart(q, g.tests[next].name, "");
  }

  lemma ConcurrentTestStarted(
      cfg: Config, s: State, t: State, q: Path, g: Group, enabled: bool, next: nat, inFlight: set<Path>)
    requires WellNamed(cfg.root)
    requires InConcurrentLoop(cfg, s, q, g, enabled, next, inFlight) && next < |g.tests|
    requires Launches(cfg, s, t, LaunchTest(q, next)) && InPhase(cfg.filter, q, g.tests[next], enabled)
    ensures InConcurrentLoop(cfg, t, q, g, enabled, next + 1, inFlight + {TestChild(q, g, next)})
    ensures SameElsewhere(s.nodes, t.nodes, q)
  {
    InPhaseIs(cfg, s, q, g, enabled, next);
    StartedIsOneMoved(cfg, s, t, q, g, enabled, next);
    Scheduling.LaunchIsInFlight(cfg, s, t, LaunchTest(q, next));
    OneTestKeepsLoops(cfg, s, t, q, TestChild(q, g, next), g, enabled);
    TestsNotStarted(cfg, s, t, q, g, enabled, next);
  }

  lemma InFlightCanResume(cfg: Config, s: State, q: Path, p: Path)
    requires Controlled(cfg, s) && p in InFlight(s, q)
    ensures IsActive(s, p) && s.nodes[p].task == OfTest && FixtureAt(cfg, p).Some?
  {
    Progress.PlacedHasFixture(cfg, p, s.nodes[p]);
  }

  lemma ResumedInFlight(cfg: Config, s: State, t: State, q: Path, p: Path)
    requires p in InFlight(s, q) && Moves(cfg, s, t, p)
    ensures InFlight(t, q) == if t.nodes[p].pc.Done? then InFlight(s, q) - {p} else InFlight(s, q)
    ensures OneTestMoved(cfg, s, t, q, p)
  {
  }

  lemma TestResumed(
      cfg: Config, s: State, t: State, q: Path, g: Group, enabled: bool, next: nat, inFlight: set<Path>, p: Path)
    requires InConcurrentLoop(cfg, s, q, g, enabled, next, inFlight) && p in inFlight && Moves(cfg, s, t, p)
    ensures InConcurrentLoop(cfg, t, q, g, enabled, next, if t.nodes[p].pc.Done? then inFlight - {p} else inFlight)
    ensures SameElsewhere(s.nodes, t.nodes, q)
  {
    ResumedInFlight(cfg, s, t, q, p);
    OneTestKeepsLoops(cfg, s, t, q, p, g, enabled);
    assert t.nodes.Keys == s.nodes.Keys;
  }

  /** When the phase is over, every test of the phase is done. */
  lemma AllLaunchedAreDone(cfg: Config, s: State, q: Path, g: Group, enabled: bool)
    requires WellNamed(cfg.root) && Controlled(cfg, s)
    requires InConcurrentLoop(cfg, s, q, g, enabled, |g.tests|, {})
    ensures BeforeOtherTest(cfg, s, q, g, enabled, 0)
  {
    forall i | 0 <= i < |g.tests| && InConcurrentPhase(s, q, g, i) && Selection.Selects(cfg.filter, TestChild(q, g, i))
      ensures IsDone(s, TestChild(q, g, i))
    {
      Progress.LaunchedTestIsTest(cfg, s, q, g, i);
      ChildApart(q, g.tests[i].name, "");
      assert TestChild(q, g, i) !in InFlight(s, q);
    }
  }

  lemma OtherTestCanStart(cfg: Config, s: State, q: Path, g: Group, enabled: bool, i: nat)
    requires BeforeOtherTest(cfg, s, q, g, enabled, i) && i < |g.tests|
    requires ConsiderTest(cfg.filter, q, g.tests[i].name) && !(enabled && g.tests[i].fixture.concurrent)
    ensures CanStart(cfg, s, TestChild(q, g, i), OfTest, false, LaunchTest(q, i))
    ensures TestAt(cfg.root, TestChild(q, g, i)) == Some(g.tests[i]) && GroupAt(cfg.root, TestChild(q, g, i)).None?
  {
    ChildApart(q, g.tests[i].name, "");
    TestChildAt(cfg.root, q, g, i);
  }

  lemma OtherTestSkipped(cfg: Config, s: State, q: Path, g: Group, enabled: bool, i: nat)
    requires BeforeOtherTest(cfg, s, q, g, enabled, i) && i < |g.tests|
    requires !(ConsiderTest(cfg.filter, q, g.tests[i].name) && !(enabled && g.tests[i].fixture.concurrent))
    ensures BeforeOtherTest(cfg, s, q, g, enabled, i + 1)
  {
    ChildApart(q, g.tests[i].name, "");
  }

  lemma OtherTestRan(cfg: Config, s: State, t: State, q: Path, g: Group, enabled: bool, i: nat)
    requires BeforeOtherTest(cfg, s, q, g, enabled, i) && i < |g.tests| && !InConcurrentPhase(s, q, g, i)
    requires TestChild(q, g, i) !in s.nodes && IsDone(t, TestChild(q, g, i)) && !t.panicked
    requires t.nodes == s.nodes[TestChild(q, g, i) := t.nodes[TestChild(q, g, i)]]
    requires t.nodes[TestChild(q, g, i)].task == OfTest
    ensures BeforeOtherTest(cfg, t, q, g, enabled, i + 1)
    ensures SameElsewhere(s.nodes, t.nodes, q)
  {
    var p := TestChild(q, g, i);
    ChildApart(q, g.tests[i].name, "");
    OneTestKeepsLoops(cfg, s, t, q, p, g, enabled);
    forall j | i + 1 <= j < |g.tests| && !InConcurrentPhase(t, q, g, j)
      ensures TestChild(q, g, j) !in t.nodes
    {
      ChildApart(q, g.tests[i].name, g.tests[j].name);
    }
  }

  // ---------------------------------------------------------------------------------------------
  // How full the concurrent phase gets
  // ---------------------------------------------------------------------------------------------

  /** The tests of the phase before `next`. */
  ghost function PhaseBefore(f: Filter, q: Path, g: Group, enabled: bool, next: nat): set<nat> {
    set k: nat | k < next && k < |g.tests| && InPhase(f, q, g.tests[k], enabled)
  }

  /** As many as the phase has, up to the concurrency that is configured. */
  ghost function Most(cfg: Config, q: Path, g: Group, enabled: bool): nat {
    var all := |PhaseBefore(cfg.filter, q, g, enabled, |g.tests|)|;
    var limit := if cfg.concurrency == 0 then 1 else cfg.concurrency;
    if all < limit then all else limit
  }

  /** In some state of the run that many tests of the group were in flight at once. */
  ghost predicate WasFull(cfg: Config, run: seq<State>, q: Path, g: Group, enabled: bool) {
    exists s :: s in run && |InFlight(s, q)| == Most(cfg, q, g, enabled)
  }

  /** It has been full, or all that were launched are in flight and more are to come. */
  ghost predicate Filling(
      cfg: Config, run: seq<State>, q: Path, g: Group, enabled: bool, next: nat, inFlight: set<Path>)
  {
    || WasFull(cfg, run, q, g, enabled)
    || |inFlight| == |PhaseBefore(cfg.filter, q, g, enabled, next)| < Most(cfg, q, g, enabled)
  }

  lemma FillingBegins(cfg: Config, run: seq<State>, s: State, q: Path, g: Group, enabled: bool)
    requires s in run && InFlight(s, q) == {}
    ensures Filling(cfg, run, q, g, enabled, 0, {})
  {
    assert PhaseBefore(cfg.filter, q, g, enabled, 0) == {};
    assert |InFlight(s, q)| == 0;
  }

  lemma FillingSkips(cfg: Config, run: seq<State>, q: Path, g: Group, enabled: bool, next: nat, inFlight: set<Path>)
    requires Filling(cfg, run, q, g, enabled, next, inFlight) && next < |g.tests|
    requires !InPhase(cfg.filter, q, g.tests[next], enabled)
    ensures Filling(cfg, run, q, g, enabled, next + 1, inFlight)
  {
    assert PhaseBefore(cfg.filter, q, g, enabled, next + 1) == PhaseBefore(cfg.filter, q, g, enabled, next);
  }

  ghost predicate Started(q: Path, g: Group, next: nat, inFlight: set<Path>, more: nat, left: set<Path>) {
    next < |g.tests| && more == next + 1 && TestChild(q, g, next) !in inFlight
    && left == inFlight + {TestChild(q, g, next)}
  }

  lemma FillingGoesOn(
      cfg: Config, run: seq<State>, longer: seq<State>, s: State, q: Path, g: Group, enabled: bool, next: nat,
      inFlight: set<Path>, more: nat, left: set<Path>)
    requires Filling(cfg, run, q, g, enabled, next, inFlight) && Started(q, g, next, inFlight, more, left)
    requires InPhase(cfg.filter, q, g.tests[next], enabled)
    requires run <= longer && s in longer && InFlight(s, q) == left
    ensures Filling(cfg, longer, q, g, enabled, more, left)
  {
    assert forall t :: t in run ==> t in longer;
    assert PhaseBefore(cfg.filter, q, g, enabled, more) == PhaseBefore(cfg.filter, q, g, enabled, next) + {next};
  }

  lemma WasFullStays(cfg: Config, run: seq<State>, longer: seq<State>, q: Path, g: Group, enabled: bool)
    requires WasFull(cfg, run, q, g, enabled) && run <= longer
    ensures WasFull(cfg, longer, q, g, enabled)
  {
    assert forall t :: t in run ==> t in longer;
  }

  /** Where no test may be started, it has been full. */
  lemma FullBeforePolling(
      cfg: Config, run: seq<State>, q: Path, g: Group, enabled: bool, next: nat, inFlight: set<Path>)
    requires Filling(cfg, run, q, g, enabled, next, inFlight) && next <= |g.tests|
    requires next == |g.tests| || |inFlight| >= Limit(cfg)
    ensures WasFull(cfg, run, q, g, enabled)
  {
  }

  lemma FillingAfter(
      cfg: Config, run: seq<State>, longer: seq<State>, s: State, q: Path, g: Group, enabled: bool, next: nat,
      inFlight: set<Path>, more: nat, left: set<Path>)
    requires Filling(cfg, run, q, g, enabled, next, inFlight) && run <= longer && next <= |g.tests|
    requires s in longer && InFlight(s, q) == left
    requires next < |g.tests| ==> InPhase(cfg.filter, q, g.tests[next], enabled)
    requires Started(q, g, next, inFlight, more, left) || next == |g.tests| || |inFlight| >= Limit(cfg)
    ensures Filling(cfg, longer, q, g, enabled, more, left)
  {
    if Started(q, g, next, inFlight, more, left) {
      FillingGoesOn(cfg, run, longer, s, q, g, enabled, next, inFlight, more, left);
    } else {
      FullBeforePolling(cfg, run, q, g, enabled, next, inFlight);
      WasFullStays(cfg, run, longer, q, g, enabled);
    }
  }

  class RunContext {
    const cfg: Config
    const user: User
    const eager: bool // the runtime starts whatever tests it may before it polls one
    const statistics: Statistics
    const fixtures: FixtureManager.Inner
    var nodes: map<Path, Node>
    var panicked: bool
    var unfinished: nat
    ghost var trace: seq<State>

    function Value(): State
      reads this, statistics, fixtures
    {
      State(statistics.Value(), fixtures.Value(), nodes, panicked, unfinished)
    }

    /** The trace is a run of the engine and of user code that ends in the present state. */
    ghost predicate OnTrack()
      reads this, statistics, fixtures
    {
      && WellNamed(cfg.root) && Behaves(cfg, user)
      && IsRunBy(cfg, user, trace) && trace[|trace| - 1] == Value()
    }

    constructor (cfg: Config, user: User, eager: bool)
      ensures this.cfg == cfg && this.user == user && this.eager == eager && fresh(statistics) && fresh(fixtures)
      ensures Value() == State(EventLog.EMPTY, Fresh(cfg.permanent), map[], false, 0)
    {
      this.cfg, this.user, this.eager := cfg, user, eager;
      statistics := new Statistics();
      fixtures := new FixtureManager.Inner(cfg.permanent);
      nodes, panicked, unfinished, trace := map[], false, 0, [];
    }

    // -------------------------------------------------------------------------------------------
    // Single steps
    // -------------------------------------------------------------------------------------------

    /** Writes down that a step was taken. */
    ghost method Trace(s: State, step: Step)
      requires WellNamed(cfg.root) && Behaves(cfg, user) && IsRunBy(cfg, user, trace) && trace[|trace| - 1] == s
      requires Enabled(cfg, s, step) && IsOfUser(user, step) && Value() == Apply(cfg, s, step)
      modifies this`trace
      ensures OnTrack() && trace == old(trace) + [Value()]
    {
      var i: nat :| i + 1 == |trace|;
      RunByExtends(cfg, user, trace, i, step);
      trace := trace + [Value()];
    }

    /** `record`, and the panic of its assertion. */
    method Record(p: Path, event: Event, node: Node)
      modifies this`nodes, this`panicked, statistics
      ensures Value() == Note(old(Value()), p, event, node)
    {
      var ok := statistics.Record(Join(p), event);
      if ok {
        nodes := nodes[p := node];
      } else {
        panicked := true;
      }
    }

    method Launch(p: Path, task: Task, concurrent: bool, ghost step: Step)
      requires OnTrack() && CanStart(cfg, Value(), p, task, concurrent, step)
      modifies this, statistics
      ensures OnTrack() && Value() == Apply(cfg, old(Value()), step) && trace == old(trace) + [Value()]
      ensures panicked || Launches(cfg, old(Value()), Value(), step)
    {
      ghost var s := Value();
      Record(p, SetupLaunched, Node(task, Starting, concurrent));
      StepLaunches(cfg, s, step);
      Trace(s, step);
    }

    /** The spawned setup: the lock, the manager, and how it ended. */
    method RunSetup(p: Path, ty: TypeId) returns (ghost step: Step)
      requires OnTrack() && !panicked && PcIs(Value(), p, Starting) && FixtureAt(cfg, p) == Some(ty)
      modifies this, fixtures
      ensures step == if user.timesOut(p) then TimeOutSetup(p) else RunSetupOf(p, user.plan(p))
      ensures Enabled(cfg, old(Value()), step)
      ensures OnTrack() && Value() == Apply(cfg, old(Value()), step) && trace == old(trace) + [Value()]
      ensures panicked || Moves(cfg, old(Value()), Value(), p)
    {
      ghost var s := Value();
      if user.timesOut(p) {
        step := TimeOutSetup(p);
        nodes := nodes[p := nodes[p].(pc := SetUpDone(Failed))];
      } else {
        step := RunSetupOf(p, user.plan(p));
        var result := fixtures.Setup(ty, user.plan(p));
        nodes := nodes[p := nodes[p].(pc := SetUpDone(result))];
      }
      StepAdvances(cfg, s, step);
      Trace(s, step);
    }

    method RecordSetupOf(p: Path)
      requires OnTrack() && Enabled(cfg, Value(), RecordSetup(p))
      modifies this, statistics
      ensures OnTrack() && Value() == Apply(cfg, old(Value()), RecordSetup(p)) && trace == old(trace) + [Value()]
      ensures panicked || Moves(cfg, old(Value()), Value(), p)
    {
      ghost var s := Value();
      Record(p, SetupEvent(nodes[p].task, nodes[p].pc.result), AfterSetup(cfg, p, nodes[p]));
      StepAdvances(cfg, s, RecordSetup(p));
      Trace(s, RecordSetup(p));
    }

    method LaunchBodyOf(p: Path)
      requires OnTrack() && Enabled(cfg, Value(), LaunchBody(p))
      modifies this, statistics
      ensures OnTrack() && Value() == Apply(cfg, old(Value()), LaunchBody(p)) && trace == old(trace) + [Value()]
      ensures panicked || Moves(cfg, old(Value()), Value(), p)
    {
      ghost var s := Value();
      Record(p, TestLaunched, nodes[p].(pc := Running(nodes[p].pc.arc)));
      StepAdvances(cfg, s, LaunchBody(p));
      Trace(s, LaunchBody(p));
    }

    /** The spawned body. */
    method RunBodyOf(p: Path)
      requires OnTrack() && Enabled(cfg, Value(), RunBody(p, user.passes(p)))
      modifies this
      ensures OnTrack() && Value() == Apply(cfg, old(Value()), RunBody(p, user.passes(p)))
      ensures trace == old(trace) + [Value()]
      ensures panicked || Moves(cfg, old(Value()), Value(), p)
    {
      ghost var s := Value();
      nodes := nodes[p := nodes[p].(pc := Ran(nodes[p].pc.arc, user.passes(p)))];
      StepAdvances(cfg, s, RunBody(p, user.passes(p)));
      Trace(s, RunBody(p, user.passes(p)));
    }

    method RecordBodyOf(p: Path)
      requires OnTrack() && Enabled(cfg, Value(), RecordBody(p))
      modifies this, statistics
      ensures OnTrack() && Value() == Apply(cfg, old(Value()), RecordBody(p)) && trace == old(trace) + [Value()]
      ensures panicked || Moves(cfg, old(Value()), Value(), p)
    {
      ghost var s := Value();
      var pc := nodes[p].pc;
      Record(p, if pc.passed then TestPassed else TestFailed, nodes[p].(pc := Judged(pc.arc, pc.passed)));
      StepAdvances(cfg, s, RecordBody(p));
      Trace(s, RecordBody(p));
    }

    method Drop(p: Path)
      requires OnTrack() && Enabled(cfg, Value(), DropFixture(p))
      modifies this
      ensures OnTrack() && Value() == Apply(cfg, old(Value()), DropFixture(p)) && trace == old(trace) + [Value()]
      ensures panicked || Moves(cfg, old(Value()), Value(), p)
    {
      ghost var s := Value();
      nodes := nodes[p := nodes[p].(pc := Closing(Finished(nodes[p].task == OfGroup || nodes[p].pc.passed)))];
      StepAdvances(cfg, s, DropFixture(p));
      Trace(s, DropFixture(p));
    }

    method LaunchTeardownOf(p: Path)
      requires OnTrack() && Enabled(cfg, Value(), LaunchTeardown(p))
      modifies this, statistics
      ensures OnTrack() && Value() == Apply(cfg, old(Value()), LaunchTeardown(p)) && trace == old(trace) + [Value()]
      ensures panicked || Moves(cfg, old(Value()), Value(), p)
    {
      ghost var s := Value();
      Record(p, TeardownLaunched, nodes[p].(pc := TearingDown(nodes[p].pc.verdict)));
      StepAdvances(cfg, s, LaunchTeardown(p));
      Trace(s, LaunchTeardown(p));
    }

    /** The spawned sweep. */
    method RunTeardownOf(p: Path) returns (ghost step: Step)
      requires OnTrack() && !panicked && p in nodes && nodes[p].pc.TearingDown?
      modifies this, fixtures
      ensures step.RunTeardown? && step.path == p && Enabled(cfg, old(Value()), step)
      ensures OnTrack() && Value() == Apply(cfg, old(Value()), step) && trace == old(trace) + [Value()]
      ensures panicked || Moves(cfg, old(Value()), Value(), p)
    {
      ghost var s := Value();
      var ok, count;
      ghost var order;
      ok, count, order := fixtures.Teardown(Held(Value()), user.stop(p));
      var broke := !ok && count > 0 && user.breaks(p);
      nodes := nodes[p := nodes[p].(pc := TornDown(nodes[p].pc.verdict, ok))];
      unfinished := unfinished + if broke then 1 else 0;
      step := RunTeardown(p, order, ok, broke);
      StepAdvances(cfg, s, step);
      Trace(s, step);
    }

    method RecordTeardownOf(p: Path)
      requires OnTrack() && Enabled(cfg, Value(), RecordTeardown(p))
      modifies this, statistics
      ensures OnTrack() && Value() == Apply(cfg, old(Value()), RecordTeardown(p)) && trace == old(trace) + [Value()]
      ensures panicked || Moves(cfg, old(Value()), Value(), p)
    {
      ghost var s := Value();
      var pc := nodes[p].pc;
      Record(p, if pc.ok then TeardownPassed else TeardownFailed, nodes[p].(pc := Done(pc.verdict, pc.ok)));
      StepAdvances(cfg, s, RecordTeardown(p));
      Trace(s, RecordTeardown(p));
    }

    // -------------------------------------------------------------------------------------------
    // The functions of `task`
    // -------------------------------------------------------------------------------------------

    /** `task::setup`, from its launch on. */
    method AwaitSetup(p: Path, ty: TypeId) returns (result: SetupResult)
      requires OnTrack() && !panicked && PcIs(Value(), p, Starting) && FixtureAt(cfg, p) == Some(ty)
      modifies this, statistics, fixtures
      ensures OnTrack() && old(trace) <= trace
      ensures !panicked ==>
                && p in nodes && nodes == old(nodes)[p := nodes[p]]
                && nodes[p] == AfterSetup(cfg, p, old(nodes[p]).(pc := SetUpDone(result)))
    {
      ghost var taken := RunSetup(p, ty);
      ghost var a := nodes;
      result := nodes[p].pc.result;
      RecordSetupOf(p);
      if !panicked {
        UpdateAgain(old(nodes), a, nodes, p);
      }
    }

    /** `task::setup`: what it returns is where it leaves the node. */
    method SetUp(p: Path, task: Task, ty: TypeId, concurrent: bool, ghost step: Step) returns (result: SetupResult)
      requires OnTrack() && CanStart(cfg, Value(), p, task, concurrent, step) && FixtureAt(cfg, p) == Some(ty)
      modifies this, statistics, fixtures
      ensures OnTrack() && old(trace) <= trace
      ensures !panicked ==>
                && p !in old(nodes) && p in nodes && nodes == old(nodes)[p := nodes[p]]
                && nodes[p] == AfterSetup(cfg, p, Node(task, SetUpDone(result), concurrent))
    {
      Launch(p, task, concurrent, step);
      if panicked {
        return Failed;
      }
      ghost var a := nodes;
      result := AwaitSetup(p, ty);
      if !panicked {
        UpdateAgain(old(nodes), a, nodes, p);
      }
    }

    /** `task::test` */
    method Test(p: Path)
      requires OnTrack() && !panicked && IsOpen(Value(), p) && nodes[p].task == OfTest
      modifies this, statistics
      ensures OnTrack() && old(trace) <= trace
      ensures !panicked ==> p in nodes && nodes == old(nodes)[p := nodes[p]] && nodes[p].pc.Judged?
                            && nodes[p].task == OfTest
    {
      LaunchBodyOf(p);
      if panicked {
        return;
      }
      ghost var a := nodes;
      RunBodyOf(p);
      ghost var b := nodes;
      RecordBodyOf(p);
      if !panicked {
        UpdateAgain(old(nodes), a, b, p);
        UpdateAgain(old(nodes), b, nodes, p);
      }
    }

    /** `task::teardown` */
    method TearDown(p: Path)
      requires OnTrack() && !panicked && p in nodes && nodes[p].pc.Closing?
      modifies this, statistics, fixtures
      ensures OnTrack() && old(trace) <= trace
      ensures !panicked ==> p in nodes && nodes == old(nodes)[p := nodes[p]] && nodes[p].pc.Done?
                            && nodes[p].task == old(nodes[p].task)
    {
      LaunchTeardownOf(p);
      if panicked {
        return;
      }
      ghost var a := nodes;
      ghost var taken := RunTeardownOf(p);
      ghost var b := nodes;
      RecordTeardownOf(p);
      if !panicked {
        UpdateAgain(old(nodes), a, b, p);
        UpdateAgain(old(nodes), b, nodes, p);
      }
    }

    // -------------------------------------------------------------------------------------------
    // One test
    // -------------------------------------------------------------------------------------------

    /** `run_test`, after a setup that passed. */
    method RunOpenTest(p: Path)
      requires OnTrack() && !panicked && IsOpen(Value(), p) && nodes[p].task == OfTest
      modifies this, statistics, fixtures
      ensures OnTrack() && old(trace) <= trace
      ensures !panicked ==> p in nodes && nodes == old(nodes)[p := nodes[p]] && nodes[p].pc.Done?
                            && nodes[p].task == OfTest
    {
      Test(p);
      if panicked {
        return;
      }
      ghost var a := nodes;
      Drop(p);
      ghost var b := nodes;
      TearDown(p);
      if !panicked {
        UpdateAgain(old(nodes), a, b, p);
        UpdateAgain(old(nodes), b, nodes, p);
      }
    }

    /** `run_test` */
    method RunTest(p: Path, t: Tree.Test, concurrent: bool, ghost step: Step)
      requires OnTrack() && CanStart(cfg, Value(), p, OfTest, concurrent, step)
      requires TestAt(cfg.root, p) == Some(t) && GroupAt(cfg.root, p).None?
      modifies this, statistics, fixtures
      ensures OnTrack() && old(trace) <= trace
      ensures !panicked ==> p in nodes && nodes == old(nodes)[p := nodes[p]] && nodes[p].pc.Done?
                            && nodes[p].task == OfTest
    {
      var result := SetUp(p, OfTest, t.fixture, concurrent, step);
      if panicked {
        return;
      }
      ghost var a := nodes;
      if result.Passed? {
        RunOpenTest(p);
      } else {
        TearDown(p);
      }
      if !panicked {
        UpdateAgain(old(nodes), a, nodes, p);
      }
    }

    /** The next step of a test that is in flight: where `run_test` goes on when it is polled again. */
    method Resume(p: Path)
      requires OnTrack() && !panicked && IsActive(Value(), p) && nodes[p].task == OfTest && FixtureAt(cfg, p).Some?
      modifies this, statistics, fixtures
      ensures OnTrack() && old(trace) <= trace
      ensures panicked || Moves(cfg, old(Value()), Value(), p)
    {
      ghost var taken;
      match nodes[p].pc {
        case Starting => taken := RunSetup(p, FixtureAt(cfg, p).value);
        case SetUpDone(_) => RecordSetupOf(p);
        case Open(_) => LaunchBodyOf(p);
        case Running(_) => RunBodyOf(p);
        case Ran(_, _) => RecordBodyOf(p);
        case Judged(_, _) => Drop(p);
        case Closing(_) => LaunchTeardownOf(p);
        case TearingDown(_) => taken := RunTeardownOf(p);
        case TornDown(_, _) => RecordTeardownOf(p);
      }
    }

    // -------------------------------------------------------------------------------------------
    // A group
    // -------------------------------------------------------------------------------------------

    lemma StateIsControlled()
      requires OnTrack()
      ensures Controlled(cfg, Value())
    {
      var i: nat :| i + 1 == |trace|;
      RunIsControlled(cfg, trace, i);
    }

    method RunSubgroups(q: Path, g: Group, enabled: bool)
      requires OnTrack() && BeforeGroup(cfg, Value(), q, g, enabled, 0)
      modifies this, statistics, fixtures
      ensures OnTrack() && old(trace) <= trace
      ensures !panicked ==>
                && BeforeGroup(cfg, Value(), q, g, enabled, |g.groups|)
                && SameElsewhere(old(nodes), nodes, q) && nodes[q] == old(nodes)[q]
      decreases g, 0
    {
      for i := 0 to |g.groups|
        invariant OnTrack() && old(trace) <= trace
        invariant BeforeGroup(cfg, Value(), q, g, enabled, i)
        invariant SameElsewhere(old(nodes), nodes, q) && nodes[q] == old(nodes)[q]
      {
        ghost var s := Value();
        ChildApart(q, g.groups[i].name, "");
        if ConsiderGroup(cfg.filter, q, g.groups[i].name) {
          GroupCanStart(cfg, s, q, g, enabled, i);
          RunGroup(GroupChild(q, g, i), g.groups[i], enabled, LaunchGroup(q, i));
          if panicked {
            return;
          }
          GroupRan(cfg, s, Value(), q, g, enabled, i);
          ElsewhereTrans(old(nodes), s.nodes, nodes, q, q);
        }
      }
    }

    lemma ComesToAnEnd()
      requires OnTrack()
      ensures Distance(cfg, Value()) >= 0
    {
      StateIsControlled();
      DistanceIsNat(cfg, Value());
    }

    /** Starts the next test of the concurrent phase. */
    method StartTest(q: Path, g: Group, enabled: bool, next: nat, inFlight: set<Path>)
      requires OnTrack() && InConcurrentLoop(cfg, Value(), q, g, enabled, next, inFlight) && next < |g.tests|
      requires InPhase(cfg.filter, q, g.tests[next], enabled) && |inFlight| < Limit(cfg)
      modifies this, statistics
      ensures OnTrack() && old(trace) <= trace
      ensures !panicked ==>
                && InConcurrentLoop(cfg, Value(), q, g, enabled, next + 1, inFlight + {TestChild(q, g, next)})
                && SameElsewhere(old(nodes), nodes, q)
                && 0 <= Distance(cfg, Value()) < old(Distance(cfg, Value()))
                && TestChild(q, g, next) !in inFlight
    {
      ghost var s := Value();
      ConcurrentTestCanStart(cfg, s, q, g, enabled, next, inFlight);
      Launch(TestChild(q, g, next), OfTest, true, LaunchTest(q, next));
      StepComesCloser(cfg, s, LaunchTest(q, next));
      if !panicked {
        ConcurrentTestStarted(cfg, s, Value(), q, g, enabled, next, inFlight);
        ComesToAnEnd();
      }
    }

    /** Polls one of the tests in flight. */
    method PollTest(q: Path, g: Group, enabled: bool, next: nat, inFlight: set<Path>) returns (left: set<Path>)
      requires OnTrack() && InConcurrentLoop(cfg, Value(), q, g, enabled, next, inFlight) && inFlight != {}
      modifies this, statistics, fixtures
      ensures OnTrack() && old(trace) <= trace
      ensures !panicked ==>
                && InConcurrentLoop(cfg, Value(), q, g, enabled, next, left)
                && SameElsewhere(old(nodes), nodes, q)
                && 0 <= Distance(cfg, Value()) < old(Distance(cfg, Value()))
    {
      ghost var s := Value();
      StateIsControlled();
      var p :| p in inFlight;
      left := inFlight;
      InFlightCanResume(cfg, s, q, p);
      Resume(p);
      if !panicked {
        TestResumed(cfg, s, Value(), q, g, enabled, next, inFlight, p);
        ComesCloser(cfg, s, Value(), RecordSetup(p));
        ComesToAnEnd();
        if nodes[p].pc.Done? {
          left := inFlight - {p};
        }
      }
    }

    /** Starts the next test of the phase while fewer than the limit are in flight, or polls one that is, whichever
        comes first. */
    method StartOrPoll(q: Path, g: Group, enabled: bool, next: nat, inFlight: set<Path>)
      returns (more: nat, left: set<Path>)
      requires OnTrack() && InConcurrentLoop(cfg, Value(), q, g, enabled, next, inFlight)
      requires next < |g.tests| || inFlight != {}
      requires next < |g.tests| ==> InPhase(cfg.filter, q, g.tests[next], enabled)
      modifies this, statistics, fixtures
      ensures OnTrack() && old(trace) <= trace
      ensures !panicked ==>
                && InConcurrentLoop(cfg, Value(), q, g, enabled, more, left)
                && SameElsewhere(old(nodes), nodes, q)
                && 0 <= Distance(cfg, Value()) < old(Distance(cfg, Value()))
                && (|| Started(q, g, next, inFlight, more, left)
                    || (more == next && (eager ==> next == |g.tests| || |inFlight| >= Limit(cfg))))
    {
      more := next;
      var startsFirst: bool := *;
      if next < |g.tests| && |inFlight| < Limit(cfg) && (eager || startsFirst || inFlight == {}) {
        StartTest(q, g, enabled, next, inFlight);
        more, left := next + 1, inFlight + {TestChild(q, g, next)};
      } else {
        left := PollTest(q, g, enabled, next, inFlight);
      }
    }

    /** One turn of the loop: it passes over a test that is not of the phase, or starts or polls one. */
    method Turn(q: Path, g: Group, enabled: bool, next: nat, inFlight: set<Path>) returns (more: nat, left: set<Path>)
      requires OnTrack() && InConcurrentLoop(cfg, Value(), q, g, enabled, next, inFlight)
      requires next < |g.tests| || inFlight != {}
      requires eager ==> Filling(cfg, trace, q, g, enabled, next, inFlight)
      modifies this, statistics, fixtures
      ensures OnTrack() && old(trace) <= trace
      ensures !panicked ==>
                && InConcurrentLoop(cfg, Value(), q, g, enabled, more, left)
                && SameElsewhere(old(nodes), nodes, q)
                && (eager ==> Filling(cfg, trace, q, g, enabled, more, left))
                && (|| 0 <= Distance(cfg, Value()) < old(Distance(cfg, Value()))
                    || (Value() == old(Value()) && more == next + 1))
    {
      if next < |g.tests| && !InPhase(cfg.filter, q, g.tests[next], enabled) {
        SkipConcurrentTest(cfg, Value(), q, g, enabled, next, inFlight);
        if eager {
          FillingSkips(cfg, trace, q, g, enabled, next, inFlight);
        }
        return next + 1, inFlight;
      }
      more, left := StartOrPoll(q, g, enabled, next, inFlight);
      if eager && !panicked {
        FillingAfter(cfg, old(trace), trace, Value(), q, g, enabled, next, inFlight, more, left);
      }
    }

    /** `for_each_concurrent`. If the runtime starts tests before it polls, as many as there are come to be in flight at
        once, up to the concurrency that is configured. */
    method RunConcurrentTests(q: Path, g: Group, enabled: bool)
      requires OnTrack() && BeforeGroup(cfg, Value(), q, g, enabled, |g.groups|)
      modifies this, statistics, fixtures
      ensures OnTrack() && old(trace) <= trace
      ensures !panicked ==>
                && BeforeOtherTest(cfg, Value(), q, g, enabled, 0)
                && SameElsewhere(old(nodes), nodes, q)
                && (eager ==> WasFull(cfg, trace, q, g, enabled))
    {
      var next: nat, inFlight := 0, {};
      StateIsControlled();
      NothingStarted(cfg, Value(), q, g, enabled);
      FillingBegins(cfg, trace, Value(), q, g, enabled);
      ComesToAnEnd();
      while next < |g.tests| || inFlight != {}
        invariant OnTrack() && old(trace) <= trace
        invariant InConcurrentLoop(cfg, Value(), q, g, enabled, next, inFlight)
        invariant SameElsewhere(old(nodes), nodes, q)
        invariant eager ==> Filling(cfg, trace, q, g, enabled, next, inFlight)
        invariant Distance(cfg, Value()) >= 0
        decreases Distance(cfg, Value()), |g.tests| - next
      {
        ghost var before := nodes;
        next, inFlight := Turn(q, g, enabled, next, inFlight);
        if panicked {
          return;
        }
        ElsewhereTrans(old(nodes), before, nodes, q, q);
      }
      StateIsControlled();
      AllLaunchedAreDone(cfg, Value(), q, g, enabled);
      if eager {
        FullBeforePolling(cfg, trace, q, g, enabled, next, inFlight);
      }
    }

    method RunOtherTests(q: Path, g: Group, enabled: bool)
      requires OnTrack() && BeforeOtherTest(cfg, Value(), q, g, enabled, 0)
      modifies this, statistics, fixtures
      ensures OnTrack() && old(trace) <= trace
      ensures !panicked ==>
                && BeforeOtherTest(cfg, Value(), q, g, enabled, |g.tests|)
                && SameElsewhere(old(nodes), nodes, q)
    {
      for i := 0 to |g.tests|
        invariant OnTrack() && old(trace) <= trace
        invariant BeforeOtherTest(cfg, Value(), q, g, enabled, i)
        invariant SameElsewhere(old(nodes), nodes, q)
      {
        ghost var s := Value();
        ChildApart(q, g.tests[i].name, "");
        if ConsiderTest(cfg.filter, q, g.tests[i].name) && !(enabled && g.tests[i].fixture.concurrent) {
          OtherTestCanStart(cfg, s, q, g, enabled, i);
          RunTest(TestChild(q, g, i), g.tests[i], false, LaunchTest(q, i));
          if panicked {
            return;
          }
          OtherTestRan(cfg, s, Value(), q, g, enabled, i);
          ElsewhereTrans(old(nodes), s.nodes, nodes, q, q);
        } else {
          OtherTestSkipped(cfg, s, q, g, enabled, i);
        }
      }
    }

    /** `run_group`; `q` is the path of the group. */
    method RunGroup(q: Path, g: Group, enabled: bool, ghost step: Step)
      requires OnTrack() && CanStart(cfg, Value(), q, OfGroup, enabled, step) && GroupAt(cfg.root, q) == Some(g)
      modifies this, statistics, fixtures
      ensures OnTrack() && old(trace) <= trace
      ensures !panicked ==> SameElsewhere(old(nodes), nodes, q) && IsDone(Value(), q)
      decreases g, 2
    {
      StateIsControlled();
      ghost var s := Value();
      var result := SetUp(q, OfGroup, g.fixture, enabled, step);
      if panicked {
        return;
      }
      ghost var before := nodes;
      OneNodeElsewhere(s.nodes, q, nodes[q], q);
      if result.Passed? {
        GroupOpened(cfg, s, Value(), q, g, enabled, result.arc);
        RunOpenGroup(q, g, enabled && g.fixture.concurrent);
      } else {
        TearDown(q);
        if !panicked {
          OneNodeElsewhere(before, q, nodes[q], q);
        }
      }
      if !panicked {
        ElsewhereTrans(s.nodes, before, nodes, q, q);
      }
    }

    /** The end of `run_group`: its loops are through. */
    method Leave(q: Path, g: Group, enabled: bool)
      requires OnTrack() && BeforeOtherTest(cfg, Value(), q, g, enabled, |g.tests|)
      modifies this, statistics, fixtures
      ensures OnTrack() && old(trace) <= trace
      ensures !panicked ==> SameElsewhere(old(nodes), nodes, q) && IsDone(Value(), q)
    {
      ghost var before := nodes;
      Drop(q);
      TearDown(q);
      if !panicked {
        OneNodeElsewhere(before, q, nodes[q], q);
      }
    }

    /** `run_group`, after a setup that passed. */
    method RunOpenGroup(q: Path, g: Group, enabled: bool)
      requires OnTrack() && BeforeGroup(cfg, Value(), q, g, enabled, 0)
      modifies this, statistics, fixtures
      ensures OnTrack() && old(trace) <= trace
      ensures !panicked ==> SameElsewhere(old(nodes), nodes, q) && IsDone(Value(), q)
      decreases g, 1
    {
      RunSubgroups(q, g, enabled);
      if panicked {
        return;
      }
      ghost var a := nodes;
      RunConcurrentTests(q, g, enabled);
      if panicked {
        return;
      }
      ElsewhereTrans(old(nodes), a, nodes, q, q);
      ghost var b := nodes;
      RunOtherTests(q, g, enabled);
      if panicked {
        return;
      }
      ElsewhereTrans(old(nodes), b, nodes, q, q);
      ghost var c := nodes;
      Leave(q, g, enabled);
      if !panicked {
        ElsewhereTrans(old(nodes), c, nodes, q, q);
      }
    }

    // -------------------------------------------------------------------------------------------
    // The whole run
    // -------------------------------------------------------------------------------------------

    /** The first part of `run`: defines every listed test, and includes those the filter wants. */
    method DefineTests() returns (empty: bool)
      requires statistics.Value() == EventLog.EMPTY
      modifies statistics
      ensures statistics.Value() == StartLog(cfg)
      ensures empty <==> StartLog(cfg).included == {}
    {
      empty := true;
      var names := TestNames(cfg.root);
      for i := 0 to |names|
        invariant statistics.Value() == ListLog(cfg, names[..i])
        invariant empty <==> statistics.included == {}
      {
        var name := FullName(cfg, names[i]);
        var ok := statistics.Record(name, TestDefined);
        var wanted := Includes(cfg, names[i]);
        if wanted {
          empty := false;
          ok := statistics.Record(name, TestIncluded);
          assert name in statistics.included;
        }
        ListOneMore(cfg, names, i);
      }
      assert names[..|names|] == names;
    }

    /** `run` */
    method Run()
      requires WellNamed(cfg.root) && Behaves(cfg, user)
      requires Value() == State(EventLog.EMPTY, Fresh(cfg.permanent), map[], false, 0)
      modifies this, statistics, fixtures
      ensures OnTrack()
      ensures panicked || statistics.included == {} || IsDone(Value(), RootPath(cfg))
    {
      var empty := DefineTests();
      trace := [Value()];
      if !empty {
        assert GroupAt(cfg.root, RootPath(cfg)) == Some(cfg.root);
        RunGroup(RootPath(cfg), cfg.root, true, LaunchRoot);
      }
    }
  }

  lemma ListOneMore(cfg: Config, names: seq<string>, i: nat)
    requires i < |names|
    ensures var before, after, name := ListLog(cfg, names[..i]), ListLog(cfg, names[..i + 1]), FullName(cfg, names[i]);
            && after.defined == before.defined + {name}
            && after.included == before.included + (if Includes(cfg, names[i]) then {name} else {})
            && after.events == before.events
  {
    assert names[..i + 1] == names[..i] + [names[i]];
  }
}
