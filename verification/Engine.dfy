/**
 The engine as a transition system: a state, labelled steps, and every order in which the steps may be taken.

 Each group and each test is a node with a program counter. The steps of a node are the awaits and the records of
 `run_group`, `run_test` and the functions of `task`; a launch waits for its turn in the parent's loops. A setup and
 a sweep are one step each, since each holds the lock of the fixture manager from its start to its end. What user
 code does, and how it ends, is chosen by the label of the step.
 */
module Engine {
  import opened Common
  import opened Paths
  import opened Tree
  import Filters
  import opened Selection
  import opened EventLog
  import opened Fixtures

  datatype Config = Config(root: Group, filter: Filters.Filter, concurrency: nat, permanent: set<TypeId>)

  /** `with_concurrency` */
  function Limit(cfg: Config): nat {
    if cfg.concurrency > 0 then cfg.concurrency else 1
  }

  /** How the work of a node ended, before its teardown. */
  datatype Verdict = WasSkipped | SetupBroke | Finished(passed: bool)

  datatype Pc =
    | Starting                            // SetupLaunched is recorded
    | SetUpDone(result: SetupResult)      // the setup has returned
    | Open(arc: Arc)                      // SetupPassed is recorded; a group runs its children now
    | Running(arc: Arc)                   // TestLaunched is recorded; the body has a clone of the handle
    | Ran(arc: Arc, passed: bool)         // the body has returned
    | Judged(arc: Arc, passed: bool)     // the outcome of the body is recorded
    | Closing(verdict: Verdict)           // the fixture is dropped, or there never was one
    | TearingDown(verdict: Verdict)       // TeardownLaunched is recorded
    | TornDown(verdict: Verdict, ok: bool) // the sweep has returned
    | Done(verdict: Verdict, ok: bool)    // its outcome is recorded

  /** `concurrent` is the flag of the context: of a group, what it passes to its children once it is open; of a test,
      whether it was launched in the concurrent phase. */
  datatype Node = Node(task: Task, pc: Pc, concurrent: bool)

  /** `unfinished` counts the instances whose teardown was started and did not complete. */
  datatype State = State(log: Log, fixtures: Manager, nodes: map<Path, Node>, panicked: bool, unfinished: nat)

  datatype Step =
    | LaunchRoot
    | LaunchGroup(parent: Path, i: nat)
    | LaunchTest(parent: Path, i: nat)
    | RunSetupOf(path: Path, plan: Plan)
    | TimeOutSetup(path: Path)
    | RecordSetup(path: Path)
    | LaunchBody(path: Path)
    | RunBody(path: Path, passed: bool)
    | RecordBody(path: Path)
    | DropFixture(path: Path)
    | LaunchTeardown(path: Path)
    | RunTeardown(path: Path, order: seq<TypeId>, ok: bool, broke: bool) // a teardown broke off, the last one
    | RecordTeardown(path: Path)

  // ---------------------------------------------------------------------------------------------
  // The start of a run
  // ---------------------------------------------------------------------------------------------

  /** Whether `run` includes a listed name: it asks the filter about the parts of the name, the root put first. */
  predicate Includes(cfg: Config, name: string) {
    var parts := Split(name);
    Filters.ConsiderTest(cfg.filter, [cfg.root.name] + Parent(parts), Last(parts))
  }

  function FullName(cfg: Config, name: string): string {
    cfg.root.name + SEP + name
  }

  /** The log after the listed names are gone through: all are defined, those the filter wants are included. */
  function ListLog(cfg: Config, names: seq<string>): Log {
    Log(set n | n in names :: FullName(cfg, n), set n | n in names && Includes(cfg, n) :: FullName(cfg, n), [])
  }

  function StartLog(cfg: Config): Log {
    ListLog(cfg, TestNames(cfg.root))
  }

  function Start(cfg: Config): State {
    State(StartLog(cfg), Fresh(cfg.permanent), map[], false, 0)
  }

  // ---------------------------------------------------------------------------------------------
  // Reading a state
  // ---------------------------------------------------------------------------------------------

  function RootPath(cfg: Config): Path {
    [cfg.root.name]
  }

  predicate PcIs(s: State, p: Path, pc: Pc) {
    p in s.nodes && s.nodes[p].pc == pc
  }

  predicate IsOpen(s: State, p: Path) {
    p in s.nodes && s.nodes[p].pc.Open?
  }

  predicate IsDone(s: State, p: Path) {
    p in s.nodes && s.nodes[p].pc.Done?
  }

  /** Launched and not done. */
  predicate IsActive(s: State, p: Path) {
    p in s.nodes && !s.nodes[p].pc.Done?
  }

  function HandlesOf(pc: Pc): multiset<Arc> {
    match pc
    case SetUpDone(result) => if result.Passed? then multiset{result.arc} else multiset{}
    case Open(arc) => multiset{arc}
    case Running(arc) => multiset{arc, arc}
    case Ran(arc, _) => multiset{arc}
    case Judged(arc, _) => multiset{arc}
    case _ => multiset{}
  }

  /** The handles outside the cache: those of the tests and groups. */
  function Held(s: State): Holders {
    map p | p in s.nodes :: HandlesOf(s.nodes[p].pc)
  }

  /** The fixture type of a group or test. */
  function FixtureAt(cfg: Config, p: Path): Option<TypeId> {
    match GroupAt(cfg.root, p)
    case Some(g) => Some(g.fixture)
    case None => match TestAt(cfg.root, p) case Some(t) => Some(t.fixture) case None => None
  }

  /** Whether the group at `q` runs its test `i` in the concurrent phase. */
  predicate InConcurrentPhase(s: State, q: Path, g: Group, i: nat)
    requires q in s.nodes && i < |g.tests|
  {
    s.nodes[q].concurrent && g.tests[i].fixture.concurrent
  }

  ghost predicate GroupsDone(cfg: Config, s: State, q: Path, g: Group, below: nat)
    requires below <= |g.groups|
  {
    forall i :: 0 <= i < below && Enters(cfg.filter, GroupChild(q, g, i)) ==> IsDone(s, GroupChild(q, g, i))
  }

  ghost predicate ConcurrentTestsDone(cfg: Config, s: State, q: Path, g: Group)
    requires q in s.nodes
  {
    forall i :: 0 <= i < |g.tests| && InConcurrentPhase(s, q, g, i) && Selects(cfg.filter, TestChild(q, g, i)) ==>
      IsDone(s, TestChild(q, g, i))
  }

  ghost predicate OtherTestsDone(cfg: Config, s: State, q: Path, g: Group, below: nat)
    requires q in s.nodes && below <= |g.tests|
  {
    forall i :: 0 <= i < below && !InConcurrentPhase(s, q, g, i) && Selects(cfg.filter, TestChild(q, g, i)) ==>
      IsDone(s, TestChild(q, g, i))
  }

  /** `for_each_concurrent` takes the tests in order. */
  ghost predicate ConcurrentTestsLaunched(cfg: Config, s: State, q: Path, g: Group, below: nat)
    requires q in s.nodes && below <= |g.tests|
  {
    forall i :: 0 <= i < below && InConcurrentPhase(s, q, g, i) && Selects(cfg.filter, TestChild(q, g, i)) ==>
      TestChild(q, g, i) in s.nodes
  }

  ghost predicate ChildrenDone(cfg: Config, s: State, q: Path, g: Group)
    requires q in s.nodes
  {
    && GroupsDone(cfg, s, q, g, |g.groups|)
    && ConcurrentTestsDone(cfg, s, q, g)
    && OtherTestsDone(cfg, s, q, g, |g.tests|)
  }

  /** The tests of a group that are in flight. */
  function InFlight(s: State, q: Path): set<Path> {
    set p | p in s.nodes && p != [] && Parent(p) == q && s.nodes[p].task == OfTest && !s.nodes[p].pc.Done?
  }

  // ---------------------------------------------------------------------------------------------
  // Steps
  // ---------------------------------------------------------------------------------------------

  ghost predicate CanLaunchGroup(cfg: Config, s: State, q: Path, i: nat) {
    && IsOpen(s, q) && s.nodes[q].task == OfGroup
    && GroupAt(cfg.root, q).Some?
    && var g := GroupAt(cfg.root, q).value;
    && i < |g.groups|
    && GroupChild(q, g, i) !in s.nodes
    && Enters(cfg.filter, GroupChild(q, g, i))
    && GroupsDone(cfg, s, q, g, i)
  }

  ghost predicate CanLaunchTest(cfg: Config, s: State, q: Path, i: nat) {
    && IsOpen(s, q) && s.nodes[q].task == OfGroup
    && GroupAt(cfg.root, q).Some?
    && var g := GroupAt(cfg.root, q).value;
    && i < |g.tests|
    && TestChild(q, g, i) !in s.nodes
    && Selects(cfg.filter, TestChild(q, g, i))
    && GroupsDone(cfg, s, q, g, |g.groups|)
    && if InConcurrentPhase(s, q, g, i) then
         ConcurrentTestsLaunched(cfg, s, q, g, i) && |InFlight(s, q)| < Limit(cfg)
       else
         ConcurrentTestsDone(cfg, s, q, g) && OtherTestsDone(cfg, s, q, g, i)
  }

  /** A group drops its fixture when its loops are through, a test when the outcome of its body is recorded. */
  ghost predicate CanDrop(cfg: Config, s: State, p: Path) {
    && p in s.nodes
    && if s.nodes[p].task == OfGroup then
         s.nodes[p].pc.Open? && GroupAt(cfg.root, p).Some? && ChildrenDone(cfg, s, p, GroupAt(cfg.root, p).value)
       else
         s.nodes[p].pc.Judged?
  }

  ghost predicate Enabled(cfg: Config, s: State, step: Step) {
    && !s.panicked
    && match step
       case LaunchRoot => s.log.included != {} && RootPath(cfg) !in s.nodes
       case LaunchGroup(q, i) => CanLaunchGroup(cfg, s, q, i)
       case LaunchTest(q, i) => CanLaunchTest(cfg, s, q, i)
       case RunSetupOf(p, plan) =>
         PcIs(s, p, Starting) && FixtureAt(cfg, p).Some? && Ranked(FixtureAt(cfg, p).value, plan)
       case TimeOutSetup(p) => PcIs(s, p, Starting)
       case RecordSetup(p) => p in s.nodes && s.nodes[p].pc.SetUpDone?
       case LaunchBody(p) => IsOpen(s, p) && s.nodes[p].task == OfTest
       case RunBody(p, _) => p in s.nodes && s.nodes[p].pc.Running?
       case RecordBody(p) => p in s.nodes && s.nodes[p].pc.Ran?
       case DropFixture(p) => CanDrop(cfg, s, p)
       case LaunchTeardown(p) => p in s.nodes && s.nodes[p].pc.Closing?
       case RunTeardown(p, order, ok, broke) =>
         && p in s.nodes && s.nodes[p].pc.TearingDown?
         && Sweeps(s.fixtures, Held(s), order)
         && (ok ==> Swept(ExtractAll(s.fixtures, order), Held(s)))
         && (broke ==> !ok && order != [])
       case RecordTeardown(p) => p in s.nodes && s.nodes[p].pc.TornDown?
  }

  function MoveTo(s: State, p: Path, pc: Pc): State
    requires p in s.nodes
  {
    s.(nodes := s.nodes[p := s.nodes[p].(pc := pc)])
  }

  /** Records an event of `p`, which then is `node`; where the assertion of `record` fails, the run panics. */
  function Note(s: State, p: Path, event: Event, node: Node): State {
    if Admits(s.log, Join(p), event) then
      s.(log := Recorded(s.log, Join(p), event), nodes := s.nodes[p := node])
    else
      s.(panicked := true)
  }

  function NoteMove(s: State, p: Path, event: Event, pc: Pc): State
    requires p in s.nodes
  {
    Note(s, p, event, s.nodes[p].(pc := pc))
  }

  function SetupEvent(task: Task, result: SetupResult): Event {
    match result
    case Passed(_) => SetupPassed
    case Skipped => SetupSkipped(task)
    case Failed => SetupFailed(task)
  }

  /** Where a node goes when the result of its setup is recorded; an open group updates its flag. */
  function AfterSetup(cfg: Config, p: Path, node: Node): Node
    requires node.pc.SetUpDone?
  {
    match node.pc.result
    case Passed(arc) =>
      var allowed := FixtureAt(cfg, p).Some? && FixtureAt(cfg, p).value.concurrent;
      Node(node.task, Open(arc), if node.task == OfGroup then node.concurrent && allowed else node.concurrent)
    case Skipped => node.(pc := Closing(WasSkipped))
    case Failed => node.(pc := Closing(SetupBroke))
  }

  ghost function Apply(cfg: Config, s: State, step: Step): State
    requires Enabled(cfg, s, step)
  {
    match step
    case LaunchRoot => Note(s, RootPath(cfg), SetupLaunched, Node(OfGroup, Starting, true))
    case LaunchGroup(q, i) =>
      var p := GroupChild(q, GroupAt(cfg.root, q).value, i);
      Note(s, p, SetupLaunched, Node(OfGroup, Starting, s.nodes[q].concurrent))
    case LaunchTest(q, i) =>
      var g := GroupAt(cfg.root, q).value;
      Note(s, TestChild(q, g, i), SetupLaunched, Node(OfTest, Starting, InConcurrentPhase(s, q, g, i)))
    case RunSetupOf(p, plan) =>
      var (fixtures, result) := Setup(s.fixtures, FixtureAt(cfg, p).value, plan);
      MoveTo(s.(fixtures := fixtures), p, SetUpDone(result))
    case TimeOutSetup(p) => MoveTo(s, p, SetUpDone(Failed))
    case RecordSetup(p) =>
      Note(s, p, SetupEvent(s.nodes[p].task, s.nodes[p].pc.result), AfterSetup(cfg, p, s.nodes[p]))
    case LaunchBody(p) => NoteMove(s, p, TestLaunched, Running(s.nodes[p].pc.arc))
    case RunBody(p, passed) => MoveTo(s, p, Ran(s.nodes[p].pc.arc, passed))
    case RecordBody(p) =>
      var pc := s.nodes[p].pc;
      NoteMove(s, p, if pc.passed then TestPassed else TestFailed, Judged(pc.arc, pc.passed))
    case DropFixture(p) =>
      MoveTo(s, p, Closing(Finished(s.nodes[p].task == OfGroup || s.nodes[p].pc.passed)))
    case LaunchTeardown(p) => NoteMove(s, p, TeardownLaunched, TearingDown(s.nodes[p].pc.verdict))
    case RunTeardown(p, order, ok, broke) =>
      var swept := s.(
        fixtures := ExtractAll(s.fixtures, order), unfinished := s.unfinished + if broke then 1 else 0);
      MoveTo(swept, p, TornDown(s.nodes[p].pc.verdict, ok))
    case RecordTeardown(p) =>
      var pc := s.nodes[p].pc;
      NoteMove(s, p, if pc.ok then TeardownPassed else TeardownFailed, Done(pc.verdict, pc.ok))
  }

  ghost predicate Next(cfg: Config, s: State, t: State) {
    exists step :: Enabled(cfg, s, step) && t == Apply(cfg, s, step)
  }

  ghost predicate Steps(cfg: Config, run: seq<State>, i: nat)
    requires i + 1 < |run|
  {
    Next(cfg, run[i], run[i + 1])
  }

  /** A run of the engine, from its start to any state it may reach. */
  ghost predicate IsRun(cfg: Config, run: seq<State>) {
    && run != []
    && run[0] == Start(cfg)
    && forall i :: 0 <= i < |run| - 1 ==> Steps(cfg, run, i)
  }

  lemma StepAt(cfg: Config, run: seq<State>, i: nat, j: nat) returns (step: Step)
    requires IsRun(cfg, run) && i + 1 == j < |run|
    ensures Enabled(cfg, run[i], step) && run[j] == Apply(cfg, run[i], step)
  {
    assert Steps(cfg, run, i);
    step :| Enabled(cfg, run[i], step) && run[i + 1] == Apply(cfg, run[i], step);
  }

  lemma RunExtends(cfg: Config, run: seq<State>, i: nat, t: State)
    requires IsRun(cfg, run) && i + 1 == |run| && Next(cfg, run[i], t)
    ensures IsRun(cfg, run + [t])
  {
    var more := run + [t];
    forall j: nat | j + 1 < |more|
      ensures Steps(cfg, more, j)
    {
      if j < i {
        assert Steps(cfg, run, j);
      }
    }
  }

  lemma RunIsCut(cfg: Config, run: seq<State>, at: nat)
    requires IsRun(cfg, run) && at < |run|
    ensures IsRun(cfg, run[..at + 1])
  {
    var cut := run[..at + 1];
    forall k: nat | k + 1 < |cut|
      ensures Steps(cfg, cut, k)
    {
      assert Steps(cfg, run, k);
    }
  }

  /** The node that a step moves. */
  function Mover(cfg: Config, step: Step): Path
    requires step.LaunchGroup? ==>
               GroupAt(cfg.root, step.parent).Some? && step.i < |GroupAt(cfg.root, step.parent).value.groups|
    requires step.LaunchTest? ==>
               GroupAt(cfg.root, step.parent).Some? && step.i < |GroupAt(cfg.root, step.parent).value.tests|
  {
    match step
    case LaunchRoot => RootPath(cfg)
    case LaunchGroup(q, i) => GroupChild(q, GroupAt(cfg.root, q).value, i)
    case LaunchTest(q, i) => TestChild(q, GroupAt(cfg.root, q).value, i)
    case _ => step.path
  }
}
