/**
 A setup or a sweep holds the lock while other tests go on. Taking it as one step changes nothing.
 */
module Atomicity {
  import opened Common
  import opened Paths
  import opened Tree
  import opened EventLog
  import opened Fixtures
  import opened Engine
  import opened Control
  import Collector

  // ---------------------------------------------------------------------------------------------
  // A stretch of a run in which one node has the lock
  // ---------------------------------------------------------------------------------------------

  /** What others may do while `p` has the lock: anything but a setup or a sweep, which need it. */
  predicate IsOthers(p: Path, step: Step) {
    !step.RunSetupOf? && !step.RunTeardown? && (IsLaunch(step) || step.path != p)
  }

  ghost predicate OthersStep(cfg: Config, p: Path, s: State, t: State) {
    exists step :: Enabled(cfg, s, step) && IsOthers(p, step) && t == Apply(cfg, s, step)
  }

  ghost predicate OthersStepAt(cfg: Config, p: Path, run: seq<State>, k: nat)
    requires k + 1 < |run|
  {
    OthersStep(cfg, p, run[k], run[k + 1])
  }

  ghost predicate WhileLocked(cfg: Config, p: Path, run: seq<State>, i: nat, j: nat) {
    i <= j < |run| && forall k :: i <= k < j ==> OthersStepAt(cfg, p, run, k)
  }

  /** The holders at each time of the stretch. */
  ghost function HoldersOver(run: seq<State>, i: nat, j: nat): seq<Holders>
    requires i <= j < |run|
  {
    seq(j - i + 1, k requires 0 <= k <= j - i => Held(run[i + k]))
  }

  lemma OthersLeaveTheCache(cfg: Config, p: Path, s: State, t: State)
    requires OthersStep(cfg, p, s, t)
    ensures t.fixtures == s.fixtures && FewerHeld(Held(s), Held(t)) && !s.panicked
  {
    var step :| Enabled(cfg, s, step) && IsOthers(p, step) && t == Apply(cfg, s, step);
    Collector.FixturesAfter(cfg, s, step);
    Collector.OtherStepsShrink(cfg, s, step);
  }

  lemma {:induction false} CacheIsLocked(cfg: Config, p: Path, run: seq<State>, i: nat, j: nat)
    requires WhileLocked(cfg, p, run, i, j)
    ensures run[j].fixtures == run[i].fixtures
    decreases j
  {
    if i < j {
      var k: nat :| k + 1 == j;
      CacheIsLocked(cfg, p, run, i, k);
      assert OthersStepAt(cfg, p, run, k);
      OthersLeaveTheCache(cfg, p, run[k], run[j]);
    }
  }

  lemma FewerAndFewer(before: Holders, between: Holders, after: Holders)
    requires FewerHeld(before, between) && FewerHeld(between, after)
    ensures FewerHeld(before, after)
  {
  }

  lemma HoldersShrinkOnce(cfg: Config, p: Path, run: seq<State>, i: nat, j: nat, k: nat, l: nat)
    requires WhileLocked(cfg, p, run, i, j) && i <= k && k + 1 == l <= j
    ensures FewerHeld(Held(run[k]), Held(run[l]))
  {
    assert OthersStepAt(cfg, p, run, k);
    OthersLeaveTheCache(cfg, p, run[k], run[l]);
  }

  lemma {:induction false} HoldersShrinkTo(cfg: Config, p: Path, run: seq<State>, i: nat, j: nat, a: nat, b: nat)
    requires WhileLocked(cfg, p, run, i, j) && i <= a <= b <= j
    ensures FewerHeld(Held(run[a]), Held(run[b]))
    decreases b
  {
    if a < b {
      var k: nat :| k + 1 == b;
      HoldersShrinkTo(cfg, p, run, i, j, a, k);
      HoldersShrinkOnce(cfg, p, run, i, j, k, b);
      FewerAndFewer(Held(run[a]), Held(run[k]), Held(run[b]));
    }
  }

  lemma HoldersAt(run: seq<State>, i: nat, j: nat, a: nat)
    requires i <= j < |run| && a <= j - i
    ensures HoldersOver(run, i, j)[a] == Held(run[i + a])
  {
  }

  lemma HoldersShrinkOver(cfg: Config, p: Path, run: seq<State>, i: nat, j: nat, a: nat, b: nat)
    requires WhileLocked(cfg, p, run, i, j) && a <= b <= j - i
    ensures FewerHeld(HoldersOver(run, i, j)[a], HoldersOver(run, i, j)[b])
  {
    HoldersAt(run, i, j, a);
    HoldersAt(run, i, j, b);
    HoldersShrinkTo(cfg, p, run, i, j, i + a, i + b);
  }

  lemma HoldersShrink(cfg: Config, p: Path, run: seq<State>, i: nat, j: nat)
    requires WhileLocked(cfg, p, run, i, j)
    ensures Shrinks(HoldersOver(run, i, j))
  {
    var holders := HoldersOver(run, i, j);
    forall a, b | 0 <= a <= b < |holders|
      ensures FewerHeld(holders[a], holders[b])
    {
      HoldersShrinkOver(cfg, p, run, i, j, a, b);
    }
  }

  /** What a sweep does that has the lock from `i` to `j`: it extracts each fixture at a time when its count is one, the
      last pass starts at `last`, and if the sweep passes, that pass sees at whatever later time that the count of each
      fixture left is not one. */
  ghost predicate SweepsDuring(
      run: seq<State>, i: nat, j: nat, times: seq<nat>, order: seq<TypeId>, last: nat, looks: map<TypeId, nat>,
      ok: bool)
    requires i <= j < |run|
  {
    && |times| == |order| && last <= j - i
    && (forall k :: 0 <= k < |times| ==> times[k] <= last)
    && SweepsOver(run[i].fixtures, HoldersOver(run, i, j), times, order)
    && (ok ==> forall ty :: ty in ExtractAll(run[i].fixtures, order).cache ==>
          && ty in looks && last <= looks[ty] <= j - i
          && StrongCount(ExtractAll(run[i].fixtures, order), Held(run[i + looks[ty]]), ty) != 1)
  }

  lemma NotPanickedBefore(cfg: Config, p: Path, run: seq<State>, i: nat, k: nat, j: nat)
    requires WhileLocked(cfg, p, run, i, j) && i <= k <= j && !run[j].panicked
    ensures !run[k].panicked
  {
    if k < j {
      assert OthersStepAt(cfg, p, run, k);
      OthersLeaveTheCache(cfg, p, run[k], run[k + 1]);
    }
  }

  /** Such a sweep is one that the engine may take in one step, at the time when its last pass starts. */
  lemma SweepIsEnabled(
      cfg: Config, p: Path, run: seq<State>, i: nat, j: nat, times: seq<nat>, order: seq<TypeId>, last: nat,
      looks: map<TypeId, nat>, ok: bool, broke: bool)
    requires WhileLocked(cfg, p, run, i, j) && !run[j].panicked
    requires SweepsDuring(run, i, j, times, order, last, looks, ok)
    requires p in run[i + last].nodes && run[i + last].nodes[p].pc.TearingDown?
    requires broke ==> !ok && order != []
    ensures Enabled(cfg, run[i + last], RunTeardown(p, order, ok, broke))
  {
    var holders := HoldersOver(run, i, j);
    HoldersShrink(cfg, p, run, i, j);
    CacheIsLocked(cfg, p, run, i, i + last);
    NotPanickedBefore(cfg, p, run, i, i + last, j);
    HoldersAt(run, i, j, last);
    SweepIsOneStep(run[i].fixtures, holders, times, order, last, looks);
    if ok {
      forall ty | ty in ExtractAll(run[i].fixtures, order).cache
        ensures ty in looks && last <= looks[ty] < |holders|
        ensures StrongCount(ExtractAll(run[i].fixtures, order), holders[looks[ty]], ty) != 1
      {
        HoldersAt(run, i, j, looks[ty]);
      }
    }
  }

  // ---------------------------------------------------------------------------------------------
  // What others do commutes with it
  // ---------------------------------------------------------------------------------------------

  /** What a node does that has the lock: it leaves this manager and goes to this place. */
  datatype Work = Work(path: Path, left: Manager, pc: Pc, broke: bool)

  predicate NeedsLock(pc: Pc) {
    pc.Starting? || pc.TearingDown?
  }

  ghost predicate CanWork(s: State, w: Work) {
    w.path in s.nodes && NeedsLock(s.nodes[w.path].pc) && (w.pc.SetUpDone? || w.pc.TornDown?)
  }

  /** The state with the work done. */
  ghost function After(s: State, w: Work): State
    requires CanWork(s, w)
  {
    State(s.log, w.left, s.nodes[w.path := s.nodes[w.path].(pc := w.pc)], s.panicked,
          s.unfinished + if w.broke then 1 else 0)
  }

  /** Nobody else sees the difference. */
  lemma OthersSeeTheSame(s: State, w: Work)
    requires CanWork(s, w)
    ensures var u := After(s, w);
            && u.nodes.Keys == s.nodes.Keys
            && (forall x :: x in s.nodes && x != w.path ==> u.nodes[x] == s.nodes[x])
            && (forall x :: IsDone(u, x) <==> IsDone(s, x))
            && (forall x :: IsOpen(u, x) <==> IsOpen(s, x))
  {
  }

  lemma LoopsSeeTheSame(cfg: Config, s: State, w: Work, q: Path, g: Group)
    requires CanWork(s, w) && IsOpen(s, q)
    ensures var u := After(s, w);
            && IsOpen(u, q) && u.nodes[q] == s.nodes[q] && InFlight(u, q) == InFlight(s, q)
            && (forall i: nat :: i <= |g.groups| ==> (GroupsDone(cfg, u, q, g, i) <==> GroupsDone(cfg, s, q, g, i)))
            && (ConcurrentTestsDone(cfg, u, q, g) <==> ConcurrentTestsDone(cfg, s, q, g))
            && (forall i: nat :: i <= |g.tests| ==>
                  && (OtherTestsDone(cfg, u, q, g, i) <==> OtherTestsDone(cfg, s, q, g, i))
                  && (ConcurrentTestsLaunched(cfg, u, q, g, i) <==> ConcurrentTestsLaunched(cfg, s, q, g, i)))
  {
    OthersSeeTheSame(s, w);
  }

  lemma StaysEnabled(cfg: Config, s: State, w: Work, step: Step)
    requires CanWork(s, w) && Enabled(cfg, s, step) && IsOthers(w.path, step)
    ensures Enabled(cfg, After(s, w), step)
  {
    OthersSeeTheSame(s, w);
    match step
    case LaunchGroup(q, _) => LoopsSeeTheSame(cfg, s, w, q, GroupAt(cfg.root, q).value);
    case LaunchTest(q, _) => LoopsSeeTheSame(cfg, s, w, q, GroupAt(cfg.root, q).value);
    case DropFixture(q) =>
      if s.nodes[q].task == OfGroup {
        LoopsSeeTheSame(cfg, s, w, q, GroupAt(cfg.root, q).value);
      }
    case _ =>
  }

  lemma NoteCommutes(s: State, w: Work, x: Path, event: Event, node: Node)
    requires CanWork(s, w) && x != w.path
    ensures CanWork(Note(s, x, event, node), w)
    ensures After(Note(s, x, event, node), w) == Note(After(s, w), x, event, node)
  {
    var v := s.nodes[w.path].(pc := w.pc);
    assert s.nodes[x := node][w.path := v] == s.nodes[w.path := v][x := node];
  }

  lemma MoveCommutes(s: State, w: Work, x: Path, pc: Pc)
    requires CanWork(s, w) && x != w.path && x in s.nodes
    ensures CanWork(MoveTo(s, x, pc), w)
    ensures After(MoveTo(s, x, pc), w) == MoveTo(After(s, w), x, pc)
  {
    var v, node := s.nodes[w.path].(pc := w.pc), s.nodes[x].(pc := pc);
    assert s.nodes[x := node][w.path := v] == s.nodes[w.path := v][x := node];
  }

  lemma LaunchCommutes(cfg: Config, s: State, w: Work, step: Step)
    requires CanWork(s, w) && Enabled(cfg, s, step) && IsLaunch(step)
    requires Enabled(cfg, After(s, w), step)
    ensures CanWork(Apply(cfg, s, step), w)
    ensures Apply(cfg, After(s, w), step) == After(Apply(cfg, s, step), w)
  {
    OthersSeeTheSame(s, w);
    var p := Mover(cfg, step);
    var node := Node(if step.LaunchTest? then OfTest else OfGroup, Starting, LaunchFlag(cfg, s, step));
    NoteCommutes(s, w, p, SetupLaunched, node);
  }

  /** The part of a step of others that is not a launch: a record, or a move without one. */
  lemma MovesCommute(cfg: Config, s: State, w: Work, step: Step)
    requires CanWork(s, w) && Enabled(cfg, s, step) && !IsLaunch(step) && IsOthers(w.path, step)
    requires Enabled(cfg, After(s, w), step)
    ensures CanWork(Apply(cfg, s, step), w)
    ensures Apply(cfg, After(s, w), step) == After(Apply(cfg, s, step), w)
  {
    OthersSeeTheSame(s, w);
    var x := step.path;
    var node := s.nodes[x];
    match step
    case TimeOutSetup(_) => MoveCommutes(s, w, x, SetUpDone(Failed));
    case RecordSetup(_) =>
      NoteCommutes(s, w, x, SetupEvent(node.task, node.pc.result), AfterSetup(cfg, x, node));
    case LaunchBody(_) => NoteCommutes(s, w, x, TestLaunched, node.(pc := Running(node.pc.arc)));
    case RunBody(_, passed) => MoveCommutes(s, w, x, Ran(node.pc.arc, passed));
    case RecordBody(_) =>
      var event := if node.pc.passed then TestPassed else TestFailed;
      NoteCommutes(s, w, x, event, node.(pc := Judged(node.pc.arc, node.pc.passed)));
    case DropFixture(_) => MoveCommutes(s, w, x, Closing(Finished(node.task == OfGroup || node.pc.passed)));
    case LaunchTeardown(_) => NoteCommutes(s, w, x, TeardownLaunched, node.(pc := TearingDown(node.pc.verdict)));
    case RecordTeardown(_) =>
      var event := if node.pc.ok then TeardownPassed else TeardownFailed;
      NoteCommutes(s, w, x, event, node.(pc := Done(node.pc.verdict, node.pc.ok)));
  }

  /** A step of others before the work is the same step after it. */
  lemma StepCommutes(cfg: Config, s: State, w: Work, step: Step)
    requires CanWork(s, w) && Enabled(cfg, s, step) && IsOthers(w.path, step)
    ensures Enabled(cfg, After(s, w), step) && CanWork(Apply(cfg, s, step), w)
    ensures Apply(cfg, After(s, w), step) == After(Apply(cfg, s, step), w)
  {
    StaysEnabled(cfg, s, w, step);
    if IsLaunch(step) {
      LaunchCommutes(cfg, s, w, step);
    } else {
      MovesCommute(cfg, s, w, step);
    }
  }

  lemma OthersLeaveItsNode(cfg: Config, s: State, w: Work, step: Step)
    requires CanWork(s, w) && Enabled(cfg, s, step) && IsOthers(w.path, step)
    ensures var t := Apply(cfg, s, step); w.path in t.nodes && t.nodes[w.path] == s.nodes[w.path]
  {
    if IsLaunch(step) {
      StepLaunches(cfg, s, step);
    } else {
      StepAdvances(cfg, s, step);
    }
  }

  lemma OthersCommute(cfg: Config, s: State, t: State, w: Work)
    requires CanWork(s, w) && OthersStep(cfg, w.path, s, t)
    ensures CanWork(t, w) && t.nodes[w.path] == s.nodes[w.path] && Next(cfg, After(s, w), After(t, w))
  {
    var step :| Enabled(cfg, s, step) && IsOthers(w.path, step) && t == Apply(cfg, s, step);
    StepCommutes(cfg, s, w, step);
    OthersLeaveItsNode(cfg, s, w, step);
  }

  // ---------------------------------------------------------------------------------------------
  // A run with the work in one step
  // ---------------------------------------------------------------------------------------------

  lemma {:induction false} StaysWhereItIs(cfg: Config, run: seq<State>, i: nat, j: nat, w: Work)
    requires WhileLocked(cfg, w.path, run, i, j) && CanWork(run[i], w)
    ensures CanWork(run[j], w) && run[j].nodes[w.path] == run[i].nodes[w.path]
    decreases j
  {
    if i < j {
      var k: nat :| k + 1 == j;
      StaysWhereItIs(cfg, run, i, k, w);
      assert OthersStepAt(cfg, w.path, run, k);
      OthersCommute(cfg, run[k], run[j], w);
    }
  }

  /** Some run does the work in one step after `at` and then what others did, up to `j`. */
  lemma {:induction false} RunWithWork(cfg: Config, run: seq<State>, at: nat, j: nat, w: Work)
    returns (other: seq<State>)
    requires IsRun(cfg, run) && WhileLocked(cfg, w.path, run, at, j) && CanWork(run[at], w)
    requires Next(cfg, run[at], After(run[at], w))
    ensures CanWork(run[j], w)
    ensures IsRun(cfg, other) && |other| == j + 2
    ensures other[..at + 1] == run[..at + 1] && other[j + 1] == After(run[j], w)
    decreases j
  {
    StaysWhereItIs(cfg, run, at, j, w);
    if at == j {
      RunIsCut(cfg, run, at);
      other := run[..at + 1] + [After(run[at], w)];
      assert run[..at + 1][at] == run[at];
      RunExtends(cfg, run[..at + 1], at, After(run[at], w));
    } else {
      var k: nat :| k + 1 == j;
      var shorter := RunWithWork(cfg, run, at, k, w);
      assert OthersStepAt(cfg, w.path, run, k);
      OthersCommute(cfg, run[k], run[j], w);
      RunExtends(cfg, shorter, j, After(run[j], w));
      other := shorter + [After(run[j], w)];
      assert other[..at + 1] == shorter[..at + 1];
    }
  }

  /** A sweep that has the lock from `i` to `j`, with any steps of others and any drops in between, leads where a run
      leads that takes it in one step and is otherwise the same: only steps of the engine are needed. */
  lemma SweepIsAtomic(
      cfg: Config, p: Path, run: seq<State>, i: nat, j: nat, times: seq<nat>, order: seq<TypeId>, last: nat,
      looks: map<TypeId, nat>, ok: bool, broke: bool) returns (w: Work, other: seq<State>)
    requires IsRun(cfg, run) && WhileLocked(cfg, p, run, i, j) && !run[j].panicked
    requires p in run[i].nodes && run[i].nodes[p].pc.TearingDown?
    requires SweepsDuring(run, i, j, times, order, last, looks, ok) && (broke ==> !ok && order != [])
    ensures w == Work(p, ExtractAll(run[i].fixtures, order), TornDown(run[i].nodes[p].pc.verdict, ok), broke)
    ensures CanWork(run[j], w) && IsRun(cfg, other) && |other| == j + 2
    ensures other[..i + last + 1] == run[..i + last + 1] && other[j + 1] == After(run[j], w)
  {
    var at := i + last;
    w := Work(p, ExtractAll(run[i].fixtures, order), TornDown(run[i].nodes[p].pc.verdict, ok), broke);
    StaysWhereItIs(cfg, run, i, at, w);
    CacheIsLocked(cfg, p, run, i, at);
    SweepIsEnabled(cfg, p, run, i, j, times, order, last, looks, ok, broke);
    assert Apply(cfg, run[at], RunTeardown(p, order, ok, broke)) == After(run[at], w);
    other := RunWithWork(cfg, run, at, j, w);
  }

  /** So does a setup that has the lock from `i` to `j`, taken in one step when it gets the lock. */
  lemma SetupIsAtomic(cfg: Config, p: Path, run: seq<State>, i: nat, j: nat, plan: Plan)
    returns (w: Work, other: seq<State>)
    requires IsRun(cfg, run) && WhileLocked(cfg, p, run, i, j)
    requires Enabled(cfg, run[i], RunSetupOf(p, plan))
    ensures var (left, result) := Setup(run[j].fixtures, FixtureAt(cfg, p).value, plan);
            w == Work(p, left, SetUpDone(result), false)
    ensures CanWork(run[j], w) && IsRun(cfg, other) && |other| == j + 2
    ensures other[..i + 1] == run[..i + 1] && other[j + 1] == After(run[j], w)
  {
    CacheIsLocked(cfg, p, run, i, j);
    var (left, result) := Setup(run[i].fixtures, FixtureAt(cfg, p).value, plan);
    w := Work(p, left, SetUpDone(result), false);
    assert Apply(cfg, run[i], RunSetupOf(p, plan)) == After(run[i], w);
    other := RunWithWork(cfg, run, i, j, w);
  }
}
