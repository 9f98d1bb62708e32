/**
 A group or test keeps its fixture, with all that the fixture retains, from the return of its setup until it drops it.
 */
module Holding {
  import opened Common
  import opened Paths
  import opened Tree
  import opened EventLog
  import opened Fixtures
  import opened Engine
  import opened Control
  import Collector

  /** The handle that a group or test has where it stands in its program. */
  predicate Keeps(pc: Pc, arc: Arc) {
    match pc
    case SetUpDone(result) => result == Passed(arc)
    case Open(a) => a == arc
    case Running(a) => a == arc
    case Ran(a, _) => a == arc
    case Judged(a, _) => a == arc
    case _ => false
  }

  predicate IsPast(pc: Pc) {
    pc.Closing? || pc.TearingDown? || pc.TornDown? || pc.Done?
  }

  /** How many handles that makes: one of its own, and a clone in the body while the body runs. */
  function Clones(pc: Pc): nat {
    if pc.Running? then 2 else 1
  }

  // ---------------------------------------------------------------------------------------------
  // In one state
  // ---------------------------------------------------------------------------------------------

  lemma KeptIsHeld(s: State, p: Path, arc: Arc)
    requires p in s.nodes && Keeps(s.nodes[p].pc, arc)
    ensures p in Held(s) && Held(s)[p][arc] == Clones(s.nodes[p].pc)
  {
    assert Held(s)[p] == HandlesOf(s.nodes[p].pc);
  }

  lemma SumAtLeast<K(!new)>(m: map<K, nat>, k: K)
    requires k in m
    ensures m[k] <= Sum(m)
  {
    SumRemove(m, k);
  }

  lemma CountAtLeast(m: Manager, held: Holders, p: Path, ty: TypeId)
    requires ty in m.cache && p in held
    ensures StrongCount(m, held, ty) >= 1 + held[p][ArcTo(m, ty)]
  {
    SumAtLeast(HeldBy(held, ArcTo(m, ty)), p);
  }

  lemma KeptIsReachable(s: State, p: Path, arc: Arc)
    requires p in s.nodes && Keeps(s.nodes[p].pc, arc) && arc.Cached? && Live(s.fixtures, arc)
    ensures Reachable(s.fixtures, Held(s), arc.ty)
  {
    KeptIsHeld(s, p, arc);
    assert ArcTo(s.fixtures, arc.ty) in Held(s)[p];
  }

  lemma KeptIsTyped(cfg: Config, s: State, p: Path, arc: Arc)
    requires Collector.Typed(cfg, s) && p in s.nodes && Keeps(s.nodes[p].pc, arc)
    ensures FixtureAt(cfg, p) == Some(arc.ty)
  {
    assert arc in HandlesOf(s.nodes[p].pc);
  }

  lemma KeptIsCounted(s: State, p: Path, arc: Arc)
    requires p in s.nodes && Keeps(s.nodes[p].pc, arc) && arc.Cached? && Live(s.fixtures, arc)
    ensures StrongCount(s.fixtures, Held(s), arc.ty) >= 1 + Clones(s.nodes[p].pc)
  {
    KeptIsHeld(s, p, arc);
    CountAtLeast(s.fixtures, Held(s), p, arc.ty);
    assert ArcTo(s.fixtures, arc.ty) == arc;
  }

  lemma KeptIsLive(cfg: Config, s: State, p: Path, arc: Arc)
    requires Collector.Tended(cfg, s) && p in s.nodes && Keeps(s.nodes[p].pc, arc)
    ensures Live(s.fixtures, arc)
    ensures arc.Cached? ==> forall a :: a in s.fixtures.cache[arc.ty].retained ==> Live(s.fixtures, a)
  {
    assert arc in HandlesOf(s.nodes[p].pc);
    Collector.HeldAreLive(s, p, arc);
  }

  /** In every reachable state the fixture of a group or test that has not dropped it is live and of its own type, and
      so is everything it retains; its count is at least two, and three while a body runs. */
  lemma FixtureIsLive(cfg: Config, run: seq<State>, i: nat, p: Path, arc: Arc)
    requires IsRun(cfg, run) && i < |run| && p in run[i].nodes && Keeps(run[i].nodes[p].pc, arc)
    ensures Live(run[i].fixtures, arc)
    ensures GroupAt(cfg.root, p).Some? ==> arc.ty == GroupAt(cfg.root, p).value.fixture
    ensures GroupAt(cfg.root, p).None? ==> TestAt(cfg.root, p).Some? && arc.ty == TestAt(cfg.root, p).value.fixture
    ensures arc.Cached? ==>
              && (forall a :: a in run[i].fixtures.cache[arc.ty].retained ==> Live(run[i].fixtures, a))
              && StrongCount(run[i].fixtures, Held(run[i]), arc.ty) >= 2
              && (run[i].nodes[p].pc.Running? ==> StrongCount(run[i].fixtures, Held(run[i]), arc.ty) >= 3)
  {
    Collector.RunIsTended(cfg, run, i);
    Collector.RunIsTyped(cfg, run, i);
    KeptIsTyped(cfg, run[i], p, arc);
    KeptIsLive(cfg, run[i], p, arc);
    if arc.Cached? {
      KeptIsCounted(run[i], p, arc);
    }
  }

  /** No sweep that may be taken tears it down, or anything it retains. */
  lemma SweepsSpareFixture(cfg: Config, run: seq<State>, i: nat, p: Path, arc: Arc, step: Step)
    requires IsRun(cfg, run) && i < |run| && p in run[i].nodes && Keeps(run[i].nodes[p].pc, arc) && arc.Cached?
    requires step.RunTeardown? && Enabled(cfg, run[i], step)
    ensures arc.ty !in step.order
    ensures arc.ty in run[i].fixtures.cache
    ensures forall a :: a in run[i].fixtures.cache[arc.ty].retained && a.Cached? ==> a.ty !in step.order
  {
    var s := run[i];
    FixtureIsLive(cfg, run, i, p, arc);
    Collector.RunIsTended(cfg, run, i);
    SweepKeepsValid(s.fixtures, Held(s), step.order);
    SweepRemoves(s.fixtures, step.order);
    KeptIsReachable(s, p, arc);
    SweepKeepsReachable(s.fixtures, Held(s), step.order, arc.ty);
    forall a | a in s.fixtures.cache[arc.ty].retained && a.Cached?
      ensures a.ty !in step.order
    {
      assert Live(ExtractAll(s.fixtures, step.order), a);
    }
  }

  // ---------------------------------------------------------------------------------------------
  // From the setup to the drop
  // ---------------------------------------------------------------------------------------------

  /** Only the drop of its fixture takes the handle from a group or test; and a drop there is only when the loops of the
      group are through, or the outcome of the body is recorded. */
  lemma OnlyDropLetsGo(cfg: Config, s: State, step: Step, p: Path, arc: Arc)
    requires Enabled(cfg, s, step) && p in s.nodes && Keeps(s.nodes[p].pc, arc)
    ensures var t := Apply(cfg, s, step);
            p in t.nodes && (Keeps(t.nodes[p].pc, arc) || step == DropFixture(p))
    ensures step == DropFixture(p) ==>
              if s.nodes[p].task == OfTest then s.nodes[p].pc.Judged?
              else GroupAt(cfg.root, p).Some? && ChildrenDone(cfg, s, p, GroupAt(cfg.root, p).value)
  {
    var t := Apply(cfg, s, step);
    if IsLaunch(step) {
      StepLaunches(cfg, s, step);
    } else {
      StepAdvances(cfg, s, step);
    }
  }

  /** A node stays as it is or moves on. */
  lemma NodeGoesOn(cfg: Config, run: seq<State>, i: nat, j: nat, p: Path)
    requires IsRun(cfg, run) && i + 1 == j < |run| && p in run[i].nodes
    ensures p in run[j].nodes
    ensures var a, b := run[i].nodes[p], run[j].nodes[p];
            a == b || Advances(a.task, a.pc, b.pc)
  {
    var step := StepAt(cfg, run, i, j);
    if IsLaunch(step) {
      StepLaunches(cfg, run[i], step);
    } else {
      StepAdvances(cfg, run[i], step);
    }
  }

  lemma {:induction false} PastStays(cfg: Config, run: seq<State>, i: nat, j: nat, p: Path)
    requires IsRun(cfg, run) && i <= j < |run| && p in run[i].nodes && IsPast(run[i].nodes[p].pc)
    ensures p in run[j].nodes && IsPast(run[j].nodes[p].pc)
    decreases j
  {
    if i < j {
      var k: nat :| k + 1 == j;
      PastStays(cfg, run, i, k, p);
      NodeGoesOn(cfg, run, k, j, p);
    }
  }

  lemma {:induction false} KeptOrPast(cfg: Config, run: seq<State>, i: nat, j: nat, p: Path, arc: Arc)
    requires IsRun(cfg, run) && i <= j < |run| && p in run[i].nodes && Keeps(run[i].nodes[p].pc, arc)
    ensures p in run[j].nodes && (Keeps(run[j].nodes[p].pc, arc) || IsPast(run[j].nodes[p].pc))
    decreases j
  {
    if i < j {
      var k: nat :| k + 1 == j;
      KeptOrPast(cfg, run, i, k, p, arc);
      NodeGoesOn(cfg, run, k, j, p);
    }
  }

  lemma NextIsSameInstance(cfg: Config, run: seq<State>, k: nat, j: nat, p: Path, arc: Arc)
    requires IsRun(cfg, run) && k + 1 == j < |run|
    requires p in run[k].nodes && Keeps(run[k].nodes[p].pc, arc) && arc.Cached?
    ensures arc.ty in run[k].fixtures.cache && arc.ty in run[j].fixtures.cache
    ensures run[j].fixtures.cache[arc.ty] == run[k].fixtures.cache[arc.ty]
  {
    FixtureIsLive(cfg, run, k, p, arc);
    KeptIsReachable(run[k], p, arc);
    Collector.StepSparesHeld(cfg, run, k, arc.ty);
  }

  /** Between two times at which a group or test has not dropped its fixture, it has one and the same handle, to one
      fixture that stays as it was set up, with everything it retains. */
  lemma {:induction false} FixtureStays(
      cfg: Config, run: seq<State>, i: nat, k: nat, j: nat, p: Path, arc: Arc)
    requires IsRun(cfg, run) && i <= k <= j < |run| && p in run[i].nodes && Keeps(run[i].nodes[p].pc, arc)
    requires p in run[j].nodes && !IsPast(run[j].nodes[p].pc)
    ensures p in run[k].nodes && Keeps(run[k].nodes[p].pc, arc) && Live(run[k].fixtures, arc)
    ensures arc.Cached? ==>
              && arc.ty in run[i].fixtures.cache && arc.ty in run[k].fixtures.cache
              && run[k].fixtures.cache[arc.ty] == run[i].fixtures.cache[arc.ty]
    decreases k
  {
    KeptOrPast(cfg, run, i, k, p, arc);
    if IsPast(run[k].nodes[p].pc) {
      PastStays(cfg, run, k, j, p);
    } else {
      FixtureIsLive(cfg, run, k, p, arc);
      if i < k {
        var h: nat :| h + 1 == k;
        FixtureStays(cfg, run, i, h, j, p, arc);
        if arc.Cached? {
          NextIsSameInstance(cfg, run, h, k, p, arc);
        }
      }
    }
  }
}
