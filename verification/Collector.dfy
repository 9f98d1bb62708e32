/**
 The fixture manager inside the engine: what holds of the cache in every reachable state.
 */
module Collector {
  import opened Common
  import opened Paths
  import opened Tree
  import opened EventLog
  import opened Fixtures
  import opened Engine
  import opened Control
  import Scheduling

  /** The manager is in order, and every handle that a test or group holds is live. */
  ghost predicate Tended(cfg: Config, s: State) {
    && Valid(s.fixtures)
    && AllLive(s.fixtures, Held(s))
    && s.fixtures.permanent == cfg.permanent
  }

  // ---------------------------------------------------------------------------------------------
  // Every step keeps it
  // ---------------------------------------------------------------------------------------------

  /** The handles of all nodes but `p` are as before. */
  lemma OthersStayLive(s: State, t: State, p: Path)
    requires p in t.nodes && t.nodes == s.nodes[p := t.nodes[p]]
    requires forall a :: a in HandlesOf(t.nodes[p].pc) ==> Live(t.fixtures, a)
    requires forall q, a :: q in s.nodes && q != p && a in HandlesOf(s.nodes[q].pc) ==> Live(t.fixtures, a)
    ensures AllLive(t.fixtures, Held(t))
  {
    forall q, a | q in Held(t) && a in Held(t)[q]
      ensures Live(t.fixtures, a)
    {
      assert Held(t)[q] == HandlesOf(t.nodes[q].pc);
      if q != p {
        assert t.nodes[q] == s.nodes[q];
      }
    }
  }

  lemma HeldAreLive(s: State, q: Path, a: Arc)
    requires AllLive(s.fixtures, Held(s)) && q in s.nodes && a in HandlesOf(s.nodes[q].pc)
    ensures Live(s.fixtures, a)
  {
    assert a in Held(s)[q];
  }

  /** Except when its setup returns, a node gains no handle. */
  lemma NoNewHandles(task: Task, a: Pc, b: Pc)
    requires Advances(task, a, b) && !a.Starting?
    ensures forall h :: h in HandlesOf(b) ==> h in HandlesOf(a)
  {
  }

  lemma LaunchKeepsTended(cfg: Config, s: State, t: State, step: Step)
    requires Tended(cfg, s) && Launches(cfg, s, t, step)
    ensures Tended(cfg, t)
  {
    forall q, a | q in s.nodes && a in HandlesOf(s.nodes[q].pc)
      ensures Live(t.fixtures, a)
    {
      HeldAreLive(s, q, a);
    }
    OthersStayLive(s, t, Mover(cfg, step));
  }

  /** How a step changes the manager. */
  lemma FixturesAfter(cfg: Config, s: State, step: Step)
    requires Enabled(cfg, s, step)
    ensures Apply(cfg, s, step).fixtures ==
            match step
            case RunSetupOf(p, plan) => Setup(s.fixtures, FixtureAt(cfg, p).value, plan).0
            case RunTeardown(_, order, _, _) => ExtractAll(s.fixtures, order)
            case _ => s.fixtures
    ensures step.RunSetupOf? ==>
              step.path in Apply(cfg, s, step).nodes &&
              Apply(cfg, s, step).nodes[step.path].pc ==
              SetUpDone(Setup(s.fixtures, FixtureAt(cfg, step.path).value, step.plan).1)
    ensures step.TimeOutSetup? ==>
              step.path in Apply(cfg, s, step).nodes && Apply(cfg, s, step).nodes[step.path].pc == SetUpDone(Failed)
    ensures step.RunTeardown? ==>
              && step.path in Apply(cfg, s, step).nodes && s.nodes[step.path].pc.TearingDown?
              && Apply(cfg, s, step).nodes[step.path].pc == TornDown(s.nodes[step.path].pc.verdict, step.ok)
  {
  }

  lemma SetupKeepsTended(cfg: Config, s: State, t: State, p: Path, ty: TypeId, plan: Plan)
    requires Tended(cfg, s) && Moves(cfg, s, t, p) && Ranked(ty, plan)
    requires t.fixtures == Setup(s.fixtures, ty, plan).0
    requires t.nodes[p].pc == SetUpDone(Setup(s.fixtures, ty, plan).1)
    ensures Tended(cfg, t) && Grows(s.fixtures, t.fixtures, ty.number)
  {
    SetupKeeps(s.fixtures, ty, plan);
    forall q, a | q in s.nodes && q != p && a in HandlesOf(s.nodes[q].pc)
      ensures Live(t.fixtures, a)
    {
      HeldAreLive(s, q, a);
      GrowsLive(s.fixtures, t.fixtures, ty.number, a);
    }
    OthersStayLive(s, t, p);
  }

  lemma SweepKeepsTended(cfg: Config, s: State, t: State, order: seq<TypeId>)
    requires Tended(cfg, s) && Held(t) == Held(s)
    requires Sweeps(s.fixtures, Held(s), order) && t.fixtures == ExtractAll(s.fixtures, order)
    ensures Tended(cfg, t)
  {
    SweepKeepsTending(cfg, s.fixtures, Held(s), order);
  }

  lemma SweptNodeKeepsTended(cfg: Config, s: State, t: State, p: Path, order: seq<TypeId>)
    requires Tended(cfg, s) && p in s.nodes && p in t.nodes && t.nodes == s.nodes[p := t.nodes[p]]
    requires s.nodes[p].pc.TearingDown? && t.nodes[p].pc.TornDown?
    requires Sweeps(s.fixtures, Held(s), order) && t.fixtures == ExtractAll(s.fixtures, order)
    ensures Tended(cfg, t)
  {
    HeldAfterSweep(s, t, p);
    SweepKeepsTended(cfg, s, t, order);
  }

  lemma SweepKeepsTending(cfg: Config, m: Manager, held: Holders, order: seq<TypeId>)
    requires Valid(m) && AllLive(m, held) && m.permanent == cfg.permanent && Sweeps(m, held, order)
    ensures var n := ExtractAll(m, order); Valid(n) && AllLive(n, held) && n.permanent == cfg.permanent
  {
    SweepKeepsValid(m, held, order);
    SweepRemoves(m, order);
  }

  lemma QuietKeepsTended(cfg: Config, s: State, t: State, p: Path)
    requires Tended(cfg, s) && Moves(cfg, s, t, p) && t.fixtures == s.fixtures
    requires s.nodes[p].pc.Starting? ==> t.nodes[p].pc == SetUpDone(Failed)
    ensures Tended(cfg, t)
  {
    if !s.nodes[p].pc.Starting? {
      NoNewHandles(s.nodes[p].task, s.nodes[p].pc, t.nodes[p].pc);
    }
    forall q, a | q in s.nodes && a in HandlesOf(s.nodes[q].pc)
      ensures Live(t.fixtures, a)
    {
      HeldAreLive(s, q, a);
    }
    OthersStayLive(s, t, p);
  }

  lemma StepKeepsTended(cfg: Config, s: State, step: Step)
    requires Tended(cfg, s) && Enabled(cfg, s, step)
    ensures Tended(cfg, Apply(cfg, s, step))
  {
    var t := Apply(cfg, s, step);
    FixturesAfter(cfg, s, step);
    if IsLaunch(step) {
      StepLaunches(cfg, s, step);
      if !SameButPanicked(s, t) {
        LaunchKeepsTended(cfg, s, t, step);
      }
    } else {
      StepAdvances(cfg, s, step);
      if !SameButPanicked(s, t) {
        MoveKeepsTended(cfg, s, t, step);
      }
    }
    if SameButPanicked(s, t) {
      PanicKeepsTended(cfg, s, t);
    }
  }

  lemma PanicKeepsTended(cfg: Config, s: State, t: State)
    requires Tended(cfg, s) && SameButPanicked(s, t)
    ensures Tended(cfg, t)
  {
    assert Held(t) == Held(s);
  }

  lemma MoveKeepsTended(cfg: Config, s: State, t: State, step: Step)
    requires Tended(cfg, s) && !IsLaunch(step) && Enabled(cfg, s, step) && Moves(cfg, s, t, step.path)
    requires t.fixtures ==
             match step
             case RunSetupOf(p, plan) => Setup(s.fixtures, FixtureAt(cfg, p).value, plan).0
             case RunTeardown(_, order, _, _) => ExtractAll(s.fixtures, order)
             case _ => s.fixtures
    requires step.RunSetupOf? ==>
               t.nodes[step.path].pc == SetUpDone(Setup(s.fixtures, FixtureAt(cfg, step.path).value, step.plan).1)
    requires step.TimeOutSetup? ==> t.nodes[step.path].pc == SetUpDone(Failed)
    ensures Tended(cfg, t)
  {
    if step.RunSetupOf? {
      SetupKeepsTended(cfg, s, t, step.path, FixtureAt(cfg, step.path).value, step.plan);
    } else if step.RunTeardown? {
      SweptNodeKeepsTended(cfg, s, t, step.path, step.order);
    } else {
      QuietKeepsTended(cfg, s, t, step.path);
    }
  }

  lemma NextIsTended(cfg: Config, run: seq<State>, i: nat, j: nat)
    requires IsRun(cfg, run) && i + 1 == j < |run|
    requires Tended(cfg, run[i])
    ensures Tended(cfg, run[j])
  {
    var step := StepAt(cfg, run, i, j);
    StepKeepsTended(cfg, run[i], step);
  }

  /** In every reachable state: at most one instance of each type, permanent types never cached or torn down, every
      instance created is cached or was torn down once, retained handles live and acyclic, outside handles live. */
  lemma {:induction false} RunIsTended(cfg: Config, run: seq<State>, i: nat)
    requires IsRun(cfg, run) && i < |run|
    ensures Tended(cfg, run[i])
  {
    if i == 0 {
      FreshIsValid(cfg.permanent);
    } else {
      var k: nat :| k + 1 == i;
      RunIsTended(cfg, run, k);
      NextIsTended(cfg, run, k, i);
    }
  }

  // ---------------------------------------------------------------------------------------------
  // Sweeps in a run
  // ---------------------------------------------------------------------------------------------

  /** No step removes a fixture that a test or an open group holds, directly or through retained handles: it stays the
      same cached instance. */
  lemma StepSparesHeld(cfg: Config, run: seq<State>, i: nat, ty: TypeId)
    requires IsRun(cfg, run) && i + 1 < |run|
    requires ty in run[i].fixtures.cache && Reachable(run[i].fixtures, Held(run[i]), ty)
    ensures ty in run[i + 1].fixtures.cache && run[i + 1].fixtures.cache[ty] == run[i].fixtures.cache[ty]
  {
    var s := run[i];
    RunIsTended(cfg, run, i);
    var step := StepAt(cfg, run, i, i + 1);
    FixturesAfter(cfg, s, step);
    if step.RunSetupOf? {
      SetupKeeps(s.fixtures, FixtureAt(cfg, step.path).value, step.plan);
    } else if step.RunTeardown? {
      SweepKeepsReachable(s.fixtures, Held(s), step.order, ty);
      SweepRemoves(s.fixtures, step.order);
    }
  }

  lemma HeldAfterSweep(s: State, t: State, p: Path)
    requires p in s.nodes && p in t.nodes && t.nodes == s.nodes[p := t.nodes[p]]
    requires s.nodes[p].pc.TearingDown? && t.nodes[p].pc.TornDown?
    ensures Held(t) == Held(s)
  {
    var a, b := Held(s), Held(t);
    assert a.Keys == b.Keys == s.nodes.Keys;
    forall q | q in s.nodes
      ensures a[q] == b[q]
    {
      assert a[q] == HandlesOf(s.nodes[q].pc) && b[q] == HandlesOf(t.nodes[q].pc);
      if q == p {
        NoHandles(s.nodes[p].pc);
        NoHandles(t.nodes[p].pc);
      }
    }
  }

  lemma NoHandles(pc: Pc)
    requires pc.TearingDown? || pc.TornDown? || pc.Done?
    ensures HandlesOf(pc) == multiset{}
  {
  }

  /** After a sweep that passes, whatever failed before, the cache holds exactly what the tests and groups reach. */
  lemma SweepLeavesReachable(cfg: Config, s: State, step: Step)
    requires Tended(cfg, s) && Enabled(cfg, s, step) && step.RunTeardown? && step.ok
    ensures var t := Apply(cfg, s, step);
            && t.fixtures.cache == Collected(s.fixtures, Held(s))
            && Held(t) == Held(s)
  {
    FixturesAfter(cfg, s, step);
    SweepIsExact(s.fixtures, Held(s), step.order);
    HeldAfterSweep(s, Apply(cfg, s, step), step.path);
  }

  // ---------------------------------------------------------------------------------------------
  // The last sweep
  // ---------------------------------------------------------------------------------------------

  /** The teardown of the root passed. */
  predicate RootSwept(cfg: Config, s: State) {
    && RootPath(cfg) in s.nodes
    && var pc := s.nodes[RootPath(cfg)].pc;
    && (pc.TornDown? || pc.Done?) && pc.ok
  }

  lemma NothingHeldAtLast(cfg: Config, s: State)
    requires WellNamed(cfg.root) && Controlled(cfg, s)
    requires RootPath(cfg) in s.nodes && s.nodes[RootPath(cfg)].pc.TearingDown?
    ensures forall p, a :: p in Held(s) ==> a !in Held(s)[p]
  {
    var held := Held(s);
    forall p | p in held
      ensures held[p] == multiset{}
    {
      assert held[p] == HandlesOf(s.nodes[p].pc);
      Scheduling.OnlyRootActive(cfg, s, p);
      NoHandles(s.nodes[p].pc);
    }
  }

  lemma StepKeepsRootSwept(cfg: Config, s: State, step: Step)
    requires WellNamed(cfg.root) && Controlled(cfg, s) && Tended(cfg, s) && Enabled(cfg, s, step)
    requires RootSwept(cfg, s) ==> s.fixtures.cache == map[]
    ensures RootSwept(cfg, Apply(cfg, s, step)) ==> Apply(cfg, s, step).fixtures.cache == map[]
  {
    var t := Apply(cfg, s, step);
    FixturesAfter(cfg, s, step);
    if RootSwept(cfg, s) {
      if !IsLaunch(step) {
        StepAdvances(cfg, s, step);
        Scheduling.OnlyRootActive(cfg, s, step.path);
      }
    } else if step.RunTeardown? && step.path == RootPath(cfg) && step.ok {
      NothingHeldAtLast(cfg, s);
      UnheldCacheIsEmptied(s.fixtures, Held(s), step.order);
    } else {
      NotYetSwept(cfg, s, step);
    }
  }

  lemma NotYetSwept(cfg: Config, s: State, step: Step)
    requires Enabled(cfg, s, step) && !RootSwept(cfg, s)
    requires !(step.RunTeardown? && step.path == RootPath(cfg) && step.ok)
    ensures !RootSwept(cfg, Apply(cfg, s, step))
  {
  }

  lemma NextSweptIsEmpty(cfg: Config, run: seq<State>, i: nat, j: nat)
    requires WellNamed(cfg.root) && IsRun(cfg, run) && i + 1 == j < |run|
    requires RootSwept(cfg, run[i]) ==> run[i].fixtures.cache == map[]
    ensures RootSwept(cfg, run[j]) ==> run[j].fixtures.cache == map[]
  {
    RunIsControlled(cfg, run, i);
    RunIsTended(cfg, run, i);
    var step := StepAt(cfg, run, i, j);
    StepKeepsRootSwept(cfg, run[i], step);
  }

  /** If the last teardown, that of the root, passes, the cache is empty, whatever failed before. */
  lemma {:induction false} RootTeardownEmptiesCache(cfg: Config, run: seq<State>, i: nat)
    requires WellNamed(cfg.root) && IsRun(cfg, run) && i < |run|
    ensures RootSwept(cfg, run[i]) ==> run[i].fixtures.cache == map[]
  {
    if i > 0 {
      var k: nat :| k + 1 == i;
      RootTeardownEmptiesCache(cfg, run, k);
      NextSweptIsEmpty(cfg, run, k, i);
    }
  }

  // ---------------------------------------------------------------------------------------------
  // The fixtures of the groups above
  // ---------------------------------------------------------------------------------------------

  /** A node that was open with a handle is so still, or has gone on for good. */
  predicate OpenOrLater(pc: Pc, arc: Arc) {
    pc == Open(arc) || InBody(pc) || pc.Closing? || pc.TearingDown? || pc.TornDown? || pc.Done?
  }

  lemma StepKeepsOpenOrLater(cfg: Config, s: State, step: Step, q: Path, arc: Arc)
    requires Enabled(cfg, s, step) && q in s.nodes && OpenOrLater(s.nodes[q].pc, arc)
    ensures q in Apply(cfg, s, step).nodes && OpenOrLater(Apply(cfg, s, step).nodes[q].pc, arc)
  {
    if IsLaunch(step) {
      StepLaunches(cfg, s, step);
    } else {
      StepAdvances(cfg, s, step);
    }
  }

  lemma NextIsOpenOrLater(cfg: Config, run: seq<State>, j: nat, k: nat, q: Path, arc: Arc)
    requires IsRun(cfg, run) && j + 1 == k < |run| && q in run[j].nodes && OpenOrLater(run[j].nodes[q].pc, arc)
    ensures q in run[k].nodes && OpenOrLater(run[k].nodes[q].pc, arc)
  {
    var step := StepAt(cfg, run, j, k);
    StepKeepsOpenOrLater(cfg, run[j], step, q, arc);
  }

  lemma {:induction false} OpenStays(cfg: Config, run: seq<State>, i: nat, j: nat, q: Path)
    requires IsRun(cfg, run) && i <= j < |run| && IsOpen(run[i], q)
    ensures q in run[j].nodes && OpenOrLater(run[j].nodes[q].pc, run[i].nodes[q].pc.arc)
    decreases j
  {
    if i < j {
      var k: nat :| k + 1 == j;
      OpenStays(cfg, run, i, k, q);
      NextIsOpenOrLater(cfg, run, k, j, q, run[i].nodes[q].pc.arc);
    }
  }

  /** The group above an active node is open and its handle is live. */
  lemma GroupAboveIsOpen(cfg: Config, run: seq<State>, i: nat, q: Path, p: Path)
    requires WellNamed(cfg.root) && IsRun(cfg, run) && i < |run|
    requires q != [] && q < p && IsActive(run[i], p)
    ensures IsOpen(run[i], q) && Live(run[i].fixtures, run[i].nodes[q].pc.arc)
    ensures GroupAt(cfg.root, q).Some?
  {
    RunIsControlled(cfg, run, i);
    RunIsTended(cfg, run, i);
    assert p[..|q|] == q;
    Scheduling.AncestorsAreOpen(cfg, run[i], p, |q|);
    HeldAreLive(run[i], q, run[i].nodes[q].pc.arc);
    assert Placed(cfg, q, run[i].nodes[q]);
  }

  // ---------------------------------------------------------------------------------------------
  // Whose handle it is
  // ---------------------------------------------------------------------------------------------

  /** Every handle of a group or test is one of its own fixture type. */
  ghost predicate Typed(cfg: Config, s: State) {
    forall p, a :: p in s.nodes && a in HandlesOf(s.nodes[p].pc) ==> FixtureAt(cfg, p) == Some(a.ty)
  }

  lemma MoverIsTyped(cfg: Config, s: State, t: State, step: Step)
    requires Typed(cfg, s) && Enabled(cfg, s, step) && !IsLaunch(step) && t == Apply(cfg, s, step)
    requires Moves(cfg, s, t, step.path)
    ensures forall a :: a in HandlesOf(t.nodes[step.path].pc) ==> FixtureAt(cfg, step.path) == Some(a.ty)
  {
    var p := step.path;
    FixturesAfter(cfg, s, step);
    if step.RunSetupOf? {
      SetupHasType(s.fixtures, FixtureAt(cfg, p).value, step.plan);
    } else if !s.nodes[p].pc.Starting? {
      NoNewHandles(s.nodes[p].task, s.nodes[p].pc, t.nodes[p].pc);
    }
  }

  lemma StepKeepsTyped(cfg: Config, s: State, step: Step)
    requires Typed(cfg, s) && Enabled(cfg, s, step)
    ensures Typed(cfg, Apply(cfg, s, step))
  {
    var t := Apply(cfg, s, step);
    if IsLaunch(step) {
      StepLaunches(cfg, s, step);
    } else {
      StepAdvances(cfg, s, step);
      if !SameButPanicked(s, t) {
        MoverIsTyped(cfg, s, t, step);
      }
    }
  }

  lemma NextIsTyped(cfg: Config, run: seq<State>, i: nat, j: nat)
    requires IsRun(cfg, run) && i + 1 == j < |run| && Typed(cfg, run[i])
    ensures Typed(cfg, run[j])
  {
    var step := StepAt(cfg, run, i, j);
    StepKeepsTyped(cfg, run[i], step);
  }

  /** In every reachable state, every handle of a group or test is one of its own fixture type. */
  lemma {:induction false} RunIsTyped(cfg: Config, run: seq<State>, i: nat)
    requires IsRun(cfg, run) && i < |run|
    ensures Typed(cfg, run[i])
  {
    if i > 0 {
      var k: nat :| k + 1 == i;
      RunIsTyped(cfg, run, k);
      NextIsTyped(cfg, run, k, i);
    }
  }

  lemma OpenGroupHasItsType(cfg: Config, s: State, q: Path)
    requires Typed(cfg, s) && IsOpen(s, q) && GroupAt(cfg.root, q).Some?
    ensures s.nodes[q].pc.arc.ty == GroupAt(cfg.root, q).value.fixture
  {
    assert s.nodes[q].pc.arc in HandlesOf(s.nodes[q].pc);
  }

  /** While anything in the subtree of a group runs, the group holds one and the same live handle, one of its own
      fixture type. */
  lemma AncestorKeepsItsFixture(cfg: Config, run: seq<State>, i: nat, j: nat, q: Path, p: Path, r: Path)
    requires WellNamed(cfg.root) && IsRun(cfg, run) && i <= j < |run|
    requires q != [] && q < p && IsActive(run[i], p) && q < r && IsActive(run[j], r)
    ensures IsOpen(run[i], q) && IsOpen(run[j], q)
    ensures var arc := run[i].nodes[q].pc.arc;
            && run[j].nodes[q].pc.arc == arc && Live(run[i].fixtures, arc) && Live(run[j].fixtures, arc)
            && GroupAt(cfg.root, q).Some? && arc.ty == GroupAt(cfg.root, q).value.fixture
  {
    GroupAboveIsOpen(cfg, run, i, q, p);
    GroupAboveIsOpen(cfg, run, j, q, r);
    OpenStays(cfg, run, i, j, q);
    RunIsTyped(cfg, run, i);
    OpenGroupHasItsType(cfg, run[i], q);
  }

  // ---------------------------------------------------------------------------------------------
  // While a sweep has the lock
  // ---------------------------------------------------------------------------------------------

  /** Only a setup gives anybody a handle that they did not have: what other steps do while a sweep has the lock shrinks
      the holders, as `SweepIsOneStep` asks. */
  lemma OtherStepsShrink(cfg: Config, s: State, step: Step)
    requires Enabled(cfg, s, step) && !step.RunSetupOf?
    ensures FewerHeld(Held(s), Held(Apply(cfg, s, step)))
  {
    var t := Apply(cfg, s, step);
    if IsLaunch(step) {
      StepLaunches(cfg, s, step);
    } else {
      StepAdvances(cfg, s, step);
      FixturesAfter(cfg, s, step);
      if !SameButPanicked(s, t) && !s.nodes[step.path].pc.Starting? {
        NoNewHandles(s.nodes[step.path].task, s.nodes[step.path].pc, t.nodes[step.path].pc);
      }
    }
    forall p, a | p in Held(t) && a in Held(t)[p]
      ensures p in Held(s) && a in Held(s)[p]
    {
      assert Held(t)[p] == HandlesOf(t.nodes[p].pc);
      assert p in s.nodes && a in HandlesOf(s.nodes[p].pc);
    }
  }

  // ---------------------------------------------------------------------------------------------
  // Created, cached, torn down
  // ---------------------------------------------------------------------------------------------

  predicate SweepFailed(pc: Pc) {
    (pc.TornDown? || pc.Done?) && !pc.ok
  }

  function FailedSweeps(s: State): set<Path> {
    set p | p in s.nodes && SweepFailed(s.nodes[p].pc)
  }

  /** A failed sweep leaves at most one teardown unfinished. */
  ghost predicate Finished(s: State) {
    s.unfinished <= |FailedSweeps(s)| && s.unfinished <= |s.fixtures.torn|
  }

  lemma {:induction false} SweepTears(m: Manager, held: Holders, order: seq<TypeId>)
    requires Sweeps(m, held, order)
    ensures |ExtractAll(m, order).torn| == |m.torn| + |order|
    decreases |order|
  {
    if order != [] {
      SweepTears(Extract(m, order[0]), held, order[1..]);
    }
  }

  lemma SetupTearsNothing(cfg: Config, s: State, step: Step)
    requires Enabled(cfg, s, step) && step.RunSetupOf? && Valid(s.fixtures)
    ensures Setup(s.fixtures, FixtureAt(cfg, step.path).value, step.plan).0.torn == s.fixtures.torn
  {
    SetupKeeps(s.fixtures, FixtureAt(cfg, step.path).value, step.plan);
  }

  /** What a step does to the instances torn down and to those left unfinished. */
  lemma TornAfter(cfg: Config, s: State, step: Step)
    requires Enabled(cfg, s, step) && Valid(s.fixtures)
    ensures var t := Apply(cfg, s, step);
            && t.unfinished == s.unfinished + (if step.RunTeardown? && step.broke then 1 else 0)
            && |t.fixtures.torn| == |s.fixtures.torn| + (if step.RunTeardown? then |step.order| else 0)
  {
    FixturesAfter(cfg, s, step);
    if step.RunSetupOf? {
      SetupTearsNothing(cfg, s, step);
    } else if step.RunTeardown? {
      SweepTears(s.fixtures, Held(s), step.order);
    }
  }

  lemma FailedAfterMove(cfg: Config, s: State, t: State, p: Path)
    requires Moves(cfg, s, t, p)
    ensures FailedSweeps(t) == FailedSweeps(s) - {p} + if SweepFailed(t.nodes[p].pc) then {p} else {}
    ensures !s.nodes[p].pc.TearingDown? ==> (SweepFailed(t.nodes[p].pc) <==> SweepFailed(s.nodes[p].pc))
  {
  }

  lemma FailedAfterLaunch(cfg: Config, s: State, t: State, step: Step)
    requires Launches(cfg, s, t, step)
    ensures FailedSweeps(t) == FailedSweeps(s)
  {
  }

  lemma OnlySweepsTearingDown(cfg: Config, s: State, step: Step)
    requires Enabled(cfg, s, step) && !IsLaunch(step) && step.path in s.nodes && s.nodes[step.path].pc.TearingDown?
    ensures step.RunTeardown?
  {
  }

  lemma FailedSweepsAfter(cfg: Config, s: State, step: Step)
    requires Enabled(cfg, s, step)
    ensures FailedSweeps(Apply(cfg, s, step)) ==
            FailedSweeps(s) + if step.RunTeardown? && !step.ok then {step.path} else {}
    ensures step.RunTeardown? ==> step.path !in FailedSweeps(s)
  {
    var t := Apply(cfg, s, step);
    if IsLaunch(step) {
      StepLaunches(cfg, s, step);
      if !SameButPanicked(s, t) {
        FailedAfterLaunch(cfg, s, t, step);
      }
    } else {
      StepAdvances(cfg, s, step);
      FixturesAfter(cfg, s, step);
      if !SameButPanicked(s, t) {
        FailedAfterMove(cfg, s, t, step.path);
        if s.nodes[step.path].pc.TearingDown? {
          OnlySweepsTearingDown(cfg, s, step);
        }
      }
    }
  }

  lemma StepKeepsFinished(cfg: Config, s: State, step: Step)
    requires Enabled(cfg, s, step) && Valid(s.fixtures) && Finished(s)
    ensures Finished(Apply(cfg, s, step))
  {
    TornAfter(cfg, s, step);
    FailedSweepsAfter(cfg, s, step);
  }

  lemma NextIsFinished(cfg: Config, run: seq<State>, i: nat, j: nat)
    requires IsRun(cfg, run) && i + 1 == j < |run| && Finished(run[i])
    ensures Finished(run[j])
  {
    RunIsTended(cfg, run, i);
    var step := StepAt(cfg, run, i, j);
    StepKeepsFinished(cfg, run[i], step);
  }

  lemma {:induction false} RunIsFinished(cfg: Config, run: seq<State>, i: nat)
    requires IsRun(cfg, run) && i < |run|
    ensures Finished(run[i])
  {
    if i > 0 {
      var k: nat :| k + 1 == i;
      RunIsFinished(cfg, run, k);
      NextIsFinished(cfg, run, k, i);
    }
  }

  /** The instances whose teardown completed. */
  function Completed(s: State): int {
    |s.fixtures.torn| - s.unfinished
  }

  /** Over any run: instances created are those cached, those whose teardown completed, and those whose teardown broke
      off, of which each failed sweep has at most one. Each is torn down once, and none is of a permanent type. */
  lemma InstancesAreConserved(cfg: Config, run: seq<State>, i: nat)
    requires IsRun(cfg, run) && i < |run|
    ensures var s := run[i];
            var m := s.fixtures;
            && m.next == |m.cache| + Completed(s) + s.unfinished
            && Completed(s) >= 0 && s.unfinished <= |FailedSweeps(s)|
            && (FailedSweeps(s) == {} ==> m.next == |m.cache| + Completed(s))
            && (forall j, k :: 0 <= j < k < |m.torn| ==> m.torn[j] != m.torn[k])
            && (forall j :: 0 <= j < |m.torn| ==> !Live(m, m.torn[j]) && m.torn[j].ty !in cfg.permanent)
            && (forall ty :: ty in cfg.permanent ==> ty !in m.cache)
  {
    RunIsTended(cfg, run, i);
    RunIsFinished(cfg, run, i);
  }
}
