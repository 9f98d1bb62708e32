/**
 The entry point of the program, and what holds at the end of every run.
 */
module Entry {
  import opened Common
  import opened Paths
  import opened Tree
  import opened Filters
  import opened Selection
  import opened EventLog
  import opened Fixtures
  import opened Engine
  import Control
  import Scheduling
  import Lifecycle
  import Guards
  import Conservation
  import Collector
  import Completion
  import Running
  import Determinism

  /** No step is left: an assertion failed, nothing was included, or the root group is through. */
  predicate HasEnded(cfg: Config, s: State) {
    s.panicked || s.log.included == {} || IsDone(s, RootPath(cfg))
  }

  /** A run is a success iff something was included and nothing failed; it panics only where no filter hit anything and
      some subgroup has no test; otherwise every included test is counted once, setups and teardowns balance, and the
      cache is empty if the last teardown passed. Where no teardown failed, every fixture that was created was torn
      down, completely. */
  ghost predicate EndsWell(cfg: Config, s: State) {
    && (IsSuccess(s.log) <==>
          && s.log.included != {}
          && TestsFailed(s.log) == 0 && TestsSkippedByFixtureErr(s.log) == 0 && TeardownsFailed(s.log) == 0)
    && (s.panicked ==> cfg.filter.tests == map[] && !SubgroupsHaveTests(cfg.root))
    && (!s.panicked && s.log.included != {} ==>
          && Conservation.CountersAgree(s.log) && Conservation.NamesAgree(s.log)
          && (Collector.RootSwept(cfg, s) ==> s.fixtures.cache == map[])
          && (TeardownsFailed(s.log) == 0 ==> s.fixtures.next == Collector.Completed(s) && s.fixtures.cache == map[]))
    && s.fixtures.next == |s.fixtures.cache| + Collector.Completed(s) + s.unfinished
  }

  lemma FailedSweepIsCounted(cfg: Config, s: State, p: Path)
    requires Lifecycle.Logged(cfg, s) && p in s.nodes && s.nodes[p].pc.Done? && !s.nodes[p].pc.ok
    ensures TeardownsFailed(s.log) > 0
  {
    var w := Lifecycle.WordOf(s, p);
    assert w[|w| - 1] == TeardownFailed;
    ProjectionHolds(s.log.events, Join(p), TeardownFailed);
    var i :| 0 <= i < |s.log.events| && s.log.events[i] == Entry(Join(p), TeardownFailed);
    CountZero(s.log.events, {TeardownFailed});
  }

  /** When the root is done and no teardown has failed, everything created is torn down. */
  lemma NothingIsLeft(cfg: Config, run: seq<State>, i: nat)
    requires WellNamed(cfg.root) && IsRun(cfg, run) && i < |run|
    requires IsDone(run[i], RootPath(cfg)) && TeardownsFailed(run[i].log) == 0
    ensures run[i].fixtures.cache == map[] && run[i].fixtures.next == Collector.Completed(run[i])
  {
    var s := run[i];
    Control.RunIsControlled(cfg, run, i);
    Lifecycle.RunIsLogged(cfg, run, i);
    forall p | p in s.nodes
      ensures s.nodes[p].pc.Done? && s.nodes[p].pc.ok
    {
      Scheduling.OnlyRootActive(cfg, s, p);
      if !s.nodes[p].pc.ok {
        FailedSweepIsCounted(cfg, s, p);
      }
    }
    assert Collector.FailedSweeps(s) == {};
    Collector.InstancesAreConserved(cfg, run, i);
    Collector.RootTeardownEmptiesCache(cfg, run, i);
  }

  lemma EveryRunEndsWell(filters: seq<string>, cfg: Config, run: seq<State>, i: nat)
    requires WellNamed(cfg.root) && cfg.filter == Compile(filters, cfg.root)
    requires IsRun(cfg, run) && i < |run| && HasEnded(cfg, run[i])
    ensures EndsWell(cfg, run[i])
  {
    Guards.SuccessInEveryRun(cfg, run, i);
    Collector.InstancesAreConserved(cfg, run, i);
    Completion.IncludedStays(cfg, run, i);
    if run[i].panicked {
      PanicNeedsEmptySubgroup(filters, cfg, run, i);
    } else if run[i].log.included != {} {
      Completion.CompiledIsReached(filters, cfg);
      Conservation.CountersBalance(cfg, run, i);
      Conservation.NamesPartition(cfg, run, i);
      Collector.RootTeardownEmptiesCache(cfg, run, i);
      if TeardownsFailed(run[i].log) == 0 {
        NothingIsLeft(cfg, run, i);
      }
    }
  }

  lemma PanicNeedsEmptySubgroup(filters: seq<string>, cfg: Config, run: seq<State>, i: nat)
    requires WellNamed(cfg.root) && cfg.filter == Compile(filters, cfg.root)
    requires IsRun(cfg, run) && i < |run| && run[i].panicked
    ensures cfg.filter.tests == map[] && !SubgroupsHaveTests(cfg.root)
  {
    if cfg.filter.tests != map[] || SubgroupsHaveTests(cfg.root) {
      Completion.CompiledHasSelectedIff(filters, cfg);
      Guards.RunDoesNotPanic(cfg, run, i);
    }
  }

  /** `e2etest::run`: compiles the filters, runs the tree and returns the context with the statistics. */
  method Run(root: Group, filters: seq<string>, concurrency: nat, permanent: set<TypeId>, user: Running.User,
             eager: bool)
    returns (ctx: Running.RunContext)
    requires WellNamed(root)
    requires Running.Behaves(Config(root, Compile(filters, root), concurrency, permanent), user)
    ensures fresh(ctx) && ctx.OnTrack()
    ensures ctx.cfg == Config(root, Compile(filters, root), concurrency, permanent)
    ensures HasEnded(ctx.cfg, ctx.Value()) && EndsWell(ctx.cfg, ctx.Value())
  {
    var filter := Filters.New(filters, root);
    ctx := new Running.RunContext(Config(root, filter, concurrency, permanent), user, eager);
    ctx.Run();
    ghost var i: nat :| i + 1 == |ctx.trace|;
    EveryRunEndsWell(filters, ctx.cfg, ctx.trace, i);
  }

  /** Code by type, and sweeps that end or never get the lock. */
  ghost predicate IsSteady(cfg: Config, user: Running.User, code: TypeId -> Plan) {
    && (forall p :: FixtureAt(cfg, p).Some? ==> user.plan(p) == code(FixtureAt(cfg, p).value))
    && (forall p :: user.stop(p) in {None, Some(0)})
  }

  function BehaviourOf(user: Running.User, code: TypeId -> Plan): Determinism.Behaviour {
    Determinism.Behaviour(code, user.timesOut, user.passes, p => user.stop(p).None?)
  }

  lemma StepIsOfBehaviour(cfg: Config, user: Running.User, code: TypeId -> Plan, s: State, step: Step)
    requires IsSteady(cfg, user, code) && Enabled(cfg, s, step) && Running.IsOfUser(user, step)
    ensures Determinism.Obeys(BehaviourOf(user, code), cfg, step)
  {
    if step.RunTeardown? {
      assert user.stop(step.path) in {None, Some(0)};
    }
  }

  lemma ProgramIsOfBehaviour(cfg: Config, user: Running.User, code: TypeId -> Plan, run: seq<State>)
    requires IsSteady(cfg, user, code) && Running.IsRunBy(cfg, user, run)
    ensures Determinism.IsRunOf(BehaviourOf(user, code), cfg, run)
  {
    forall i: nat | i + 1 < |run|
      ensures Determinism.NextObeys(BehaviourOf(user, code), cfg, run, i)
    {
      assert Running.NextByUser(cfg, user, run, i);
      var step :| Enabled(cfg, run[i], step) && Running.IsOfUser(user, step) && run[i + 1] == Apply(cfg, run[i], step);
      StepIsOfBehaviour(cfg, user, code, run[i], step);
    }
  }

  /** The program run twice on the same tree, filters and user code, with any limits of concurrency and in any order of
      its loops and sweeps, records the same, if it does not panic. */
  lemma ProgramIsDeterministic(
      cfg: Config, limit: nat, user: Running.User, code: TypeId -> Plan, run: seq<State>, again: seq<State>)
    requires WellNamed(cfg.root) && IsSteady(cfg, user, code)
    requires Determinism.Consistent(BehaviourOf(user, code))
    requires Running.IsRunBy(cfg, user, run) && IsDone(run[|run| - 1], RootPath(cfg))
    requires Running.IsRunBy(Determinism.WithLimit(cfg, limit), user, again)
    requires IsDone(again[|again| - 1], RootPath(cfg))
    ensures var a, b := run[|run| - 1].log, again[|again| - 1].log;
            Determinism.SameRecord(a, b) && Determinism.SameLists(a, b) && Determinism.SameCounters(a, b)
  {
    var b := BehaviourOf(user, code);
    ProgramIsOfBehaviour(cfg, user, code, run);
    SteadyWithLimit(cfg, limit, user, code);
    ProgramIsOfBehaviour(Determinism.WithLimit(cfg, limit), user, code, again);
    Determinism.InterleavingIsInvisible(b, cfg, limit, run, |run| - 1, again, |again| - 1);
  }

  lemma SteadyWithLimit(cfg: Config, limit: nat, user: Running.User, code: TypeId -> Plan)
    requires IsSteady(cfg, user, code)
    ensures IsSteady(Determinism.WithLimit(cfg, limit), user, code)
  {
    forall p
      ensures FixtureAt(Determinism.WithLimit(cfg, limit), p) == FixtureAt(cfg, p)
    {
    }
  }

  // ---------------------------------------------------------------------------------------------
  // Where the program does not do what one might expect
  // ---------------------------------------------------------------------------------------------

  /** A tree with one test in the root group and one subgroup without tests. */
  function TreeWithEmptySubgroup(ty: TypeId): Group {
    Group("r", ty, [Test("t", ty)], [Group("g", ty, [], [])])
  }

  /** Without filters, a run of this tree fails an assertion of `record`. */
  lemma EmptySubgroupFails(ty: TypeId, concurrency: nat, permanent: set<TypeId>)
    ensures var root := TreeWithEmptySubgroup(ty);
            !Completion.NeverPanics(Config(root, Compile([], root), concurrency, permanent))
  {
    var root := TreeWithEmptySubgroup(ty);
    var cfg := Config(root, Compile([], root), concurrency, permanent);
    var p, q := ["r", "t"], ["r", "g"];
    assert Parent(p) == ["r"] && Parent(q) == ["r"];
    assert Last(p) == "t" && Last(q) == "g";
    assert root.tests[0].name == "t" && root.groups[0].name == "g";
    assert TestAt(root, p) == Some(root.tests[0]);
    assert GroupAt(root, q) == Some(root.groups[0]);
    Guards.IncludedIffSelected(cfg, p);
    Completion.NeverPanicsIff([], cfg);
    assert TestPaths(root.groups[0]) == [];
  }

  /** A tree with two tests in one subgroup. */
  function TreeWithTwoTests(ty: TypeId): Group {
    Group("r", ty, [], [Group("g", ty, [Test("a", ty), Test("b", ty)], [])])
  }

  lemma GroupFilterSelects(ty: TypeId)
    ensures Selects(Compile(["g"], TreeWithTwoTests(ty)), ["r", "g", "b"])
  {
    var root, b := TreeWithTwoTests(ty), ["r", "g", "b"];
    TwoTestsHits(ty);
    assert Picked(["g"], root, b) by {
      assert "g" in ["g"];
    }
    EmptyIffNothingPicked(["g"], root);
    SingleFilterSelects("g", root, b);
  }

  lemma BothFiltersOverrule(ty: TypeId)
    ensures Overruled(["g", "a"], TreeWithTwoTests(ty), ["r", "g", "b"])
  {
    var root, a, b := TreeWithTwoTests(ty), ["r", "g", "a"], ["r", "g", "b"];
    TwoTestsHits(ty);
    assert Picked(["g", "a"], root, b) by {
      assert "g" in ["g", "a"];
    }
    assert PickedSingle(["g", "a"], root, a) by {
      assert "a" in ["g", "a"];
    }
    assert Parent(a) == ["r", "g"] == Parent(b);
  }

  /** A filter for the subgroup alone selects both of its tests; with a filter for one of them added, the other is no
      longer selected. */
  lemma AddedFilterUnselects(ty: TypeId)
    ensures Selects(Compile(["g"], TreeWithTwoTests(ty)), ["r", "g", "b"])
    ensures !Selects(Compile(["g", "a"], TreeWithTwoTests(ty)), ["r", "g", "b"])
  {
    var root, b := TreeWithTwoTests(ty), ["r", "g", "b"];
    TwoTestsHits(ty);
    GroupFilterSelects(ty);
    BothFiltersOverrule(ty);
    EmptyIffNothingPicked(["g", "a"], root);
    SelectedForm(["g", "a"], root, b);
  }

  lemma TwoTestsPlaces(ty: TypeId)
    ensures var root, a, b := TreeWithTwoTests(ty), ["r", "g", "a"], ["r", "g", "b"];
            && WellNamed(root) && BelowRoot(root, a) && BelowRoot(root, b)
            && GroupText(a) == "g" && GroupText(b) == "g" && Last(a) == "a" && Last(b) == "b"
  {
    var root := TreeWithTwoTests(ty);
    var g, q := root.groups[0], ["r", "g"];
    var a, b := TestChild(q, g, 0), TestChild(q, g, 1);
    assert g.name == "g" && g.tests[0].name == "a" && g.tests[1].name == "b";
    assert GroupChild(["r"], root, 0) == q && a == ["r", "g", "a"] && b == ["r", "g", "b"];
    GroupChildAt(root, ["r"], root, 0);
    TestChildAt(root, q, g, 0);
    TestChildAt(root, q, g, 1);
    assert q[1..] == ["g"];
  }

  /** A filter of one letter is without a separator and matches that letter only, among names of one letter. */
  lemma LetterFilter(x: string, y: string)
    requires ValidName(x) && |x| == 1 && |y| == 1
    ensures RSplitOnce(x).None? && NewMatcher(x) == Partial(x) && (Contains(y, x) <==> x == y)
  {
    RSplitName(x);
    assert y[0..][..1] == y;
  }

  lemma TwoTestsHits(ty: TypeId)
    ensures var root, a, b := TreeWithTwoTests(ty), ["r", "g", "a"], ["r", "g", "b"];
            && WellNamed(root) && BelowRoot(root, a) && BelowRoot(root, b)
            && HitAt("g", a) == Whole && HitAt("g", b) == Whole
            && HitAt("a", a) == Single && HitAt("a", b) == Miss
            && TextSelects("g", GroupText(b), Last(b))
  {
    TwoTestsPlaces(ty);
    LetterFilter("g", "g");
    LetterFilter("a", "g");
    LetterFilter("a", "a");
    LetterFilter("a", "b");
    HitMeans("g", "g", "b");
  }

  lemma {:induction false} TwoTestsGroups(ty: TypeId, q: Path)
    requires GroupAt(TreeWithTwoTests(ty), q).Some?
    ensures q == ["r"] || q == ["r", "g"]
    decreases |q|
  {
    var root := TreeWithTwoTests(ty);
    if |q| > 1 {
      ParentLast(q);
      assert SubgroupNames(root) == ["g"] && SubgroupNames(root.groups[0]) == [];
      TwoTestsGroups(ty, Parent(q));
    }
  }

  lemma TwoTestsOnly(ty: TypeId, p: Path)
    requires TestAt(TreeWithTwoTests(ty), p).Some?
    ensures Parent(p) == ["r", "g"] && Last(p) in {"a", "b"}
  {
    TwoTestsGroups(ty, Parent(p));
    assert OwnTestNames(TreeWithTwoTests(ty)) == [];
    assert OwnTestNames(TreeWithTwoTests(ty).groups[0]) == ["a", "b"];
  }

  /** A filter that hits nothing selects both tests. */
  lemma MissingFilterSelectsAll(ty: TypeId)
    ensures var f := Compile(["zzz"], TreeWithTwoTests(ty));
            f == Filters.EMPTY && Selects(f, ["r", "g", "a"]) && Selects(f, ["r", "g", "b"])
  {
    var root := TreeWithTwoTests(ty);
    TwoTestsPlaces(ty);
    RSplitName("zzz");
    forall p
      ensures !Picked(["zzz"], root, p)
    {
      if BelowRoot(root, p) {
        TwoTestsOnly(ty, p);
        assert GroupText(p) == GroupText(["r", "g", "a"]);
        assert HitAt("zzz", p) == Miss;
      }
    }
    EmptyIffNothingPicked(["zzz"], root);
  }

  /** A tree with a test in the root group and a test of the same name in a subgroup. */
  function TreeWithRootTest(ty: TypeId): Group {
    Group("r", ty, [Test("a", ty)], [Group("g", ty, [Test("a", ty)], [])])
  }

  lemma RootTestPlaces(ty: TypeId)
    ensures var root, t, a := TreeWithRootTest(ty), ["r", "a"], ["r", "g", "a"];
            && WellNamed(root) && TestAt(root, t).Some? && Last(t) == "a" && BelowRoot(root, a) && Last(a) == "a"
            && GroupText(a) == "g"
  {
    var root := TreeWithRootTest(ty);
    var g, q := root.groups[0], ["r", "g"];
    assert g.name == "g" && g.tests[0].name == "a" && root.tests[0].name == "a";
    assert TestChild(["r"], root, 0) == ["r", "a"] && GroupChild(["r"], root, 0) == q;
    assert TestChild(q, g, 0) == ["r", "g", "a"];
    TestChildAt(root, ["r"], root, 0);
    GroupChildAt(root, ["r"], root, 0);
    TestChildAt(root, q, g, 0);
    assert q[1..] == ["g"];
  }

  /** A filter with the name of both tests selects the one in the subgroup only. */
  lemma RootTestIsLeftOut(ty: TypeId)
    ensures var f := Compile(["a"], TreeWithRootTest(ty));
            && NewMatcher("a").Matches(Last(["r", "a"])) && !Selects(f, ["r", "a"])
            && NewMatcher("a").Matches(Last(["r", "g", "a"])) && Selects(f, ["r", "g", "a"])
  {
    var root, a := TreeWithRootTest(ty), ["r", "g", "a"];
    RootTestPlaces(ty);
    LetterFilter("a", "a");
    LetterFilter("a", "g");
    assert HitAt("a", a) == Single;
    assert Picked(["a"], root, a) by {
      assert "a" in ["a"];
    }
    EmptyIffNothingPicked(["a"], root);
    RootTestsNeverSelected(["a"], root, ["r", "a"]);
    HitMeans("a", "g", "a");
    SingleFilterSelects("a", root, a);
  }
}
