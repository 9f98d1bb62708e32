/**
 Running children leaves the cache as it was.
 */
module Neutrality {
  import opened Common
  import opened Paths
  import opened Tree
  import opened EventLog
  import opened Fixtures
  import opened Engine
  import opened Control
  import Scheduling
  import opened Collector

  /** The cache holds exactly what the tests and groups reach. */
  ghost predicate Exact(s: State) {
    forall ty :: ty in s.fixtures.cache ==> Reachable(s.fixtures, Held(s), ty)
  }

  /** A group is open and nothing below it is active. */
  ghost predicate QuietAt(s: State, q: Path) {
    && IsOpen(s, q) && s.nodes[q].task == OfGroup
    && forall p :: p in s.nodes && q < p ==> IsDone(s, p)
  }

  /** It has not passed its sweep: that is still to come, or it failed. */
  predicate Pending(pc: Pc) {
    !((pc.TornDown? || pc.Done?) && pc.ok)
  }

  ghost predicate NothingNew(s0: State, s: State) {
    forall p :: p in s.nodes ==> p in s0.nodes
  }

  ghost predicate SomePending(s0: State, s: State) {
    exists p :: p in s.nodes && p !in s0.nodes && Pending(s.nodes[p].pc)
  }

  /** What the tests and groups reach in the state. */
  ghost function CoreOf(s: State): Manager {
    Core(s.fixtures, Held(s))
  }

  /** What holds from `s0`, where `q` is quiet, as long as `q` stays open: the nodes of `s0` do not move, new nodes are
      below `q`, what was reached in `s0` stays cached; and once a node was launched, some new node has not passed its
      sweep, or nothing else is cached. */
  ghost predicate Since(s0: State, s: State, q: Path) {
    && OldStay(s0, s)
    && NewBelow(s0, s, q)
    && CacheKept(CoreOf(s0), s.fixtures)
    && (if NothingNew(s0, s) then s.fixtures == s0.fixtures
        else SomePending(s0, s) || s.fixtures.cache == CoreOf(s0).cache)
  }

  ghost predicate OldStay(s0: State, s: State) {
    forall p :: p in s0.nodes ==> p in s.nodes && s.nodes[p] == s0.nodes[p]
  }

  ghost predicate NewBelow(s0: State, s: State, q: Path) {
    forall p :: p in s.nodes && p !in s0.nodes ==> q < p
  }

  ghost predicate CacheKept(m0: Manager, m: Manager) {
    && (forall ty :: ty in m0.cache ==> ty in m.cache && m.cache[ty] == m0.cache[ty])
    && m0.next <= m.next
  }

  // ---------------------------------------------------------------------------------------------
  // Only nodes below an open group move
  // ---------------------------------------------------------------------------------------------

  /** An open group whose step keeps a group below it open does not drop its fixture. */
  lemma UpperGroupsWait(cfg: Config, s: State, t: State, p: Path, q: Path)
    requires WellNamed(cfg.root) && Controlled(cfg, s) && Controlled(cfg, t) && Moves(cfg, s, t, p)
    requires q in s.nodes && IsOpen(t, q) && p != []
    ensures !(p < q)
  {
    if p < q {
      assert q[..|p|] == p;
      Scheduling.PlacedFacts(cfg, s, p);
      Scheduling.AncestorsAreOpen(cfg, t, q, |p|);
      if IsActive(s, q) {
        Scheduling.AncestorsAreOpen(cfg, s, q, |p|);
      }
    }
  }

  lemma MoverIsBelow(cfg: Config, s: State, t: State, p: Path, q: Path)
    requires WellNamed(cfg.root) && Controlled(cfg, s) && Controlled(cfg, t) && Moves(cfg, s, t, p)
    requires IsOpen(s, q) && IsOpen(t, q) && s.nodes[q].task == OfGroup
    ensures q < p && !IsDone(s, p)
  {
    Scheduling.PlacedFacts(cfg, s, p);
    Scheduling.PlacedFacts(cfg, s, q);
    UpperGroupsWait(cfg, s, t, p, q);
    assert p != q;
    if !(q <= p) && !(p <= q) {
      Scheduling.ActiveNodesMeet(cfg, s, p, q);
    }
  }

  lemma LaunchIsBelow(cfg: Config, s: State, t: State, step: Step, q: Path)
    requires WellNamed(cfg.root) && Controlled(cfg, s) && Controlled(cfg, t) && Launches(cfg, s, t, step)
    requires IsOpen(s, q) && s.nodes[q].task == OfGroup
    ensures q < Mover(cfg, step)
  {
    NewNodeIsBelow(cfg, s, t, Mover(cfg, step), q);
  }

  lemma NewNodeIsBelow(cfg: Config, s: State, t: State, p: Path, q: Path)
    requires WellNamed(cfg.root) && Controlled(cfg, s) && Controlled(cfg, t)
    requires p !in s.nodes && IsActive(t, p) && t.nodes == s.nodes[p := t.nodes[p]]
    requires IsOpen(s, q) && s.nodes[q].task == OfGroup
    ensures q < p
  {
    Scheduling.PlacedFacts(cfg, t, p);
    if p <= q {
      PrefixIsSameOrProper(p, q);
      PrefixIsLaunched(cfg, s, p, q);
    } else if q <= p {
      PrefixIsSameOrProper(q, p);
    } else {
      Scheduling.ActiveNodesMeet(cfg, t, p, q);
    }
  }

  lemma PrefixIsLaunched(cfg: Config, s: State, p: Path, q: Path)
    requires WellNamed(cfg.root) && Controlled(cfg, s) && IsActive(s, q) && p != [] && p < q
    ensures p in s.nodes
  {
    assert q[..|p|] == p;
    Scheduling.AncestorsAreOpen(cfg, s, q, |p|);
  }

  // ---------------------------------------------------------------------------------------------
  // What old handles reach
  // ---------------------------------------------------------------------------------------------

  lemma OldHandles(s0: State, s: State, p: Path)
    requires OldStay(s0, s) && p in s0.nodes
    ensures p in Held(s0) && p in Held(s) && Held(s)[p] == Held(s0)[p]
  {
    assert Held(s)[p] == HandlesOf(s.nodes[p].pc) && Held(s0)[p] == HandlesOf(s0.nodes[p].pc);
  }

  /** What old nodes reach in a cache they reach in any larger one. */
  lemma {:induction false} StillReachable(s0: State, m0: Manager, s: State, ty: TypeId)
    requires OldStay(s0, s) && CacheKept(m0, s.fixtures)
    requires ty in m0.cache && Reachable(m0, Held(s0), ty)
    ensures Reachable(s.fixtures, Held(s), ty)
    decreases m0.next - m0.cache[ty].id
  {
    var a := ArcTo(m0, ty);
    assert ArcTo(s.fixtures, ty) == a;
    if p :| p in Held(s0) && a in Held(s0)[p] {
      OldHandles(s0, s, p);
    } else {
      var u :| Retains(m0, u, ty) && Reachable(m0, Held(s0), u);
      StillReachable(s0, m0, s, u);
      assert Retains(s.fixtures, u, ty);
    }
  }

  /** If only old nodes hold handles, only what they reached is reachable. */
  lemma {:induction false} OnlyOldReachable(s0: State, m0: Manager, s: State, ty: TypeId)
    requires ValidCache(m0) && AllLive(m0, Held(s0))
    requires OldStay(s0, s) && CacheKept(m0, s.fixtures)
    requires NewHoldNothing(s0, s)
    requires ty in s.fixtures.cache && Reachable(s.fixtures, Held(s), ty)
    ensures ty in m0.cache
    decreases s.fixtures.next - s.fixtures.cache[ty].id
  {
    var a := ArcTo(s.fixtures, ty);
    if p :| p in Held(s) && a in Held(s)[p] {
      OldHolder(s0, m0, s, p, a);
    } else {
      var u :| Retains(s.fixtures, u, ty) && Reachable(s.fixtures, Held(s), u);
      OnlyOldReachable(s0, m0, s, u);
      assert a in m0.cache[u].retained;
      assert Live(m0, a);
    }
  }

  ghost predicate NewHoldNothing(s0: State, s: State) {
    forall p :: p in s.nodes && p !in s0.nodes ==> HandlesOf(s.nodes[p].pc) == multiset{}
  }

  lemma OldHolder(s0: State, m0: Manager, s: State, p: Path, a: Arc)
    requires AllLive(m0, Held(s0)) && OldStay(s0, s) && NewHoldNothing(s0, s)
    requires p in Held(s) && a in Held(s)[p]
    ensures Live(m0, a)
  {
    assert Held(s)[p] == HandlesOf(s.nodes[p].pc);
    assert p in s0.nodes;
    OldHandles(s0, s, p);
  }

  lemma HolderIsPending(pc: Pc)
    requires HandlesOf(pc) != multiset{}
    ensures Pending(pc) && !pc.TearingDown?
  {
  }

  // ---------------------------------------------------------------------------------------------
  // Every step keeps it
  // ---------------------------------------------------------------------------------------------

  /** A step of a node below `q` that is not one of `s0`. */
  ghost predicate StepsBelow(s0: State, s: State, t: State, p: Path, q: Path) {
    && p !in s0.nodes && q < p && p in t.nodes
    && t.nodes == s.nodes[p := t.nodes[p]]
  }

  lemma NodesStay(s0: State, s: State, t: State, p: Path, q: Path)
    requires OldStay(s0, s) && NewBelow(s0, s, q) && StepsBelow(s0, s, t, p, q)
    ensures OldStay(s0, t) && NewBelow(s0, t, q) && !NothingNew(s0, t)
  {
  }

  /** A new node other than `p` that was pending still is; and so is `p` if it is afterwards. */
  lemma StillPending(s0: State, s: State, t: State, p: Path, q: Path, x: Path)
    requires StepsBelow(s0, s, t, p, q)
    requires x !in s0.nodes
    requires if x == p then Pending(t.nodes[p].pc) else x in s.nodes && Pending(s.nodes[x].pc)
    ensures SomePending(s0, t)
  {
    assert x in t.nodes;
  }

  /** A step after which its node is pending. */
  lemma PendingKeepsSince(s0: State, s: State, t: State, p: Path, q: Path)
    requires Since(s0, s, q) && StepsBelow(s0, s, t, p, q) && CacheKept(CoreOf(s0), t.fixtures)
    requires Pending(t.nodes[p].pc)
    ensures Since(s0, t, q)
  {
    NodesStay(s0, s, t, p, q);
    StillPending(s0, s, t, p, q, p);
  }

  /** A step that leaves the cache alone, of a node that has passed its sweep. */
  lemma PassedKeepsSince(s0: State, s: State, t: State, p: Path, q: Path)
    requires Since(s0, s, q) && StepsBelow(s0, s, t, p, q) && t.fixtures == s.fixtures
    requires p in s.nodes && !Pending(s.nodes[p].pc)
    ensures Since(s0, t, q)
  {
    NodesStay(s0, s, t, p, q);
    if s.fixtures.cache != CoreOf(s0).cache {
      var x :| x in s.nodes && x !in s0.nodes && Pending(s.nodes[x].pc);
      StillPending(s0, s, t, p, q, x);
    }
  }

  /** Except by its sweep, no node that is pending passes it. */
  lemma StaysPending(task: Task, a: Pc, b: Pc)
    requires Advances(task, a, b) && !a.TearingDown?
    ensures Pending(b) <==> Pending(a)
  {
  }

  lemma KeptByGrowth(m0: Manager, m: Manager, n: Manager, bound: int)
    requires CacheKept(m0, m) && Grows(m, n, bound)
    ensures CacheKept(m0, n)
  {
  }

  /** A sweep spares what was reached. */
  lemma SweepKeepsOld(s0: State, s: State, order: seq<TypeId>, n: Manager)
    requires OldStay(s0, s) && CacheKept(CoreOf(s0), s.fixtures)
    requires Sweeps(s.fixtures, Held(s), order) && n == ExtractAll(s.fixtures, order)
    ensures CacheKept(CoreOf(s0), n)
  {
    var m0 := CoreOf(s0);
    SweepRemoves(s.fixtures, order);
    forall ty | ty in m0.cache
      ensures ty in n.cache && n.cache[ty] == m0.cache[ty]
    {
      CoreIsReachable(s0.fixtures, Held(s0), ty);
      StillReachable(s0, m0, s, ty);
      SweepKeepsReachable(s.fixtures, Held(s), order, ty);
    }
  }

  lemma RestoredIsOld(cfg: Config, s0: State, s: State, order: seq<TypeId>, ty: TypeId)
    requires Tended(cfg, s0) && Tended(cfg, s)
    requires OldStay(s0, s) && CacheKept(CoreOf(s0), s.fixtures) && NewHoldNothing(s0, s)
    requires Sweeps(s.fixtures, Held(s), order) && Swept(ExtractAll(s.fixtures, order), Held(s))
    requires ty in s.fixtures.cache && ty in ExtractAll(s.fixtures, order).cache
    ensures ty in CoreOf(s0).cache
  {
    SurvivesIffReachable(s.fixtures, Held(s), order, ty);
    CoreIsValid(s0.fixtures, Held(s0));
    OnlyOldReachable(s0, CoreOf(s0), s, ty);
  }

  /** A sweep that finishes while only old nodes hold handles leaves exactly what they reached. */
  lemma SweepRestores(cfg: Config, s0: State, s: State, order: seq<TypeId>, n: Manager)
    requires Tended(cfg, s0) && Tended(cfg, s) && CacheKept(CoreOf(s0), n)
    requires OldStay(s0, s) && CacheKept(CoreOf(s0), s.fixtures) && NewHoldNothing(s0, s)
    requires Sweeps(s.fixtures, Held(s), order) && n == ExtractAll(s.fixtures, order) && Swept(n, Held(s))
    ensures n.cache == CoreOf(s0).cache
  {
    SweepRemoves(s.fixtures, order);
    forall ty | ty in n.cache
      ensures ty in CoreOf(s0).cache
    {
      RestoredIsOld(cfg, s0, s, order, ty);
    }
    SameKeysSameCache(CoreOf(s0), n);
  }

  lemma SameKeysSameCache(m0: Manager, m: Manager)
    requires CacheKept(m0, m) && forall ty :: ty in m.cache ==> ty in m0.cache
    ensures m.cache == m0.cache
  {
    assert m.cache.Keys == m0.cache.Keys;
  }

  /** After a sweep of a new node either a new node is still pending, or the cache holds what old nodes reached. */
  lemma SweepKeepsSince(cfg: Config, s0: State, s: State, t: State, p: Path, order: seq<TypeId>, q: Path)
    requires Tended(cfg, s0) && Tended(cfg, s) && Since(s0, s, q)
    requires StepsBelow(s0, s, t, p, q) && p in s.nodes && s.nodes[p].pc.TearingDown? && t.nodes[p].pc.TornDown?
    requires Sweeps(s.fixtures, Held(s), order) && t.fixtures == ExtractAll(s.fixtures, order)
    requires t.nodes[p].pc.ok ==> Swept(t.fixtures, Held(s))
    ensures Since(s0, t, q)
  {
    NodesStay(s0, s, t, p, q);
    SweepKeepsOld(s0, s, order, t.fixtures);
    if !t.nodes[p].pc.ok {
      StillPending(s0, s, t, p, q, p);
    } else if x :| x in s.nodes && x !in s0.nodes && HandlesOf(s.nodes[x].pc) != multiset{} {
      HolderIsPending(s.nodes[x].pc);
      StillPending(s0, s, t, p, q, x);
    } else {
      SweepRestores(cfg, s0, s, order, t.fixtures);
    }
  }

  /** How a step that is not a launch changes the manager and its node. */
  ghost predicate Works(cfg: Config, s: State, t: State, step: Step)
    requires Enabled(cfg, s, step) && !IsLaunch(step) && step.path in t.nodes
  {
    if step.RunSetupOf? then
      t.fixtures == Setup(s.fixtures, FixtureAt(cfg, step.path).value, step.plan).0
    else if step.RunTeardown? then
      && t.fixtures == ExtractAll(s.fixtures, step.order)
      && t.nodes[step.path].pc.TornDown? && t.nodes[step.path].pc.ok == step.ok
    else
      t.fixtures == s.fixtures && !(step.path in s.nodes && s.nodes[step.path].pc.TearingDown?)
  }

  lemma StepWorks(cfg: Config, s: State, step: Step)
    requires Enabled(cfg, s, step) && !IsLaunch(step) && step.path in Apply(cfg, s, step).nodes
    requires !SameButPanicked(s, Apply(cfg, s, step))
    ensures Works(cfg, s, Apply(cfg, s, step), step)
  {
  }

  /** A step that is not a sweep takes nothing out of the cache. */
  lemma WorkKeepsCache(cfg: Config, m0: Manager, s: State, t: State, step: Step)
    requires Enabled(cfg, s, step) && !IsLaunch(step) && !step.RunTeardown? && step.path in t.nodes
    requires Works(cfg, s, t, step) && Valid(s.fixtures) && CacheKept(m0, s.fixtures)
    ensures CacheKept(m0, t.fixtures)
  {
    if step.RunSetupOf? {
      var ty := FixtureAt(cfg, step.path).value;
      SetupKeeps(s.fixtures, ty, step.plan);
      KeptByGrowth(m0, s.fixtures, t.fixtures, ty.number);
    }
  }

  /** And a node that has passed its sweep does nothing to the cache. */
  lemma PassedIsQuiet(cfg: Config, s: State, t: State, step: Step)
    requires Enabled(cfg, s, step) && !IsLaunch(step) && step.path in t.nodes && step.path in s.nodes
    requires Works(cfg, s, t, step) && !step.RunTeardown? && !Pending(s.nodes[step.path].pc)
    ensures t.fixtures == s.fixtures
  {
  }

  lemma MoveKeepsSince(cfg: Config, s0: State, s: State, t: State, step: Step, q: Path)
    requires Tended(cfg, s0) && Tended(cfg, s) && Since(s0, s, q)
    requires Enabled(cfg, s, step) && !IsLaunch(step)
    requires Moves(cfg, s, t, step.path) && StepsBelow(s0, s, t, step.path, q) && Works(cfg, s, t, step)
    ensures Since(s0, t, q)
  {
    var p := step.path;
    if step.RunTeardown? {
      SweepKeepsSince(cfg, s0, s, t, p, step.order, q);
    } else {
      StaysPending(s.nodes[p].task, s.nodes[p].pc, t.nodes[p].pc);
      if Pending(t.nodes[p].pc) {
        WorkKeepsCache(cfg, CoreOf(s0), s, t, step);
        PendingKeepsSince(s0, s, t, p, q);
      } else {
        PassedIsQuiet(cfg, s, t, step);
        PassedKeepsSince(s0, s, t, p, q);
      }
    }
  }

  lemma PanicKeepsSince(s0: State, s: State, t: State, q: Path)
    requires Since(s0, s, q) && SameButPanicked(s, t)
    ensures Since(s0, t, q)
  {
    if SomePending(s0, s) {
      var x :| x in s.nodes && x !in s0.nodes && Pending(s.nodes[x].pc);
      assert x in t.nodes && Pending(t.nodes[x].pc);
    }
  }

  lemma LaunchKeepsSince(cfg: Config, s0: State, s: State, t: State, step: Step, q: Path)
    requires WellNamed(cfg.root) && Controlled(cfg, s) && Controlled(cfg, t) && Launches(cfg, s, t, step)
    requires Since(s0, s, q) && IsOpen(s, q) && s.nodes[q].task == OfGroup
    ensures Since(s0, t, q)
  {
    LaunchIsBelow(cfg, s, t, step, q);
    PendingKeepsSince(s0, s, t, Mover(cfg, step), q);
  }

  /** What holds at the start of the stretch that `SinceHolds` looks at. */
  ghost predicate QuietAndTended(cfg: Config, s0: State, q: Path) {
    Tended(cfg, s0) && QuietAt(s0, q)
  }

  /** A node below a group that was quiet is not one of the old nodes. */
  lemma MoverIsNew(s0: State, s: State, p: Path, q: Path)
    requires QuietAt(s0, q) && OldStay(s0, s) && q < p && p in s.nodes && !IsDone(s, p)
    ensures p !in s0.nodes
  {
  }

  lemma StepKeepsSince(cfg: Config, s0: State, s: State, step: Step, q: Path)
    requires WellNamed(cfg.root) && Controlled(cfg, s) && Tended(cfg, s) && Enabled(cfg, s, step)
    requires QuietAndTended(cfg, s0, q) && Since(s0, s, q)
    requires IsOpen(s, q) && IsOpen(Apply(cfg, s, step), q)
    ensures Since(s0, Apply(cfg, s, step), q)
  {
    var t := Apply(cfg, s, step);
    StepKeepsControlled(cfg, s, step);
    if IsLaunch(step) {
      StepLaunches(cfg, s, step);
    } else {
      StepAdvances(cfg, s, step);
    }
    if SameButPanicked(s, t) {
      PanicKeepsSince(s0, s, t, q);
    } else if IsLaunch(step) {
      LaunchKeepsSince(cfg, s0, s, t, step, q);
    } else {
      MoverIsBelow(cfg, s, t, step.path, q);
      MoverIsNew(s0, s, step.path, q);
      StepWorks(cfg, s, step);
      MoveKeepsSince(cfg, s0, s, t, step, q);
    }
  }

  lemma QuietIsSince(s: State, q: Path)
    ensures Since(s, s, q)
  {
  }

  lemma NextIsSince(cfg: Config, run: seq<State>, s0: State, j: nat, k: nat, q: Path)
    requires WellNamed(cfg.root) && IsRun(cfg, run) && j + 1 == k < |run|
    requires QuietAndTended(cfg, s0, q) && IsOpen(run[j], q) && IsOpen(run[k], q)
    requires Since(s0, run[j], q)
    ensures Since(s0, run[k], q)
  {
    RunIsTended(cfg, run, j);
    RunIsControlled(cfg, run, j);
    var step := StepAt(cfg, run, j, k);
    StepKeepsSince(cfg, s0, run[j], step, q);
  }

  lemma {:induction false} SinceHolds(cfg: Config, run: seq<State>, i: nat, j: nat, q: Path)
    requires WellNamed(cfg.root) && IsRun(cfg, run) && i <= j < |run|
    requires QuietAndTended(cfg, run[i], q) && IsOpen(run[j], q)
    ensures Since(run[i], run[j], q)
    decreases j
  {
    if i == j {
      QuietIsSince(run[i], q);
    } else {
      var k: nat :| k + 1 == j;
      OpenBetween(cfg, run, i, k, j, q);
      SinceHolds(cfg, run, i, k, q);
      NextIsSince(cfg, run, run[i], k, j, q);
    }
  }

  /** A group that was open and is open one step later is open now. */
  lemma OpenBetween(cfg: Config, run: seq<State>, i: nat, j: nat, k: nat, q: Path)
    requires IsRun(cfg, run) && i <= j && j + 1 == k < |run| && IsOpen(run[i], q) && IsOpen(run[k], q)
    requires run[i].nodes[q].task == OfGroup
    ensures IsOpen(run[j], q)
  {
    OpenStays(cfg, run, i, j, q);
    var step := StepAt(cfg, run, j, k);
    if IsLaunch(step) {
      StepLaunches(cfg, run[j], step);
    } else {
      StepAdvances(cfg, run[j], step);
    }
  }

  lemma NothingPending(s0: State, s: State, q: Path)
    requires Since(s0, s, q) && QuietAt(s, q)
    requires forall p :: IsDone(s, p) && p !in s0.nodes ==> s.nodes[p].pc.ok
    ensures if NothingNew(s0, s) then s.fixtures == s0.fixtures else s.fixtures.cache == CoreOf(s0).cache
  {
    forall p | p in s.nodes && p !in s0.nodes
      ensures !Pending(s.nodes[p].pc)
    {
      assert IsDone(s, p);
    }
  }

  lemma CoreCacheIsExact(s0: State, s: State)
    requires OldStay(s0, s) && CacheKept(CoreOf(s0), s.fixtures) && s.fixtures.cache == CoreOf(s0).cache
    ensures Exact(s)
  {
    forall ty | ty in s.fixtures.cache
      ensures Reachable(s.fixtures, Held(s), ty)
    {
      CoreIsReachable(s0.fixtures, Held(s0), ty);
      StillReachable(s0, CoreOf(s0), s, ty);
    }
  }

  /** Running children of a group, in any interleaving and whatever setups and tests failed or were skipped, is
      cache-neutral. Between two times at which the group is quiet, provided no sweep of a node launched in between
      failed: either no node was launched, and the manager is as it was, or the cache holds exactly what the tests and
      groups reached before, the very same instances, and whatever else was there is collected. */
  lemma ChildrenAreCacheNeutral(cfg: Config, run: seq<State>, i: nat, j: nat, q: Path)
    requires WellNamed(cfg.root) && IsRun(cfg, run) && i <= j < |run|
    requires QuietAt(run[i], q) && QuietAt(run[j], q)
    requires forall p :: IsDone(run[j], p) && p !in run[i].nodes ==> run[j].nodes[p].pc.ok
    ensures if NothingNew(run[i], run[j]) then run[j].fixtures == run[i].fixtures
            else run[j].fixtures.cache == Collected(run[i].fixtures, Held(run[i])) && Exact(run[j])
  {
    RunIsTended(cfg, run, i);
    SinceHolds(cfg, run, i, j, q);
    NothingPending(run[i], run[j], q);
    if !NothingNew(run[i], run[j]) {
      CoreCacheIsExact(run[i], run[j]);
    }
  }

  lemma ExactIsCore(s: State)
    requires Exact(s)
    ensures Collected(s.fixtures, Held(s)) == s.fixtures.cache
  {
    RestrictionIs(s.fixtures.cache, s.fixtures.cache, ReachableSet(s.fixtures, Held(s)));
  }

  /** So, where nothing but what is reached was cached, the cache is the very same afterwards. */
  lemma ExactCacheIsKept(cfg: Config, run: seq<State>, i: nat, j: nat, q: Path)
    requires WellNamed(cfg.root) && IsRun(cfg, run) && i <= j < |run|
    requires QuietAt(run[i], q) && QuietAt(run[j], q) && Exact(run[i])
    requires forall p :: IsDone(run[j], p) && p !in run[i].nodes ==> run[j].nodes[p].pc.ok
    ensures run[j].fixtures.cache == run[i].fixtures.cache
  {
    ChildrenAreCacheNeutral(cfg, run, i, j, q);
    ExactIsCore(run[i]);
  }

  /** After a sweep that passes, whatever was left behind before it, the cache holds exactly what is reached. */
  lemma SweepMakesExact(cfg: Config, s: State, step: Step)
    requires Tended(cfg, s) && Enabled(cfg, s, step) && step.RunTeardown? && step.ok
    ensures Exact(Apply(cfg, s, step))
  {
    var t := Apply(cfg, s, step);
    FixturesAfter(cfg, s, step);
    HeldAfterSweep(s, t, step.path);
    SweepKeepsValid(s.fixtures, Held(s), step.order);
    forall ty | ty in t.fixtures.cache
      ensures Reachable(t.fixtures, Held(t), ty)
    {
      SweptIsReachable(t.fixtures, Held(t), ty);
    }
  }
}
