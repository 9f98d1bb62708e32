/**
 What a fixture retains of the fixtures that its code set up, and that this keeps them from being torn down.
 */
module Composites {
  import opened Common
  import opened Fixtures

  // ---------------------------------------------------------------------------------------------
  // What code is given
  // ---------------------------------------------------------------------------------------------

  /** The types of the handles that code is given, call by call, told from the types that are there alone: a call for a
      type that is there gives one, a setup gives one if it makes the fixture, and a skipped setup, one that fails in
      spite of which the code goes on, and a fetch of what is not there give none. */
  function Given(present: set<TypeId>, plan: Plan): seq<TypeId>
    decreases plan
  {
    match plan
    case Fetch(ty, next) => (if ty in present then [ty] else []) + Given(present, next)
    case SetUp(ty, nested, shielded, next) =>
      if ty in present then [ty] + Given(present, next)
      else
        var inner := FateOf(present, nested);
        match inner.end {
          case MakesFixture => [ty] + Given(inner.present + {ty}, next)
          case MakesNone => Given(inner.present, next)
          case Breaks => if shielded then Given(inner.present, next) else []
        }
    case _ => []
  }

  /** Which of the handles it is given the code keeps. */
  function KeepOf(plan: Plan): seq<nat>
    decreases plan
  {
    match plan
    case SetUp(_, _, _, next) => KeepOf(next)
    case Fetch(_, next) => KeepOf(next)
    case Retain(keep) => keep
    case _ => []
  }

  /** The places in `keep` that name a handle `a` to a type among `types`. */
  ghost function PlacesOf(m: Manager, types: seq<TypeId>, keep: seq<nat>, a: Arc): set<nat> {
    set i: nat | i < |keep| && keep[i] < |types| && Get(m, types[keep[i]]) == Some(a)
  }

  // ---------------------------------------------------------------------------------------------
  // Handles and how often they are kept
  // ---------------------------------------------------------------------------------------------

  ghost predicate AreHandles(m: Manager, types: seq<TypeId>, arcs: seq<Arc>) {
    |arcs| == |types| && forall i :: 0 <= i < |arcs| ==> Get(m, types[i]) == Some(arcs[i])
  }

  lemma PlacesSnoc(m: Manager, types: seq<TypeId>, init: seq<nat>, k: nat, a: Arc)
    ensures PlacesOf(m, types, init + [k], a) ==
            PlacesOf(m, types, init, a) + if k < |types| && Get(m, types[k]) == Some(a) then {|init|} else {}
  {
    forall i: nat
      ensures i in PlacesOf(m, types, init + [k], a) <==>
              i in PlacesOf(m, types, init, a) || (i == |init| && k < |types| && Get(m, types[k]) == Some(a))
    {
      assert i < |init| ==> (init + [k])[i] == init[i];
    }
  }

  lemma {:induction false} KeptAsOften(m: Manager, types: seq<TypeId>, arcs: seq<Arc>, keep: seq<nat>, a: Arc)
    requires AreHandles(m, types, arcs)
    ensures Kept(arcs, keep)[a] == |PlacesOf(m, types, keep, a)|
    decreases |keep|
  {
    if keep == [] {
      assert PlacesOf(m, types, keep, a) == {};
    } else {
      var n: nat :| n + 1 == |keep|;
      var init, k := keep[..n], keep[n];
      assert keep == init + [k];
      KeptAsOften(m, types, arcs, init, a);
      PlacesSnoc(m, types, init, k, a);
      assert n !in PlacesOf(m, types, init, a);
      assert k < |types| ==> Get(m, types[k]) == Some(arcs[k]);
    }
  }

  lemma GetStays(m: Manager, n: Manager, bound: int, ty: TypeId)
    requires Valid(n) && Grows(m, n, bound) && ty in Present(m)
    ensures Get(n, ty) == Get(m, ty)
  {
  }

  lemma HandlesStay(m: Manager, n: Manager, bound: int, types: seq<TypeId>, arcs: seq<Arc>)
    requires Valid(n) && Grows(m, n, bound) && AreHandles(m, types, arcs)
    ensures AreHandles(n, types, arcs)
  {
    forall i | 0 <= i < |types|
      ensures Get(n, types[i]) == Some(arcs[i])
    {
      assert Get(m, types[i]).Some?;
      GetStays(m, n, bound, types[i]);
    }
  }

  // ---------------------------------------------------------------------------------------------
  // What a fixture retains
  // ---------------------------------------------------------------------------------------------

  /** What the rest of the code builds from the handles to `types` that it has got. */
  lemma {:induction false} RunRetains(
      ty: TypeId, m: Manager, plan: Plan, types: seq<TypeId>, got: seq<Arc>) returns (arcs: seq<Arc>)
    requires Valid(m) && Ranked(ty, plan) && AreHandles(m, types, got)
    requires RunSetup(m, plan, got).1.Built?
    ensures AreHandles(RunSetup(m, plan, got).0, types + Given(Present(m), plan), arcs)
    ensures RunSetup(m, plan, got).1.retained == Kept(arcs, KeepOf(plan))
    decreases plan, 1
  {
    match plan
    case Retain(_) =>
      arcs := got;
      assert types + [] == types;
    case Fetch(t, next) => arcs := FetchRetains(ty, m, plan, types, got);
    case SetUp(t, nested, shielded, next) => arcs := SetUpRetains(ty, m, plan, types, got);
  }

  lemma OneMoreHandle(m: Manager, types: seq<TypeId>, arcs: seq<Arc>, ty: TypeId, a: Arc)
    requires AreHandles(m, types, arcs) && Get(m, ty) == Some(a)
    ensures AreHandles(m, types + [ty], arcs + [a])
  {
  }

  lemma {:induction false} FetchRetains(
      ty: TypeId, m: Manager, plan: Plan, types: seq<TypeId>, got: seq<Arc>) returns (arcs: seq<Arc>)
    requires Valid(m) && Ranked(ty, plan) && AreHandles(m, types, got)
    requires plan.Fetch? && RunSetup(m, plan, got).1.Built?
    ensures AreHandles(RunSetup(m, plan, got).0, types + Given(Present(m), plan), arcs)
    ensures RunSetup(m, plan, got).1.retained == Kept(arcs, KeepOf(plan))
    decreases plan, 0
  {
    var t := plan.ty;
    FetchGoesOn(m, plan, got);
    if t in Present(m) {
      OneMoreHandle(m, types, got, t, Get(m, t).value);
      arcs := RunRetains(ty, m, plan.next, types + [t], got + [Get(m, t).value]);
      ConsIsSnoc(types, t, Given(Present(m), plan.next));
    } else {
      arcs := RunRetains(ty, m, plan.next, types, got);
    }
  }

  lemma FetchGoesOn(m: Manager, plan: Plan, got: seq<Arc>)
    requires plan.Fetch?
    ensures Get(m, plan.ty).Some? <==> plan.ty in Present(m)
    ensures RunSetup(m, plan, got) ==
            match Get(m, plan.ty)
            case None => RunSetup(m, plan.next, got)
            case Some(a) => RunSetup(m, plan.next, got + [a])
    ensures Given(Present(m), plan) ==
            (if plan.ty in Present(m) then [plan.ty] else []) + Given(Present(m), plan.next)
    ensures plan.ty !in Present(m) ==> Given(Present(m), plan) == Given(Present(m), plan.next)
  {
    assert got + [] == got;
  }

  /** How the code goes on after a setup, having got one handle more or not. */
  lemma RunsOn(m: Manager, plan: Plan, got: seq<Arc>)
    requires plan.SetUp?
    ensures var (n, r) := Setup(m, plan.ty, plan.plan);
            RunSetup(m, plan, got) ==
            match r
            case Passed(a) => RunSetup(n, plan.next, got + [a])
            case Skipped => RunSetup(n, plan.next, got)
            case Failed => if plan.shielded then RunSetup(n, plan.next, got) else (n, Panicked)
  {
  }

  lemma GotAfterSetup(m: Manager, plan: Plan, types: seq<TypeId>, got: seq<Arc>)
    requires Valid(m) && plan.SetUp? && Ranked(plan.ty, plan.plan) && AreHandles(m, types, got)
    ensures var (n, r) := Setup(m, plan.ty, plan.plan);
            && Valid(n)
            && if r.Passed? then AreHandles(n, types + [plan.ty], got + [r.arc]) else AreHandles(n, types, got)
  {
    var (n, r) := Setup(m, plan.ty, plan.plan);
    SetupKeeps(m, plan.ty, plan.plan);
    HandlesStay(m, n, plan.ty.number, types, got);
    if r.Passed? {
      PassedIsThere(m, plan.ty, plan.plan);
      OneMoreHandle(n, types, got, plan.ty, r.arc);
    }
  }

  lemma {:induction false} SetUpRetains(
      ty: TypeId, m: Manager, plan: Plan, types: seq<TypeId>, got: seq<Arc>) returns (arcs: seq<Arc>)
    requires Valid(m) && Ranked(ty, plan) && AreHandles(m, types, got)
    requires plan.SetUp? && RunSetup(m, plan, got).1.Built?
    ensures AreHandles(RunSetup(m, plan, got).0, types + Given(Present(m), plan), arcs)
    ensures RunSetup(m, plan, got).1.retained == Kept(arcs, KeepOf(plan))
    decreases plan, 0
  {
    var (n, r) := Setup(m, plan.ty, plan.plan);
    GotAfterSetup(m, plan, types, got);
    GivenBySetup(m, plan);
    RunsOn(m, plan, got);
    if r.Passed? {
      arcs := RunRetains(ty, n, plan.next, types + [plan.ty], got + [r.arc]);
      ConsIsSnoc(types, plan.ty, Given(Present(n), plan.next));
    } else {
      arcs := RunRetains(ty, n, plan.next, types, got);
    }
  }

  lemma ConsIsSnoc(types: seq<TypeId>, ty: TypeId, more: seq<TypeId>)
    ensures types + [ty] + more == types + ([ty] + more)
  {
  }

  lemma PassedIsThere(m: Manager, ty: TypeId, plan: Plan)
    requires Valid(m) && Ranked(ty, plan) && Setup(m, ty, plan).1.Passed?
    ensures Get(Setup(m, ty, plan).0, ty) == Some(Setup(m, ty, plan).1.arc)
  {
    SetupIsMemoised(m, ty, plan, plan);
  }

  lemma GivenBySetup(m: Manager, plan: Plan)
    requires plan.SetUp?
    ensures var (n, r) := Setup(m, plan.ty, plan.plan);
            Given(Present(m), plan) ==
            match r
            case Passed(_) => [plan.ty] + Given(Present(n), plan.next)
            case Skipped => Given(Present(n), plan.next)
            case Failed => if plan.shielded then Given(Present(n), plan.next) else []
  {
    SetupMeetsFate(m, plan.ty, plan.plan);
  }

  /** A fixture that was built retains, for each place that its code keeps, the handle that the manager then returns for
      the type that the code was given there: each handle as often as it was kept, and nothing else. */
  lemma BuiltRetains(m: Manager, ty: TypeId, plan: Plan)
    requires Valid(m) && Ranked(ty, plan) && ty !in Present(m) && Setup(m, ty, plan).1.Passed?
    ensures var (n, r) := Setup(m, ty, plan);
            var types := Given(Present(m), plan);
            && ty in n.cache && r.arc == ArcTo(n, ty)
            && (forall k :: 0 <= k < |types| ==> Get(n, types[k]).Some? && types[k] != ty)
            && forall a :: n.cache[ty].retained[a] == |PlacesOf(n, types, KeepOf(plan), a)|
  {
    var (k, e) := RunSetup(m, plan, []);
    var arcs := RunRetains(ty, m, plan, [], []);
    var types := Given(Present(m), plan);
    assert [] + types == types;
    NothingIsOverwritten(m, ty, plan);
    var n := Insert(k, ty, e.retained);
    forall i | 0 <= i < |types|
      ensures types[i] != ty && Get(n, types[i]) == Some(arcs[i])
    {
      assert Get(k, types[i]) == Some(arcs[i]);
    }
    forall a
      ensures n.cache[ty].retained[a] == |PlacesOf(n, types, KeepOf(plan), a)|
    {
      KeptAsOften(n, types, arcs, KeepOf(plan), a);
    }
  }

  // ---------------------------------------------------------------------------------------------
  // A fixture made of others
  // ---------------------------------------------------------------------------------------------

  /** Code that sets up the types in order and keeps some of the handles. */
  function InTurn(parts: seq<(TypeId, Plan)>, keep: seq<nat>): Plan {
    if parts == [] then Retain(keep) else SetUp(parts[0].0, parts[0].1, false, InTurn(parts[1..], keep))
  }

  ghost predicate EachPasses(m: Manager, parts: seq<(TypeId, Plan)>)
    decreases |parts|
  {
    parts != [] ==>
      var (n, r) := Setup(m, parts[0].0, parts[0].1);
      r.Passed? && EachPasses(n, parts[1..])
  }

  function TypesOf(parts: seq<(TypeId, Plan)>): seq<TypeId> {
    seq(|parts|, k requires 0 <= k < |parts| => parts[k].0)
  }

  lemma {:induction false} PartsAreGiven(m: Manager, parts: seq<(TypeId, Plan)>, keep: seq<nat>)
    requires EachPasses(m, parts)
    ensures Given(Present(m), InTurn(parts, keep)) == TypesOf(parts)
    ensures FateOf(Present(m), InTurn(parts, keep)).end == MakesFixture
    ensures KeepOf(InTurn(parts, keep)) == keep
    decreases |parts|
  {
    if parts != [] {
      var (n, r) := Setup(m, parts[0].0, parts[0].1);
      SetupMeetsFate(m, parts[0].0, parts[0].1);
      PartsAreGiven(n, parts[1..], keep);
      assert TypesOf(parts) == [parts[0].0] + TypesOf(parts[1..]);
    }
  }

  /** The places in `keep` that name a part to which `a` is the handle. */
  ghost function PlacesOfParts(m: Manager, parts: seq<(TypeId, Plan)>, keep: seq<nat>, a: Arc): set<nat> {
    set i: nat | i < |keep| && keep[i] < |parts| && Get(m, parts[keep[i]].0) == Some(a)
  }

  lemma SamePlaces(m: Manager, parts: seq<(TypeId, Plan)>, keep: seq<nat>, a: Arc)
    ensures PlacesOf(m, TypesOf(parts), keep, a) == PlacesOfParts(m, parts, keep, a)
  {
  }

  /** A fixture made of others, each of whose setups passes, is built, and retains for each place `k` that it keeps the
      handle to its part `k`, as often as `k` is kept, and nothing else. */
  lemma CompositeRetains(m: Manager, ty: TypeId, parts: seq<(TypeId, Plan)>, keep: seq<nat>)
    requires Valid(m) && Ranked(ty, InTurn(parts, keep)) && ty !in Present(m) && EachPasses(m, parts)
    ensures var (n, r) := Setup(m, ty, InTurn(parts, keep));
            && r.Passed? && ty in n.cache && r.arc == ArcTo(n, ty)
            && (forall k :: 0 <= k < |parts| ==> Get(n, parts[k].0).Some?)
            && forall a :: n.cache[ty].retained[a] == |PlacesOfParts(n, parts, keep, a)|
  {
    var plan := InTurn(parts, keep);
    PartsAreGiven(m, parts, keep);
    SetupMeetsFate(m, ty, plan);
    BuiltRetains(m, ty, plan);
    var n := Setup(m, ty, plan).0;
    forall k | 0 <= k < |parts|
      ensures Get(n, parts[k].0).Some?
    {
      assert Get(n, TypesOf(parts)[k]).Some?;
    }
    forall a
      ensures n.cache[ty].retained[a] == |PlacesOfParts(n, parts, keep, a)|
    {
      SamePlaces(n, parts, keep, a);
    }
  }

  /** While somebody holds a fixture, no sweep, finished or cut short, tears down anything that its code kept: whatever
      else was set up or torn down since it was built. */
  lemma SweepSparesKept(m: Manager, ty: TypeId, plan: Plan, o: Manager, held: Holders, order: seq<TypeId>, i: nat)
    requires Valid(m) && Ranked(ty, plan) && ty !in Present(m) && Setup(m, ty, plan).1.Passed?
    requires ty in Setup(m, ty, plan).0.cache
    requires Valid(o) && AllLive(o, held) && Sweeps(o, held, order)
    requires ty in o.cache && o.cache[ty] == Setup(m, ty, plan).0.cache[ty]
    requires exists p :: p in held && ArcTo(o, ty) in held[p]
    requires i < |KeepOf(plan)| && KeepOf(plan)[i] < |Given(Present(m), plan)|
    ensures var kept := Get(Setup(m, ty, plan).0, Given(Present(m), plan)[KeepOf(plan)[i]]);
            kept.Some? && Live(o, kept.value) && Live(ExtractAll(o, order), kept.value)
    ensures ty in ExtractAll(o, order).cache && ExtractAll(o, order).cache[ty] == o.cache[ty]
  {
    var n, types, keep := Setup(m, ty, plan).0, Given(Present(m), plan), KeepOf(plan);
    BuiltRetains(m, ty, plan);
    assert Get(n, types[keep[i]]).Some?;
    var a := Get(n, types[keep[i]]).value;
    assert i in PlacesOf(n, types, keep, a);
    assert a in o.cache[ty].retained;
    SweepKeepsValid(o, held, order);
    SweepRemoves(o, order);
    assert Reachable(o, held, ty);
    SweepKeepsReachable(o, held, order, ty);
  }
}
