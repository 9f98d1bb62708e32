/**
 The fixture manager as the object that it is: a map that setups insert into and sweeps extract from, in place.
 */
module FixtureManager {
  import opened Common
  import opened Fixtures

  class Inner {
    const permanent: set<TypeId>
    var cache: map<TypeId, Instance>
    var next: nat
    var torn: seq<Arc>

    function Value(): Manager
      reads this
    {
      Manager(permanent, cache, next, torn)
    }

    constructor (permanent: set<TypeId>)
      ensures Value() == Fresh(permanent)
    {
      this.permanent, cache, next, torn := permanent, map[], 0, [];
    }

    method Get(ty: TypeId) returns (found: Option<Arc>)
      ensures found == Fixtures.Get(Value(), ty)
      ensures found.Some? ==> found.value.ty == ty && Live(Value(), found.value)
      ensures found.None? <==> ty !in Present(Value())
    {
      if ty in permanent {
        return Some(Permanent(ty));
      }
      if ty in cache {
        return Some(Cached(ty, cache[ty].id));
      }
      return None;
    }

    /** Sets up a fixture type, whose code is `plan`, unless it is there already. */
    method Setup(ty: TypeId, plan: Plan) returns (result: SetupResult)
      modifies this
      ensures (Value(), result) == Fixtures.Setup(old(Value()), ty, plan)
      decreases plan, 1
    {
      if ty in permanent || ty in cache {
        var found := Get(ty);
        return Passed(found.value);
      }
      var ended := RunCode(plan);
      match ended {
        case Panicked =>
          result := Failed;
        case NoFixture =>
          result := Skipped;
        case Built(retained) =>
          result := Passed(Cached(ty, next));
          cache, next := cache[ty := Instance(next, retained)], next + 1;
      }
    }

    /** Runs the code of a fixture: each call to the manager in turn, until it ends or a nested setup panics
        that it is not shielded from. */
    method RunCode(plan: Plan) returns (ended: Ended)
      modifies this
      ensures (Value(), ended) == RunSetup(old(Value()), plan, [])
      decreases plan, 0
    {
      var rest, got := plan, [];
      while rest.SetUp? || rest.Fetch?
        invariant rest == plan || rest < plan
        invariant RunSetup(Value(), rest, got) == RunSetup(old(Value()), plan, [])
        decreases rest
      {
        match rest {
          case SetUp(ty, nested, shielded, more) =>
            var result := Setup(ty, nested);
            match result {
              case Failed =>
                if !shielded {
                  return Panicked;
                }
              case Skipped =>
              case Passed(arc) =>
                got := got + [arc];
            }
            rest := more;
          case Fetch(ty, more) =>
            var found := Get(ty);
            if found.Some? {
              got := got + [found.value];
            } else {
              assert got + [] == got;
            }
            rest := more;
        }
      }
      ended := match rest case Retain(keep) => Built(Kept(got, keep)) case ReturnNone => NoFixture case _ => Panicked;
    }

    /** Looks at one fixture of the map; if nobody holds it, takes it out and tears it down. */
    method Visit(held: Holders, ty: TypeId, ghost m: Manager, ghost order: seq<TypeId>, ghost unseen: set<TypeId>)
      returns (took: bool)
      requires InPass(m, Value(), held, order, unseen) && ty in unseen
      modifies this
      ensures InPass(m, Value(), held, if took then order + [ty] else order, unseen - {ty})
    {
      took := Unheld(Value(), held, ty);
      if took {
        TakenInPass(m, Value(), held, order, unseen, ty);
        torn := torn + [Cached(ty, cache[ty].id)];
        cache := cache - {ty};
      } else {
        SeenInPass(m, Value(), held, order, unseen, ty);
      }
    }

    /** One pass over the cache, in whatever order the map is visited: it takes out everything that nobody held when it
        began, and what nobody holds any more when its turn comes. Where a teardown panics or the time is over,
        after `stop` of them, the pass stops there and has failed. */
    method Pass(held: Holders, stop: Option<nat>) returns (ok: bool, count: nat, ghost order: seq<TypeId>)
      requires stop != Some(0)
      modifies this
      ensures GotTo(old(Value()), Value(), held, order) && count == |order|
      ensures ok <==> stop.None? || count < stop.value
      ensures !ok ==> count == stop.value
      ensures count > 0 ==> |cache| < |old(cache)|
      ensures ok && count == 0 ==> Swept(Value(), held)
      ensures ok ==> forall ty :: ty in old(cache) && old(Unheld(Value(), held, ty)) ==> ty !in cache
    {
      ok, count, order := true, 0, [];
      var unseen := cache.Keys;
      ghost var m := Value();
      while ok && unseen != {}
        invariant InPass(m, Value(), held, order, unseen) && count == |order|
        invariant ok <==> stop.None? || count < stop.value
        invariant !ok ==> count == stop.value
        decreases unseen
      {
        var ty :| ty in unseen;
        var took := Visit(held, ty, m, order, unseen);
        unseen := unseen - {ty};
        if took {
          order, count := order + [ty], count + 1;
          ok := stop != Some(count);
        }
      }
      PassEnds(m, Value(), held, order, unseen);
    }

    /** Passes over the cache until one finds nothing, or fails, `stop` counting the teardowns of all of them. */
    method Passes(held: Holders, stop: Option<nat>) returns (ok: bool, count: nat, ghost order: seq<TypeId>)
      modifies this
      ensures GotTo(old(Value()), Value(), held, order) && count == |order|
      ensures ok ==> Swept(Value(), held)
      ensures ok <==> stop.None? || count < stop.value
    {
      ok, count, order := stop != Some(0), 0, [];
      var foundAny, left := true, stop;
      ghost var m := Value();
      while foundAny && ok
        invariant GotTo(m, Value(), held, order) && count == |order|
        invariant stop.Some? <==> left.Some?
        invariant stop.Some? ==> count + left.value == stop.value
        invariant ok <==> left != Some(0)
        invariant ok && !foundAny ==> Swept(Value(), held)
        decreases |cache|, foundAny
      {
        var found;
        ghost var more, before := [], Value();
        ok, found, more := Pass(held, left);
        GotFurther(m, before, Value(), held, order, more);
        order, count := order + more, count + found;
        foundAny := found > 0;
        left := if left.Some? then Some(left.value - found) else None;
      }
    }

    /** The sweep. It fails where a pass fails; a sweep that never gets the lock has `stop` zero. */
    method Teardown(held: Holders, stop: Option<nat>) returns (ok: bool, count: nat, ghost order: seq<TypeId>)
      modifies this
      ensures Sweeps(old(Value()), held, order) && Value() == ExtractAll(old(Value()), order) && count == |order|
      ensures ok ==> Swept(Value(), held)
      ensures ok <==> stop.None? || count < stop.value
      ensures old(Valid(Value()) && AllLive(Value(), held)) ==>
                && Valid(Value()) && AllLive(Value(), held)
                && (ok ==> Value().cache == Collected(old(Value()), held))
    {
      ghost var m := Value();
      ok, count, order := Passes(held, stop);
      SweepFacts(m, held, order);
    }
  }

  /** A sweep of `m` that has got to `n`, having extracted `order`. */
  ghost predicate GotTo(m: Manager, n: Manager, held: Holders, order: seq<TypeId>) {
    Sweeps(m, held, order) && n == ExtractAll(m, order)
  }

  lemma GotFurther(m: Manager, n: Manager, o: Manager, held: Holders, order: seq<TypeId>, more: seq<TypeId>)
    requires GotTo(m, n, held, order) && GotTo(n, o, held, more)
    ensures GotTo(m, o, held, order + more)
  {
    SweepsConcat(m, held, order, more);
    ExtractAllConcat(m, order, more);
  }

  /** A pass over `m` that has got to `n`, having extracted `order`, and has not yet looked at `unseen`. */
  ghost predicate InPass(m: Manager, n: Manager, held: Holders, order: seq<TypeId>, unseen: set<TypeId>) {
    && GotTo(m, n, held, order)
    && unseen <= n.cache.Keys
    && (if order == [] then n == m else |n.cache| < |m.cache|)
    && (forall ty :: ty in m.cache && ty !in unseen && Unheld(m, held, ty) ==> ty !in n.cache)
  }

  lemma SeenInPass(m: Manager, n: Manager, held: Holders, order: seq<TypeId>, unseen: set<TypeId>, ty: TypeId)
    requires InPass(m, n, held, order, unseen) && ty in unseen && !Unheld(n, held, ty)
    ensures InPass(m, n, held, order, unseen - {ty})
  {
    UnheldStays(m, n, held, order, ty);
  }

  /** What nobody held when the pass began, nobody holds later in the pass. */
  lemma UnheldStays(m: Manager, n: Manager, held: Holders, order: seq<TypeId>, ty: TypeId)
    requires GotTo(m, n, held, order) && ty in n.cache
    ensures ty in m.cache && (Unheld(m, held, ty) ==> Unheld(n, held, ty))
  {
    SweepRemoves(m, order);
  }

  lemma TakenInPass(m: Manager, n: Manager, held: Holders, order: seq<TypeId>, unseen: set<TypeId>, ty: TypeId)
    requires InPass(m, n, held, order, unseen) && ty in unseen && Unheld(n, held, ty)
    ensures InPass(m, Extract(n, ty), held, order + [ty], unseen - {ty})
  {
    CountIsOne(n, held, ty);
    SweepsOne(n, held, ty);
    GotFurther(m, n, Extract(n, ty), held, order, [ty]);
    ExtractCount(n, ty);
  }

  /** What a pass has done when it stops; at its end, if it took nothing out, nothing has count one. */
  lemma PassEnds(m: Manager, n: Manager, held: Holders, order: seq<TypeId>, unseen: set<TypeId>)
    requires InPass(m, n, held, order, unseen)
    ensures GotTo(m, n, held, order)
    ensures order != [] ==> |n.cache| < |m.cache|
    ensures order == [] && unseen == {} ==> Swept(n, held)
    ensures unseen == {} ==> forall ty :: ty in m.cache && Unheld(m, held, ty) ==> ty !in n.cache
  {
    if order == [] && unseen == {} {
      NoneUnheldIsSwept(n, held);
    }
  }

  lemma NoneUnheldIsSwept(m: Manager, held: Holders)
    requires forall ty :: ty in m.cache ==> !Unheld(m, held, ty)
    ensures Swept(m, held)
  {
    forall ty | ty in m.cache
      ensures StrongCount(m, held, ty) != 1
    {
      CountIsOne(m, held, ty);
    }
  }

  /** What a sweep that got as far as `order` has kept and, if nothing has count one any more, reached. */
  lemma SweepFacts(m: Manager, held: Holders, order: seq<TypeId>)
    requires Sweeps(m, held, order)
    ensures Valid(m) && AllLive(m, held) ==>
              && Valid(ExtractAll(m, order)) && AllLive(ExtractAll(m, order), held)
              && (Swept(ExtractAll(m, order), held) ==> ExtractAll(m, order).cache == Collected(m, held))
  {
    if Valid(m) && AllLive(m, held) {
      SweepKeepsValid(m, held, order);
      if Swept(ExtractAll(m, order), held) {
        SweepIsExact(m, held, order);
      }
    }
  }
}
