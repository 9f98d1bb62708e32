/**
 The fixture manager: a memoising recursive setup, and a sweep that collects the cached fixtures nobody holds.
 */
module Fixtures {
  import opened Common
  import Paths

  /** A handle: `Arc<F>` to a permanent fixture, or to one instance in the cache. */
  datatype Arc = Permanent(ty: TypeId) | Cached(ty: TypeId, id: nat)

  /** A fixture that was set up, with the handles it retains. Instances are numbered as they are created. */
  datatype Instance = Instance(id: nat, retained: multiset<Arc>)

  /** `torn` lists the instances taken out of the cache and handed to their teardown, in order. */
  datatype Manager = Manager(permanent: set<TypeId>, cache: map<TypeId, Instance>, next: nat, torn: seq<Arc>)

  /** The handles held outside the cache, by whoever holds them. */
  type Holders = map<Paths.Path, multiset<Arc>>

  function Fresh(permanent: set<TypeId>): Manager {
    Manager(permanent, map[], 0, [])
  }

  function ArcTo(m: Manager, ty: TypeId): Arc
    requires ty in m.cache
  {
    Cached(ty, m.cache[ty].id)
  }

  /** The handle leads to a permanent fixture or to the instance that is in the cache now. */
  predicate Live(m: Manager, a: Arc) {
    match a
    case Permanent(ty) => ty in m.permanent
    case Cached(ty, id) => ty in m.cache && m.cache[ty].id == id
  }

  ghost predicate AllLive(m: Manager, held: Holders) {
    forall p, a :: p in held && a in held[p] ==> Live(m, a)
  }

  // ---------------------------------------------------------------------------------------------
  // Setup
  // ---------------------------------------------------------------------------------------------

  /** What the code of one fixture does in one execution while it is set up: the calls it makes to the manager, one
      after the other, and how it ends. It keeps handles it got, each any number of times, given by their places among
      the handles it got. A panic is also how a timeout ends it. Code that is `shielded` from a nested setup, by a
      timeout of its own or by catching the panic, goes on when that setup fails; otherwise the panic ends it too. */
  datatype Plan =
    | SetUp(ty: TypeId, plan: Plan, shielded: bool, next: Plan)
    | Fetch(ty: TypeId, next: Plan)
    | Retain(keep: seq<nat>)
    | ReturnNone
    | Panic

  datatype SetupResult = Passed(arc: Arc) | Skipped | Failed

  /** A fixture sets up only fixture types of smaller number. */
  ghost predicate Ranked(ty: TypeId, plan: Plan)
    decreases plan
  {
    match plan
    case SetUp(t, p, _, next) => t.number < ty.number && Ranked(t, p) && Ranked(ty, next)
    case Fetch(t, next) => Ranked(ty, next)
    case _ => true
  }

  function Get(m: Manager, ty: TypeId): Option<Arc> {
    if ty in m.permanent then Some(Permanent(ty))
    else if ty in m.cache then Some(ArcTo(m, ty))
    else None
  }

  function Kept(got: seq<Arc>, keep: seq<nat>): multiset<Arc> {
    if keep == [] then multiset{}
    else
      Kept(got, keep[..|keep| - 1])
      + if keep[|keep| - 1] < |got| then multiset{got[keep[|keep| - 1]]} else multiset{}
  }

  function Insert(m: Manager, ty: TypeId, retained: multiset<Arc>): Manager {
    m.(cache := m.cache[ty := Instance(m.next, retained)], next := m.next + 1)
  }

  function Setup(m: Manager, ty: TypeId, plan: Plan): (Manager, SetupResult)
    decreases plan, 1
  {
    if ty in m.permanent || ty in m.cache then (m, Passed(Get(m, ty).value))
    else
      var (n, r) := RunSetup(m, plan, []);
      match r
      case Panicked => (n, Failed)
      case NoFixture => (n, Skipped)
      case Built(retained) => (Insert(n, ty, retained), Passed(Cached(ty, n.next)))
  }

  /** How the code of a fixture ended: with a fixture that retains these handles, with none, or in a panic. */
  datatype Ended = Built(retained: multiset<Arc>) | NoFixture | Panicked

  /** The rest of the code of a fixture, having got `got`. */
  function RunSetup(m: Manager, plan: Plan, got: seq<Arc>): (Manager, Ended)
    decreases plan, 0
  {
    match plan
    case Retain(keep) => (m, Built(Kept(got, keep)))
    case ReturnNone => (m, NoFixture)
    case Panic => (m, Panicked)
    case Fetch(ty, next) => RunSetup(m, next, got + match Get(m, ty) case None => [] case Some(a) => [a])
    case SetUp(ty, nested, shielded, next) =>
      var (n, r) := Setup(m, ty, nested);
      match r
      case Failed => if shielded then RunSetup(n, next, got) else (n, Panicked)
      case Skipped => RunSetup(n, next, got)
      case Passed(a) => RunSetup(n, next, got + [a])
  }

  // ---------------------------------------------------------------------------------------------
  // The sweep
  // ---------------------------------------------------------------------------------------------

  /** How often each cached fixture retains the handle, and how often each outside holder has it. */
  ghost function RetainedBy(m: Manager, a: Arc): map<TypeId, nat> {
    map t | t in m.cache :: m.cache[t].retained[a]
  }

  ghost function HeldBy(held: Holders, a: Arc): map<Paths.Path, nat> {
    map p | p in held :: held[p][a]
  }

  /** `Arc::strong_count` of a cached fixture: the cache entry, the handles retained in the cache, and those outside. */
  ghost function StrongCount(m: Manager, held: Holders, ty: TypeId): nat
    requires ty in m.cache
  {
    1 + Sum(RetainedBy(m, ArcTo(m, ty))) + Sum(HeldBy(held, ArcTo(m, ty)))
  }

  /** Nobody but the cache has a handle to the fixture. */
  predicate Unheld(m: Manager, held: Holders, ty: TypeId)
    requires ty in m.cache
  {
    && (forall t :: t in m.cache ==> ArcTo(m, ty) !in m.cache[t].retained)
    && (forall p :: p in held ==> ArcTo(m, ty) !in held[p])
  }

  lemma CountIsOne(m: Manager, held: Holders, ty: TypeId)
    requires ty in m.cache
    ensures StrongCount(m, held, ty) == 1 <==> Unheld(m, held, ty)
  {
    var a := ArcTo(m, ty);
    SumZero(RetainedBy(m, a));
    SumZero(HeldBy(held, a));
    if StrongCount(m, held, ty) == 1 {
      assert forall t :: t in m.cache ==> RetainedBy(m, a)[t] == 0;
      assert forall p :: p in held ==> HeldBy(held, a)[p] == 0;
    }
  }

  /** One more handle outside the cache makes the count one more. */
  lemma CountsHeld(m: Manager, held: Holders, p: Paths.Path, ty: TypeId)
    requires ty in m.cache && p in held
    ensures StrongCount(m, held[p := held[p] + multiset{ArcTo(m, ty)}], ty) == StrongCount(m, held, ty) + 1
  {
    var a := ArcTo(m, ty);
    var more := held[p := held[p] + multiset{a}];
    SumUpdate(HeldBy(held, a), p, held[p][a] + 1);
    assert HeldBy(more, a) == HeldBy(held, a)[p := held[p][a] + 1];
  }

  /** So does one more handle that a cached fixture retains. */
  lemma CountsRetained(m: Manager, held: Holders, t: TypeId, ty: TypeId)
    requires ty in m.cache && t in m.cache
    ensures var i := m.cache[t];
            var more := m.(cache := m.cache[t := i.(retained := i.retained + multiset{ArcTo(m, ty)})]);
            ty in more.cache && StrongCount(more, held, ty) == StrongCount(m, held, ty) + 1
  {
    var a, i := ArcTo(m, ty), m.cache[t];
    var more := m.(cache := m.cache[t := i.(retained := i.retained + multiset{a})]);
    assert ArcTo(more, ty) == a;
    SumUpdate(RetainedBy(m, a), t, i.retained[a] + 1);
    assert RetainedBy(more, a) == RetainedBy(m, a)[t := i.retained[a] + 1];
  }

  function Extract(m: Manager, ty: TypeId): Manager
    requires ty in m.cache
  {
    m.(cache := m.cache - {ty}, torn := m.torn + [ArcTo(m, ty)])
  }

  function ExtractAll(m: Manager, order: seq<TypeId>): Manager
    decreases |order|
  {
    if order == [] then m
    else ExtractAll(if order[0] in m.cache then Extract(m, order[0]) else m, order[1..])
  }

  /** Each fixture extracted has count one when its turn comes; the counts fall as fixtures before it are torn down. */
  ghost predicate Sweeps(m: Manager, held: Holders, order: seq<TypeId>)
    decreases |order|
  {
    order != [] ==>
      && order[0] in m.cache
      && StrongCount(m, held, order[0]) == 1
      && Sweeps(Extract(m, order[0]), held, order[1..])
  }

  /** No cached fixture has count one: the sweep has nothing left to do. */
  ghost predicate Swept(m: Manager, held: Holders) {
    forall ty {:trigger StrongCount(m, held, ty)} :: ty in m.cache ==> StrongCount(m, held, ty) != 1
  }

  // ---------------------------------------------------------------------------------------------
  // The invariant of the manager
  // ---------------------------------------------------------------------------------------------

  ghost predicate Valid(m: Manager) {
    ValidCache(m) && ValidHistory(m)
  }

  /** Instances are numbered apart; a cached instance retains live handles to older instances; no permanent type is
      cached. */
  ghost predicate ValidCache(m: Manager) {
    && (forall t :: t in m.cache ==> t !in m.permanent)
    && (forall t :: t in m.cache ==> m.cache[t].id < m.next)
    && (forall t, u :: t in m.cache && u in m.cache && m.cache[t].id == m.cache[u].id ==> t == u)
    && (forall t, a :: t in m.cache && a in m.cache[t].retained ==> Live(m, a))
    && (forall t, a :: t in m.cache && a in m.cache[t].retained && a.Cached? ==> a.id < m.cache[t].id)
  }

  /** Every instance ever created is either cached or was torn down, once. */
  ghost predicate ValidHistory(m: Manager) {
    && (forall i :: 0 <= i < |m.torn| ==> m.torn[i].Cached? && m.torn[i].id < m.next && m.torn[i].ty !in m.permanent)
    && (forall i, j :: 0 <= i < j < |m.torn| ==> m.torn[i].id != m.torn[j].id)
    && (forall i, t :: 0 <= i < |m.torn| && t in m.cache ==> m.torn[i].id != m.cache[t].id)
    && m.next == |m.cache| + |m.torn|
  }

  /** Setting up only adds: every cached instance stays, and the new ones have types up to `bound`. */
  ghost predicate Grows(m: Manager, n: Manager, bound: int) {
    && n.permanent == m.permanent
    && n.torn == m.torn
    && n.next >= m.next
    && (forall t :: t in m.cache ==> t in n.cache && n.cache[t] == m.cache[t])
    && (forall t :: t in n.cache && t !in m.cache ==> t.number <= bound && n.cache[t].id >= m.next)
  }

  lemma GrowsTrans(m: Manager, n: Manager, o: Manager, bound: int, wider: int)
    requires Grows(m, n, bound) && Grows(n, o, wider) && bound <= wider
    ensures Grows(m, o, wider)
  {
  }

  lemma GrowsLive(m: Manager, n: Manager, bound: int, a: Arc)
    requires Grows(m, n, bound) && Live(m, a)
    ensures Live(n, a)
  {
  }

  lemma FreshIsValid(permanent: set<TypeId>)
    ensures Valid(Fresh(permanent))
  {
  }

  lemma {:induction false} KeptFrom(got: seq<Arc>, keep: seq<nat>, a: Arc)
    requires a in Kept(got, keep)
    ensures a in got
  {
    var init := keep[..|keep| - 1];
    if a in Kept(got, init) {
      KeptFrom(got, init, a);
    }
  }

  /** The insertion at the end of a setup meets no live instance of the type, so it overwrites none. */
  lemma InsertKeeps(m: Manager, ty: TypeId, retained: multiset<Arc>)
    requires Valid(m) && ty !in m.permanent && ty !in m.cache
    requires forall a :: a in retained ==> Live(m, a)
    ensures Valid(Insert(m, ty, retained))
    ensures Grows(m, Insert(m, ty, retained), ty.number)
  {
    InsertKeepsCache(m, ty, retained);
    InsertKeepsHistory(m, ty, retained);
  }

  lemma InsertKeepsHistory(m: Manager, ty: TypeId, retained: multiset<Arc>)
    requires ValidHistory(m) && ty !in m.cache
    ensures ValidHistory(Insert(m, ty, retained))
  {
    var n := Insert(m, ty, retained);
    assert n.cache.Keys == m.cache.Keys + {ty};
    assert |n.cache| == |n.cache.Keys| == |m.cache.Keys| + 1;
  }

  /** What `ValidCache` says of one cached fixture. */
  ghost predicate WellRetained(m: Manager, t: TypeId)
    requires t in m.cache
  {
    forall a :: a in m.cache[t].retained ==> Live(m, a) && (a.Cached? ==> a.id < m.cache[t].id)
  }

  lemma InsertKeepsRetained(m: Manager, ty: TypeId, retained: multiset<Arc>, t: TypeId)
    requires ValidCache(m) && ty !in m.permanent && ty !in m.cache
    requires forall a :: a in retained ==> Live(m, a)
    requires t in Insert(m, ty, retained).cache
    ensures WellRetained(Insert(m, ty, retained), t)
  {
    var n := Insert(m, ty, retained);
    forall a | a in n.cache[t].retained
      ensures Live(n, a) && (a.Cached? ==> a.id < n.cache[t].id)
    {
      if t != ty {
        assert a in m.cache[t].retained;
      }
      assert Live(m, a);
    }
  }

  lemma InsertKeepsCache(m: Manager, ty: TypeId, retained: multiset<Arc>)
    requires ValidCache(m) && ty !in m.permanent && ty !in m.cache
    requires forall a :: a in retained ==> Live(m, a)
    ensures ValidCache(Insert(m, ty, retained))
  {
    var n := Insert(m, ty, retained);
    forall t | t in n.cache
      ensures WellRetained(n, t)
    {
      InsertKeepsRetained(m, ty, retained, t);
    }
  }

  /** A setup keeps the invariant and every instance that was cached; on success it returns the instance of its type
      that the cache now holds. It may leave nested fixtures behind however it ends. */
  lemma {:induction false} SetupKeeps(m: Manager, ty: TypeId, plan: Plan)
    requires Valid(m) && Ranked(ty, plan)
    ensures var (n, r) := Setup(m, ty, plan);
            && Valid(n) && Grows(m, n, ty.number)
            && (r.Passed? ==> r.arc.ty == ty && Live(n, r.arc))
            && (r.Passed? && (ty in m.permanent || ty in m.cache) ==> n == m)
            && (!r.Passed? ==> ty !in n.cache)
    decreases plan, 1
  {
    if ty !in m.permanent && ty !in m.cache {
      RunSetupKeeps(ty, m, plan, []);
      var (n, r) := RunSetup(m, plan, []);
      assert ty !in n.cache && ty !in n.permanent;
      match r
      case Panicked => GrowsWider(m, n, ty.number - 1, ty.number);
      case NoFixture => GrowsWider(m, n, ty.number - 1, ty.number);
      case Built(retained) => BuiltKeeps(m, n, ty, retained);
    }
  }

  /** When the code of a fixture has ended and its instance is inserted, the cache holds no instance of its type: the
      insertion overwrites nothing, however the nested setups went. */
  lemma NothingIsOverwritten(m: Manager, ty: TypeId, plan: Plan)
    requires Valid(m) && Ranked(ty, plan) && ty !in m.permanent && ty !in m.cache
    ensures ty !in RunSetup(m, plan, []).0.cache && ty !in RunSetup(m, plan, []).0.permanent
  {
    RunSetupKeeps(ty, m, plan, []);
  }

  lemma GrowsWider(m: Manager, n: Manager, bound: int, wider: int)
    requires Grows(m, n, bound) && bound <= wider
    ensures Grows(m, n, wider)
  {
  }

  lemma BuiltKeeps(m: Manager, n: Manager, ty: TypeId, retained: multiset<Arc>)
    requires Valid(n) && Grows(m, n, ty.number - 1) && ty !in n.cache && ty !in n.permanent
    requires forall a :: a in retained ==> Live(n, a)
    ensures var o := Insert(n, ty, retained);
            Valid(o) && Grows(m, o, ty.number) && Live(o, Cached(ty, n.next))
  {
    InsertKeeps(n, ty, retained);
    GrowsTrans(m, n, Insert(n, ty, retained), ty.number - 1, ty.number);
  }

  /** How a manager may look after the code of a fixture of type `ty`, run on `m`, has ended. */
  ghost predicate LeftInOrder(m: Manager, ty: TypeId, n: Manager, e: Ended) {
    && Valid(n) && Grows(m, n, ty.number - 1)
    && (e.Built? ==> forall a :: a in e.retained ==> Live(n, a))
  }

  ghost predicate GotAreLive(m: Manager, got: seq<Arc>) {
    forall i :: 0 <= i < |got| ==> Live(m, got[i])
  }

  lemma {:induction false} RunSetupKeeps(ty: TypeId, m: Manager, plan: Plan, got: seq<Arc>)
    requires Valid(m) && Ranked(ty, plan) && GotAreLive(m, got)
    ensures LeftInOrder(m, ty, RunSetup(m, plan, got).0, RunSetup(m, plan, got).1)
    decreases plan, 0
  {
    match plan
    case Retain(keep) =>
      KeptAreLive(m, got, keep);
    case ReturnNone =>
    case Panic =>
    case Fetch(t, next) =>
      var more := got + match Get(m, t) case None => [] case Some(a) => [a];
      assert GotAreLive(m, more);
      RunSetupKeeps(ty, m, next, more);
    case SetUp(t, nested, shielded, next) =>
      SetupKeeps(m, t, nested);
      var (n, r) := Setup(m, t, nested);
      GrowsWider(m, n, t.number, ty.number - 1);
      if !r.Failed? || shielded {
        var more := if r.Passed? then got + [r.arc] else got;
        GotStaysLive(m, n, ty.number - 1, got, r);
        RunSetupKeeps(ty, n, next, more);
        LeftInOrderTrans(m, ty, n, RunSetup(n, next, more).0, RunSetup(n, next, more).1);
      }
  }

  lemma LeftInOrderTrans(m: Manager, ty: TypeId, n: Manager, o: Manager, e: Ended)
    requires Grows(m, n, ty.number - 1) && LeftInOrder(n, ty, o, e)
    ensures LeftInOrder(m, ty, o, e)
  {
    GrowsTrans(m, n, o, ty.number - 1, ty.number - 1);
  }

  lemma KeptAreLive(m: Manager, got: seq<Arc>, keep: seq<nat>)
    requires GotAreLive(m, got)
    ensures forall a :: a in Kept(got, keep) ==> Live(m, a)
  {
    forall a | a in Kept(got, keep)
      ensures Live(m, a)
    {
      KeptFrom(got, keep, a);
    }
  }

  lemma GotStaysLive(m: Manager, n: Manager, bound: int, got: seq<Arc>, r: SetupResult)
    requires Grows(m, n, bound) && GotAreLive(m, got)
    requires r.Passed? ==> Live(n, r.arc)
    ensures GotAreLive(n, if r.Passed? then got + [r.arc] else got)
  {
    forall i | 0 <= i < |got|
      ensures Live(n, got[i])
    {
      GrowsLive(m, n, bound, got[i]);
    }
  }

  /** The types that are there: their setup runs no code. */
  function Present(m: Manager): set<TypeId> {
    m.permanent + m.cache.Keys
  }

  /** How code ends and which types it leaves, told from the types that are there alone: no handle and no instance
      plays a part. */
  datatype Fate = Fate(present: set<TypeId>, end: End)
  datatype End = MakesFixture | MakesNone | Breaks

  function FateOf(present: set<TypeId>, plan: Plan): Fate
    decreases plan
  {
    match plan
    case Retain(_) => Fate(present, MakesFixture)
    case ReturnNone => Fate(present, MakesNone)
    case Panic => Fate(present, Breaks)
    case Fetch(_, next) => FateOf(present, next)
    case SetUp(ty, nested, shielded, next) =>
      if ty in present then FateOf(present, next)
      else
        var inner := FateOf(present, nested);
        if inner.end == Breaks && !shielded then inner
        else FateOf(if inner.end == MakesFixture then inner.present + {ty} else inner.present, next)
  }

  /** A setup of a type that is there runs no code, returns the fixture and changes nothing. Otherwise it fails iff the
      code of the fixture gets to a panic that nothing shields it from, it is skipped iff the code makes no fixture, and
      the types that are there afterwards, nested ones included, are those that the code leaves, with its own if it
      passes. */
  lemma {:induction false} SetupMeetsFate(m: Manager, ty: TypeId, plan: Plan)
    ensures var (n, r) := Setup(m, ty, plan);
            var fate := FateOf(Present(m), plan);
            if ty in Present(m) then
              n == m && r.Passed? && Get(m, ty) == Some(r.arc)
            else
              && (r.Failed? <==> fate.end == Breaks)
              && (r.Skipped? <==> fate.end == MakesNone)
              && Present(n) == if r.Passed? then fate.present + {ty} else fate.present
    decreases plan, 1
  {
    RunMeetsFate(m, plan, []);
    var (n, e) := RunSetup(m, plan, []);
    if e.Built? {
      assert Insert(n, ty, e.retained).cache.Keys == n.cache.Keys + {ty};
    }
  }

  lemma {:induction false} RunMeetsFate(m: Manager, plan: Plan, got: seq<Arc>)
    ensures var (n, e) := RunSetup(m, plan, got);
            var fate := FateOf(Present(m), plan);
            && (e.Panicked? <==> fate.end == Breaks)
            && (e.NoFixture? <==> fate.end == MakesNone)
            && Present(n) == fate.present
    decreases plan, 0
  {
    match plan
    case SetUp(t, nested, shielded, next) =>
      SetupMeetsFate(m, t, nested);
      var (n, r) := Setup(m, t, nested);
      RunMeetsFate(n, next, if r.Passed? then got + [r.arc] else got);
    case Fetch(t, next) =>
      RunMeetsFate(m, next, got + match Get(m, t) case None => [] case Some(a) => [a]);
    case _ =>
  }

  /** The handle that a setup returns is one of its type. */
  lemma SetupHasType(m: Manager, ty: TypeId, plan: Plan)
    ensures Setup(m, ty, plan).1.Passed? ==> Setup(m, ty, plan).1.arc.ty == ty
  {
  }

  /** Setting up a type again returns the same instance and changes nothing. */
  lemma SetupIsMemoised(m: Manager, ty: TypeId, plan: Plan, again: Plan)
    requires Valid(m) && Ranked(ty, plan)
    ensures var (n, r) := Setup(m, ty, plan);
            r.Passed? ==> Setup(n, ty, again) == (n, r) && Get(n, ty) == Some(r.arc)
  {
    SetupKeeps(m, ty, plan);
  }

  // ---------------------------------------------------------------------------------------------
  // Reachability
  // ---------------------------------------------------------------------------------------------

  /** Somebody outside the cache holds the fixture, or a reachable cached fixture retains it. */
  ghost predicate Reachable(m: Manager, held: Holders, ty: TypeId)
    requires ty in m.cache
    decreases m.next - m.cache[ty].id
  {
    || (exists p :: p in held && ArcTo(m, ty) in held[p])
    || (exists u :: Retains(m, u, ty) && Reachable(m, held, u))
  }

  /** One cached fixture retains a handle to another, which is then the older one. */
  predicate Retains(m: Manager, u: TypeId, ty: TypeId)
    requires ty in m.cache
  {
    u in m.cache && ArcTo(m, ty) in m.cache[u].retained && m.cache[ty].id < m.cache[u].id < m.next
  }

  ghost function ReachableSet(m: Manager, held: Holders): set<TypeId> {
    set ty | ty in m.cache && Reachable(m, held, ty)
  }

  /** The part of the cache that is reachable. */
  ghost function Collected(m: Manager, held: Holders): map<TypeId, Instance> {
    Restrict(m.cache, ReachableSet(m, held))
  }

  /** The manager with nothing cached but what is reachable. */
  ghost function Core(m: Manager, held: Holders): Manager {
    m.(cache := Collected(m, held))
  }

  lemma {:induction false} CoreIsReachable(m: Manager, held: Holders, ty: TypeId)
    requires ty in m.cache && Reachable(m, held, ty)
    ensures ty in Core(m, held).cache && Reachable(Core(m, held), held, ty)
    decreases m.next - m.cache[ty].id
  {
    var n := Core(m, held);
    assert ArcTo(n, ty) == ArcTo(m, ty);
    if u :| Retains(m, u, ty) && Reachable(m, held, u) {
      CoreIsReachable(m, held, u);
      assert Retains(n, u, ty);
    }
  }

  /** What a reachable fixture retains is reachable. */
  lemma RetainedIsReachable(m: Manager, held: Holders, t: TypeId, a: Arc)
    requires ValidCache(m) && t in m.cache && Reachable(m, held, t) && a in m.cache[t].retained && a.Cached?
    ensures a.ty in m.cache && ArcTo(m, a.ty) == a && Reachable(m, held, a.ty)
  {
    assert Live(m, a);
    assert Retains(m, t, a.ty);
  }

  lemma HeldIsReachable(m: Manager, held: Holders, p: Paths.Path, a: Arc)
    requires AllLive(m, held) && p in held && a in held[p] && a.Cached?
    ensures a.ty in m.cache && ArcTo(m, a.ty) == a && Reachable(m, held, a.ty)
  {
    assert Live(m, a);
  }

  /** The core is in order, and the handles held outside lead into it. */
  lemma CoreIsValid(m: Manager, held: Holders)
    requires ValidCache(m) && AllLive(m, held)
    ensures ValidCache(Core(m, held)) && AllLive(Core(m, held), held)
  {
    var n := Core(m, held);
    forall t | t in n.cache
      ensures WellRetained(n, t)
    {
      CoreKeepsRetained(m, held, t);
    }
    forall p, a | p in held && a in held[p]
      ensures Live(n, a)
    {
      assert Live(m, a);
      if a.Cached? {
        HeldIsReachable(m, held, p, a);
      }
    }
  }

  lemma CoreKeepsRetained(m: Manager, held: Holders, t: TypeId)
    requires ValidCache(m) && t in Core(m, held).cache
    ensures WellRetained(Core(m, held), t)
  {
    forall a | a in m.cache[t].retained
      ensures Live(Core(m, held), a) && (a.Cached? ==> a.id < m.cache[t].id)
    {
      assert Live(m, a);
      if a.Cached? {
        RetainedIsReachable(m, held, t, a);
      }
    }
  }

  /** A reachable fixture has a holder. */
  lemma ReachableIsHeld(m: Manager, held: Holders, ty: TypeId)
    requires ty in m.cache && Reachable(m, held, ty)
    ensures !Unheld(m, held, ty)
  {
  }

  /** Extracting a fixture nobody holds keeps the invariant. */
  lemma ExtractKeeps(m: Manager, held: Holders, ty: TypeId)
    requires Valid(m) && AllLive(m, held) && ty in m.cache && Unheld(m, held, ty)
    ensures Valid(Extract(m, ty)) && AllLive(Extract(m, ty), held)
  {
    ExtractKeepsHistory(m, ty);
    var n := Extract(m, ty);
    assert forall t :: t in n.cache ==> t in m.cache && n.cache[t] == m.cache[t];
    forall t, a | t in n.cache && a in n.cache[t].retained
      ensures Live(n, a)
    {
      assert a in m.cache[t].retained;
      assert Live(m, a) && a != ArcTo(m, ty);
    }
    forall p, a | p in held && a in held[p]
      ensures Live(n, a)
    {
      assert Live(m, a) && a != ArcTo(m, ty);
    }
  }

  lemma ExtractCount(m: Manager, ty: TypeId)
    requires ty in m.cache
    ensures |Extract(m, ty).cache| == |m.cache| - 1
  {
    assert Extract(m, ty).cache.Keys == m.cache.Keys - {ty};
  }

  ghost predicate Distinct(torn: seq<Arc>) {
    && (forall i :: 0 <= i < |torn| ==> torn[i].Cached?)
    && (forall i, j :: 0 <= i < j < |torn| ==> torn[i].id != torn[j].id)
  }

  lemma DistinctSnoc(torn: seq<Arc>, a: Arc)
    requires Distinct(torn) && a.Cached? && forall i :: 0 <= i < |torn| ==> torn[i].id != a.id
    ensures Distinct(torn + [a])
  {
  }

  lemma ExtractKeepsHistory(m: Manager, ty: TypeId)
    requires Valid(m) && ty in m.cache
    ensures ValidHistory(Extract(m, ty))
  {
    var n, a := Extract(m, ty), ArcTo(m, ty);
    ExtractCount(m, ty);
    DistinctSnoc(m.torn, a);
    assert n.torn == m.torn + [a];
    forall i | 0 <= i < |n.torn|
      ensures n.torn[i].id < n.next && n.torn[i].ty !in n.permanent
      ensures forall t :: t in n.cache ==> n.torn[i].id != n.cache[t].id
    {
      assert n.torn[i] == if i < |m.torn| then m.torn[i] else a;
    }
  }

  /** Extracting a fixture nobody holds keeps the reachability of all others. */
  lemma {:induction false} ExtractKeepsReachable(m: Manager, held: Holders, ty: TypeId, t: TypeId)
    requires ty in m.cache && Unheld(m, held, ty)
    requires t in m.cache && t != ty
    ensures Reachable(m, held, t) <==> Reachable(Extract(m, ty), held, t)
    decreases m.next - m.cache[t].id
  {
    var n := Extract(m, ty);
    assert ArcTo(n, t) == ArcTo(m, t);
    forall u | Retains(m, u, t) && Reachable(m, held, u)
      ensures Retains(n, u, t) && Reachable(n, held, u)
    {
      ReachableIsHeld(m, held, u);
      ExtractKeepsReachable(m, held, ty, u);
    }
    forall u | Retains(n, u, t) && Reachable(n, held, u)
      ensures Retains(m, u, t) && Reachable(m, held, u)
    {
      ExtractKeepsReachable(m, held, ty, u);
    }
  }

  /** A sweep, complete or cut short, keeps the invariant and all handles held outside. */
  lemma {:induction false} SweepKeepsValid(m: Manager, held: Holders, order: seq<TypeId>)
    requires Valid(m) && AllLive(m, held) && Sweeps(m, held, order)
    ensures Valid(ExtractAll(m, order)) && AllLive(ExtractAll(m, order), held)
    decreases |order|
  {
    if order != [] {
      CountIsOne(m, held, order[0]);
      ExtractKeeps(m, held, order[0]);
      SweepKeepsValid(Extract(m, order[0]), held, order[1..]);
    }
  }

  /** It removes exactly the fixtures it extracts; the others keep their instances. */
  lemma {:induction false} SweepRemoves(m: Manager, order: seq<TypeId>)
    ensures var n := ExtractAll(m, order);
            && n.permanent == m.permanent && n.next == m.next
            && (forall t :: t in n.cache ==> t in m.cache && n.cache[t] == m.cache[t])
            && (forall t :: t in m.cache ==> (t in n.cache <==> t !in order))
    decreases |order|
  {
    if order != [] {
      var k := if order[0] in m.cache then Extract(m, order[0]) else m;
      SweepRemoves(k, order[1..]);
      assert order == [order[0]] + order[1..];
      assert forall t :: t in k.cache ==> t in m.cache && k.cache[t] == m.cache[t];
    }
  }

  /** It removes no reachable fixture, and makes none reachable or unreachable. */
  lemma {:induction false} SweepKeepsReachable(m: Manager, held: Holders, order: seq<TypeId>, t: TypeId)
    requires Sweeps(m, held, order) && t in m.cache
    ensures Reachable(m, held, t) ==> t in ExtractAll(m, order).cache
    ensures t in ExtractAll(m, order).cache ==>
              (Reachable(m, held, t) <==> Reachable(ExtractAll(m, order), held, t))
    decreases |order|
  {
    if order != [] {
      var ty := order[0];
      CountIsOne(m, held, ty);
      var k := Extract(m, ty);
      if t == ty {
        if Reachable(m, held, t) {
          ReachableIsHeld(m, held, t);
        }
        SweepRemoves(k, order[1..]);
      } else {
        ExtractKeepsReachable(m, held, ty, t);
        SweepKeepsReachable(k, held, order[1..], t);
      }
    }
  }

  /** When nothing has count one, everything cached is reachable: follow the holders to younger instances. */
  lemma {:induction false} SweptIsReachable(m: Manager, held: Holders, ty: TypeId)
    requires ValidCache(m) && Swept(m, held) && ty in m.cache
    ensures Reachable(m, held, ty)
    decreases m.next - m.cache[ty].id
  {
    CountIsOne(m, held, ty);
    if t :| t in m.cache && ArcTo(m, ty) in m.cache[t].retained {
      assert Retains(m, t, ty);
      SweptIsReachable(m, held, t);
    }
  }

  /** A fixture survives a sweep that finishes iff it is reachable. */
  lemma SurvivesIffReachable(m: Manager, held: Holders, order: seq<TypeId>, t: TypeId)
    requires Valid(m) && AllLive(m, held)
    requires Sweeps(m, held, order) && Swept(ExtractAll(m, order), held)
    requires t in m.cache
    ensures t in ExtractAll(m, order).cache <==> t in ReachableSet(m, held)
  {
    SweepKeepsReachable(m, held, order, t);
    if t in ExtractAll(m, order).cache {
      SweepKeepsValid(m, held, order);
      SweptIsReachable(ExtractAll(m, order), held, t);
    }
  }

  /** A sweep that finishes leaves exactly the fixtures reachable from the handles held outside the cache. */
  lemma SweepIsExact(m: Manager, held: Holders, order: seq<TypeId>)
    requires Valid(m) && AllLive(m, held)
    requires Sweeps(m, held, order) && Swept(ExtractAll(m, order), held)
    ensures ExtractAll(m, order).cache == Collected(m, held)
    ensures forall t :: t in m.cache ==> (t in order <==> t !in ReachableSet(m, held))
  {
    var n := ExtractAll(m, order);
    SweepRemoves(m, order);
    forall t | t in m.cache
      ensures t in n.cache <==> t in ReachableSet(m, held)
    {
      SurvivesIffReachable(m, held, order, t);
    }
    RestrictionIs(m.cache, n.cache, ReachableSet(m, held));
  }

  /** With no handle outside, a sweep that finishes empties the cache. */
  lemma UnheldCacheIsEmptied(m: Manager, held: Holders, order: seq<TypeId>)
    requires Valid(m) && AllLive(m, held)
    requires Sweeps(m, held, order) && Swept(ExtractAll(m, order), held)
    requires forall p, a :: p in held ==> a !in held[p]
    ensures ExtractAll(m, order).cache == map[]
  {
    SweepIsExact(m, held, order);
    forall t | t in m.cache
      ensures !Reachable(m, held, t)
    {
      NothingHeldNothingReachable(m, held, t);
    }
  }

  lemma {:induction false} NothingHeldNothingReachable(m: Manager, held: Holders, ty: TypeId)
    requires ty in m.cache
    requires forall p, a :: p in held ==> a !in held[p]
    ensures !Reachable(m, held, ty)
    decreases m.next - m.cache[ty].id
  {
    forall u | Retains(m, u, ty)
      ensures !Reachable(m, held, u)
    {
      NothingHeldNothingReachable(m, held, u);
    }
  }

  lemma {:induction false} SweepHasNoRepeats(m: Manager, held: Holders, order: seq<TypeId>)
    requires Sweeps(m, held, order)
    ensures forall i :: 0 <= i < |order| ==> order[i] in m.cache
    ensures forall i, j :: 0 <= i < j < |order| ==> order[i] != order[j]
    decreases |order|
  {
    if order != [] {
      SweepHasNoRepeats(Extract(m, order[0]), held, order[1..]);
      forall i | 1 <= i < |order|
        ensures order[i] in m.cache && order[i] != order[0]
      {
        assert order[i] == order[1..][i - 1];
      }
      forall i, j | 1 <= i < j < |order|
        ensures order[i] != order[j]
      {
        assert order[i] == order[1..][i - 1] && order[j] == order[1..][j - 1];
      }
    }
  }

  /** The order in which the hash map is visited does not matter: any two finished sweeps leave the same cache and
      tear down the same fixtures. */
  lemma SweepIsConfluent(m: Manager, held: Holders, order: seq<TypeId>, other: seq<TypeId>)
    requires Valid(m) && AllLive(m, held)
    requires Sweeps(m, held, order) && Swept(ExtractAll(m, order), held)
    requires Sweeps(m, held, other) && Swept(ExtractAll(m, other), held)
    ensures ExtractAll(m, order).cache == ExtractAll(m, other).cache
    ensures multiset(order) == multiset(other)
  {
    SweepIsExact(m, held, order);
    SweepIsExact(m, held, other);
    SweepHasNoRepeats(m, held, order);
    SweepHasNoRepeats(m, held, other);
    forall t
      ensures t in order <==> t in other
    {
    }
    SameMembersSameMultiset(order, other);
  }

  lemma {:induction false} CountInDistinct(s: seq<TypeId>, t: TypeId)
    requires forall i, j :: 0 <= i < j < |s| ==> s[i] != s[j]
    ensures multiset(s)[t] == if t in s then 1 else 0
    decreases |s|
  {
    if s != [] {
      CountInDistinct(s[1..], t);
      assert s == [s[0]] + s[1..];
    }
  }

  lemma SameMembersSameMultiset(s: seq<TypeId>, u: seq<TypeId>)
    requires forall i, j :: 0 <= i < j < |s| ==> s[i] != s[j]
    requires forall i, j :: 0 <= i < j < |u| ==> u[i] != u[j]
    requires forall t :: t in s <==> t in u
    ensures multiset(s) == multiset(u)
  {
    forall t: TypeId
      ensures multiset(s)[t] == multiset(u)[t]
    {
      CountInDistinct(s, t);
      CountInDistinct(u, t);
    }
  }

  /** All that retain the fixture are torn down before it. */
  ghost predicate RetainersGone(m: Manager, ty: TypeId, gone: seq<TypeId>)
    requires ty in m.cache
  {
    forall u :: u in m.cache && ArcTo(m, ty) in m.cache[u].retained ==> u in gone
  }

  lemma TakeOneMore(order: seq<TypeId>, i: nat)
    requires 0 < i < |order|
    ensures order[..i] == [order[0]] + order[1..][..i - 1] && order[1..][i - 1] == order[i]
    ensures order[..i][0] == order[0] && order[..i][1..] == order[1..][..i - 1]
  {
  }

  lemma RetainersGoneFirst(m: Manager, first: TypeId, ty: TypeId, rest: seq<TypeId>)
    requires first in m.cache && ty in m.cache && ty != first
    requires RetainersGone(Extract(m, first), ty, rest)
    ensures RetainersGone(m, ty, [first] + rest)
  {
    forall u | u in m.cache && ArcTo(m, ty) in m.cache[u].retained
      ensures u in [first] + rest
    {
      if u != first {
        assert u in Extract(m, first).cache;
      }
    }
  }

  /** Teardowns go in reverse dependency order: a fixture is torn down before any fixture it retains, and when its
      turn comes the handle taken from the cache is the only one left, so `Arc::try_unwrap` succeeds. */
  lemma {:induction false} SweepInDependencyOrder(m: Manager, held: Holders, order: seq<TypeId>, i: nat)
    requires Sweeps(m, held, order) && i < |order|
    ensures var k := ExtractAll(m, order[..i]);
            && order[i] in m.cache && order[i] in k.cache && k.cache[order[i]] == m.cache[order[i]]
            && StrongCount(k, held, order[i]) == 1
            && RetainersGone(m, order[i], order[..i])
    decreases |order|
  {
    var first := order[0];
    if i == 0 {
      CountIsOne(m, held, first);
      assert order[..0] == [];
    } else {
      TakeOneMore(order, i);
      SweepInDependencyOrder(Extract(m, first), held, order[1..], i - 1);
      RetainersGoneFirst(m, first, order[i], order[1..][..i - 1]);
    }
  }

  /** A sweep can always be finished, in at most as many teardowns as there are cached fixtures. */
  lemma {:induction false} SweepCanFinish(m: Manager, held: Holders) returns (order: seq<TypeId>)
    ensures Sweeps(m, held, order) && Swept(ExtractAll(m, order), held)
    ensures |order| <= |m.cache|
    decreases |m.cache|
  {
    if Swept(m, held) {
      order := [];
    } else {
      var ty :| ty in m.cache && StrongCount(m, held, ty) == 1;
      var n := Extract(m, ty);
      assert n.cache.Keys == m.cache.Keys - {ty};
      assert |n.cache| == |n.cache.Keys| == |m.cache.Keys| - 1;
      var rest := SweepCanFinish(n, held);
      order := [ty] + rest;
      assert order[1..] == rest;
    }
  }

  lemma {:induction false} ExtractAllConcat(m: Manager, order: seq<TypeId>, more: seq<TypeId>)
    ensures ExtractAll(m, order + more) == ExtractAll(ExtractAll(m, order), more)
    decreases |order|
  {
    if order == [] {
      assert order + more == more;
    } else {
      var n := if order[0] in m.cache then Extract(m, order[0]) else m;
      ExtractAllConcat(n, order[1..], more);
      assert (order + more)[1..] == order[1..] + more;
    }
  }

  /** One sweep after another is a sweep. */
  lemma {:induction false} SweepsConcat(m: Manager, held: Holders, order: seq<TypeId>, more: seq<TypeId>)
    requires Sweeps(m, held, order) && Sweeps(ExtractAll(m, order), held, more)
    ensures Sweeps(m, held, order + more)
    decreases |order|
  {
    if order == [] {
      assert order + more == more;
    } else {
      SweepsConcat(Extract(m, order[0]), held, order[1..], more);
      assert (order + more)[1..] == order[1..] + more;
    }
  }

  lemma SweepsOne(m: Manager, held: Holders, ty: TypeId)
    requires ty in m.cache && StrongCount(m, held, ty) == 1
    ensures Sweeps(m, held, [ty]) && ExtractAll(m, [ty]) == Extract(m, ty)
  {
    assert [ty][1..] == [];
  }

  // ---------------------------------------------------------------------------------------------
  // Handles dropped while a sweep goes on
  // ---------------------------------------------------------------------------------------------

  /** Whoever holds a handle in `after` held it in `before`. */
  ghost predicate FewerHeld(before: Holders, after: Holders) {
    forall p, a :: p in after && a in after[p] ==> p in before && a in before[p]
  }

  lemma UnheldWithFewer(m: Manager, before: Holders, after: Holders, ty: TypeId)
    requires FewerHeld(before, after) && ty in m.cache && Unheld(m, before, ty)
    ensures Unheld(m, after, ty)
  {
  }

  /** The holders at successive times while a sweep has the lock. Nobody gains a handle then: a setup would need the
      lock, and a clone is made only of a handle that is held. */
  ghost predicate Shrinks(holders: seq<Holders>) {
    forall i, j :: 0 <= i <= j < |holders| ==> FewerHeld(holders[i], holders[j])
  }

  /** Each fixture has count one at the time at which it is extracted. */
  ghost predicate SweepsOver(m: Manager, holders: seq<Holders>, times: seq<nat>, order: seq<TypeId>)
    requires |times| == |order| && forall k :: 0 <= k < |times| ==> times[k] < |holders|
    decreases |order|
  {
    order != [] ==>
      && order[0] in m.cache
      && StrongCount(m, holders[times[0]], order[0]) == 1
      && SweepsOver(Extract(m, order[0]), holders, times[1..], order[1..])
  }

  lemma {:induction false} SweepsAtLast(
      m: Manager, holders: seq<Holders>, times: seq<nat>, order: seq<TypeId>, last: nat)
    requires Shrinks(holders) && last < |holders|
    requires |times| == |order| && forall k :: 0 <= k < |times| ==> times[k] <= last
    requires SweepsOver(m, holders, times, order)
    ensures Sweeps(m, holders[last], order)
    decreases |order|
  {
    if order != [] {
      var before, after := holders[times[0]], holders[last];
      CountIsOne(m, before, order[0]);
      UnheldWithFewer(m, before, after, order[0]);
      CountIsOne(m, after, order[0]);
      SweepsAtLast(Extract(m, order[0]), holders, times[1..], order[1..], last);
    }
  }

  lemma NotOneBefore(m: Manager, before: Holders, after: Holders, ty: TypeId)
    requires FewerHeld(before, after) && ty in m.cache && StrongCount(m, after, ty) != 1
    ensures StrongCount(m, before, ty) != 1
  {
    CountIsOne(m, before, ty);
    CountIsOne(m, after, ty);
  }

  /** A sweep may be taken as one step, however often and wherever in its passes handles are dropped meanwhile. With the
      holders as they were when its last pass started, at `last`, the whole of it is a sweep; and if that pass finds
      nothing, looking at each fixture at whatever later time, it is a finished one. */
  lemma SweepIsOneStep(
      m: Manager, holders: seq<Holders>, times: seq<nat>, order: seq<TypeId>, last: nat, looks: map<TypeId, nat>)
    requires Shrinks(holders) && last < |holders|
    requires |times| == |order| && forall k :: 0 <= k < |times| ==> times[k] <= last
    requires SweepsOver(m, holders, times, order)
    ensures Sweeps(m, holders[last], order)
    ensures (forall ty :: ty in ExtractAll(m, order).cache ==>
               && ty in looks && last <= looks[ty] < |holders|
               && StrongCount(ExtractAll(m, order), holders[looks[ty]], ty) != 1) ==>
            Swept(ExtractAll(m, order), holders[last])
  {
    SweepsAtLast(m, holders, times, order, last);
    var n := ExtractAll(m, order);
    if forall ty :: ty in n.cache ==>
         ty in looks && last <= looks[ty] < |holders| && StrongCount(n, holders[looks[ty]], ty) != 1
    {
      forall ty | ty in n.cache
        ensures StrongCount(n, holders[last], ty) != 1
      {
        NotOneBefore(n, holders[last], holders[looks[ty]], ty);
      }
    }
  }
}
