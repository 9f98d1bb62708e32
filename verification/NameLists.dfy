/**
 The name lists that are read from the event log: collected in a vector, sorted, and freed of repetitions.
 */
module NameLists {
  import Tree
  import opened EventLog
  import opened Engine
  import opened Control
  import opened Lifecycle
  import Guards
  import Conservation
  import Completion
  import opened Sorting

  /** The names of the entries with one of these events, in the order of the log. */
  method Collect(events: seq<Entry>, kinds: set<Event>) returns (names: seq<string>)
    ensures forall x :: x in names <==> x in NamesWith(events, kinds)
  {
    names := [];
    for i := 0 to |events|
      invariant forall x :: x in names <==> x in NamesWith(events[..i], kinds)
    {
      NamesSnoc(events[..i], events[i], kinds);
      assert events[..i + 1] == events[..i] + [events[i]];
      if events[i].event in kinds {
        names := names + [events[i].name];
      }
    }
    assert events[..|events|] == events;
  }

  /** The elements of a set, in whatever order it is visited. */
  method Visit(s: set<string>) returns (names: seq<string>)
    ensures forall x :: x in names <==> x in s
  {
    names := [];
    var left := s;
    while left != {}
      invariant left <= s
      invariant forall x :: x in names <==> x in s && x !in left
      decreases left
    {
      var x :| x in left;
      left, names := left - {x}, names + [x];
    }
  }

  /** The included tests below each entry with this event. */
  method CollectBelow(log: Log, kind: Event) returns (names: seq<string>)
    ensures forall x :: x in names <==> x in NamesBelow(log, kind)
  {
    names := [];
    for i := 0 to |log.events|
      invariant forall x :: x in names <==>
          exists k :: 0 <= k < i && log.events[k].event == kind && x in Included(log, log.events[k].name)
    {
      if log.events[i].event == kind {
        var below := Visit(Included(log, log.events[i].name));
        names := names + below;
      }
    }
  }

  /** The end of every list. */
  method SortAndDedup(names: seq<string>, ghost s: set<string>) returns (list: seq<string>)
    requires forall x :: x in names <==> x in s
    ensures IsListOf(list, s)
  {
    list := Dedup(Sort(names));
    forall x
      ensures x in list <==> x in s
    {
      SortHolds(names, x);
    }
  }

  method TestsPassedNames(stats: Statistics) returns (list: seq<string>)
    ensures IsListOf(list, PassedNames(stats.Value()))
  {
    var names := Collect(stats.events, {TestPassed});
    list := SortAndDedup(names, PassedNames(stats.Value()));
  }

  method TestsSkippedNames(stats: Statistics) returns (list: seq<string>)
    ensures IsListOf(list, SkippedNames(stats.Value()))
  {
    var names := Collect(stats.events, {SetupSkipped(OfTest)});
    var below := CollectBelow(stats.Value(), SetupSkipped(OfGroup));
    list := SortAndDedup(names + below, SkippedNames(stats.Value()));
  }

  method TestsSkippedByFixtureErrNames(stats: Statistics) returns (list: seq<string>)
    ensures IsListOf(list, SkippedByFixtureErrNames(stats.Value()))
  {
    var names := Collect(stats.events, {SetupFailed(OfTest)});
    var below := CollectBelow(stats.Value(), SetupFailed(OfGroup));
    list := SortAndDedup(names + below, SkippedByFixtureErrNames(stats.Value()));
  }

  /** The names of all that failed; the list is empty iff the run is a success, given that something is included. */
  method AllFailedNames(stats: Statistics) returns (list: seq<string>)
    ensures IsListOf(list, EventLog.FailedNames(stats.Value()))
    ensures IsSuccess(stats.Value()) <==> stats.included != {} && list == []
  {
    FailedNamesForm(stats.Value());
    var names := Collect(stats.events, {TestFailed, TeardownFailed, SetupFailed(OfTest), SetupFailed(OfGroup)});
    FailedKinds(stats.Value());
    list := SortAndDedup(names, EventLog.FailedNames(stats.Value()));
    ListLength(list, EventLog.FailedNames(stats.Value()));
  }

  lemma FailedKinds(log: Log)
    ensures NamesWith(log.events, {TestFailed, TeardownFailed, SetupFailed(OfTest), SetupFailed(OfGroup)}) ==
            EventLog.FailedNames(log)
  {
    forall i | 0 <= i < |log.events|
      ensures log.events[i].IsFailed() <==>
              log.events[i].event in {TestFailed, TeardownFailed, SetupFailed(OfTest), SetupFailed(OfGroup)}
    {
      var e := log.events[i].event;
      if e.SetupFailed? {
        assert e.task == OfTest || e.task == OfGroup;
      }
    }
  }

  // ---------------------------------------------------------------------------------------------
  // The lists and the counters
  // ---------------------------------------------------------------------------------------------

  /** A counter is never less than its names are many. */
  lemma {:induction false} CountAtLeast(events: seq<Entry>, kinds: set<Event>)
    ensures |NamesWith(events, kinds)| <= Count(events, kinds)
  {
    if events == [] {
      assert NamesWith(events, kinds) == {};
    } else {
      var init, last := events[..|events| - 1], events[|events| - 1];
      assert events == init + [last];
      CountAtLeast(init, kinds);
      NamesSnoc(init, last, kinds);
    }
  }

  lemma BelowSnoc(log: Log, init: seq<Entry>, last: Entry, kind: Event)
    ensures NamesBelow(log.(events := init + [last]), kind) ==
            NamesBelow(log.(events := init), kind) + if last.event == kind then Included(log, last.name) else {}
  {
    var all := init + [last];
    var before, after := log.(events := init), log.(events := all);
    assert all[|init|] == last;
    forall n
      ensures Included(after, n) == Included(log, n) && Included(before, n) == Included(log, n)
    {
    }
    forall x
      ensures x in NamesBelow(after, kind) <==>
              x in NamesBelow(before, kind) || (last.event == kind && x in Included(log, last.name))
    {
      if x in NamesBelow(before, kind) {
        var i :| 0 <= i < |init| && init[i].event == kind && x in Included(before, init[i].name);
        assert all[i] == init[i];
      }
      if last.event == kind && x in Included(log, last.name) {
        assert x in Included(after, all[|init|].name);
      }
      if x in NamesBelow(after, kind) {
        var i :| 0 <= i < |all| && all[i].event == kind && x in Included(after, all[i].name);
        assert i < |init| ==> all[i] == init[i] && x in Included(before, init[i].name);
      }
    }
  }

  lemma {:induction false} CountIncludedAtLeast(log: Log, events: seq<Entry>, kind: Event)
    ensures |NamesBelow(log.(events := events), kind)| <= CountIncluded(log, events, kind)
  {
    if events == [] {
      assert NamesBelow(log.(events := events), kind) == {};
    } else {
      var init, last := events[..|events| - 1], events[|events| - 1];
      assert events == init + [last];
      CountIncludedAtLeast(log, init, kind);
      BelowSnoc(log, init, last, kind);
    }
  }

  lemma CountersAtLeast(log: Log)
    ensures |PassedNames(log)| <= TestsPassed(log) && |FailedTestNames(log)| <= TestsFailed(log)
    ensures |SkippedNames(log)| <= TestsSkipped(log)
    ensures |SkippedByFixtureErrNames(log)| <= TestsSkippedByFixtureErr(log)
  {
    assert log.(events := log.events) == log;
    CountAtLeast(log.events, {TestPassed});
    CountAtLeast(log.events, {TestFailed});
    CountAtLeast(log.events, {SetupSkipped(OfTest)});
    CountAtLeast(log.events, {SetupFailed(OfTest)});
    CountIncludedAtLeast(log, log.events, SetupSkipped(OfGroup));
    CountIncludedAtLeast(log, log.events, SetupFailed(OfGroup));
  }

  /** The names of the tests with each outcome are as many as the counter of that outcome says. */
  ghost predicate CountersAreNames(log: Log) {
    && |PassedNames(log)| == TestsPassed(log) && |FailedTestNames(log)| == TestsFailed(log)
    && |SkippedNames(log)| == TestsSkipped(log)
    && |SkippedByFixtureErrNames(log)| == TestsSkippedByFixtureErr(log)
  }

  /** Where no test is settled twice, the four counters count names: none is less, and together they are not more. */
  lemma SettledOnceIsCounted(log: Log)
    requires SettledOnce(log, log.events)
    ensures CountersAreNames(log)
  {
    CountersAtLeast(log);
    SettledCount(log, log.events);
    Conservation.PartsOf(log);
  }

  /** Two lists without a common name. */
  ghost predicate Apart(a: seq<string>, b: seq<string>) {
    forall x :: x in a ==> x !in b
  }

  /** In every reachable state the lists of passed tests, of skipped ones and of those skipped by a fixture error have
      no name in common, and each is as long as its counter says. */
  lemma ListsMatchCounters(cfg: Config, run: seq<State>, i: nat,
                           passed: seq<string>, skipped: seq<string>, broken: seq<string>)
    requires Tree.WellNamed(cfg.root) && IsRun(cfg, run) && i < |run|
    requires IsListOf(passed, PassedNames(run[i].log)) && IsListOf(skipped, SkippedNames(run[i].log))
    requires IsListOf(broken, SkippedByFixtureErrNames(run[i].log))
    ensures |passed| == TestsPassed(run[i].log) && |skipped| == TestsSkipped(run[i].log)
    ensures |broken| == TestsSkippedByFixtureErr(run[i].log)
    ensures Apart(passed, skipped) && Apart(passed, broken) && Apart(skipped, broken)
  {
    RunIsControlled(cfg, run, i);
    RunIsLogged(cfg, run, i);
    Conservation.NothingSettledTwice(cfg, run[i]);
    SettledOnceIsCounted(run[i].log);
    Conservation.PartsOf(run[i].log);
    ListLength(passed, PassedNames(run[i].log));
    ListLength(skipped, SkippedNames(run[i].log));
    ListLength(broken, SkippedByFixtureErrNames(run[i].log));
  }

  // ---------------------------------------------------------------------------------------------
  // The list of failed names
  // ---------------------------------------------------------------------------------------------

  /** The failure of a group is not recorded under the name of a test. */
  lemma TestHasOwnFailure(cfg: Config, s: State, x: string)
    requires Tree.WellNamed(cfg.root) && Controlled(cfg, s) && Logged(cfg, s) && x in s.log.included
    ensures SetupFailed(OfGroup) !in Projection(s.log.events, x)
  {
    if SetupFailed(OfGroup) in Projection(s.log.events, x) {
      var c := Guards.IncludedIsPlace(cfg, x);
      Tree.TestAtFacts(cfg.root, c);
      Completion.RecordedIsLaunched(cfg, s, c, SetupFailed(OfGroup));
      Completion.StopIsNotOpened(s.nodes[c].task, s.nodes[c].pc, SetupFailed(OfGroup));
    }
  }

  /** In every reachable state an included test is in the list of all that failed iff it failed itself, its own setup
      did, or its teardown did; in the last case it may also be in one of the other lists. */
  lemma FailedListHolds(cfg: Config, run: seq<State>, i: nat, failed: seq<string>, x: string)
    requires Tree.WellNamed(cfg.root) && IsRun(cfg, run) && i < |run| && x in run[i].log.included
    requires IsListOf(failed, EventLog.FailedNames(run[i].log))
    ensures x in failed <==>
            || TestFailed in Projection(run[i].log.events, x)
            || SetupFailed(OfTest) in Projection(run[i].log.events, x)
            || TeardownFailed in Projection(run[i].log.events, x)
    ensures x in failed && x in PassedNames(run[i].log) + SkippedNames(run[i].log) ==>
              TeardownFailed in Projection(run[i].log.events, x)
  {
    var log := run[i].log;
    RunIsControlled(cfg, run, i);
    RunIsLogged(cfg, run, i);
    TestHasOwnFailure(cfg, run[i], x);
    FailedNamesForm(log);
    NameHeld(log.events, x, {SetupFailed(OfTest), SetupFailed(OfGroup)});
    NamedIsProjected(log.events, x, TestFailed);
    NamedIsProjected(log.events, x, TeardownFailed);
    NamedIsProjected(log.events, x, SetupFailed(OfTest));
    Conservation.NothingSettledTwice(cfg, run[i]);
    Conservation.PartsOf(log);
  }

  /** At the end of a run every included test is in the list of the passed, the skipped or those skipped by a fixture
      error, or in none of them and then in that of all that failed. The three lists and the failed tests are together
      as many as the included tests. */
  lemma ListsPartition(cfg: Config, run: seq<State>, i: nat,
                       passed: seq<string>, failed: seq<string>, skipped: seq<string>, broken: seq<string>)
    requires Tree.WellNamed(cfg.root) && Conservation.SelectedAreReached(cfg) && IsRun(cfg, run) && i < |run|
    requires IsDone(run[i], RootPath(cfg))
    requires IsListOf(passed, PassedNames(run[i].log)) && IsListOf(failed, EventLog.FailedNames(run[i].log))
    requires IsListOf(skipped, SkippedNames(run[i].log)) && IsListOf(broken, SkippedByFixtureErrNames(run[i].log))
    ensures |passed| + TestsFailed(run[i].log) + |skipped| + |broken| == |run[i].log.included|
    ensures forall x :: x in passed || x in skipped || x in broken ==> x in run[i].log.included
    ensures forall x :: x in run[i].log.included && x !in passed && x !in skipped && x !in broken ==>
              x in failed && TestFailed in Projection(run[i].log.events, x)
  {
    var log := run[i].log;
    Conservation.NamesPartition(cfg, run, i);
    Conservation.CountersBalance(cfg, run, i);
    ListsMatchCounters(cfg, run, i, passed, skipped, broken);
    forall x | x in log.included && x !in passed && x !in skipped && x !in broken
      ensures x in failed && TestFailed in Projection(log.events, x)
    {
      NamedIsProjected(log.events, x, TestFailed);
      FailedListHolds(cfg, run, i, failed, x);
    }
  }
}
