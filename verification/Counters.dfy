/**
 What each counter and each list of names says about the tree, in every reachable state.
 */
module Counters {
  import opened Paths
  import opened Tree
  import opened Selection
  import opened EventLog
  import opened Engine
  import opened Control
  import opened Lifecycle
  import Scheduling
  import Guards
  import Conservation
  import Completion
  import NameLists

  /** The launched groups and tests whose own events hold one of these. */
  ghost function PlacesWith(s: State, kinds: set<Event>): set<Path> {
    set p | p in s.nodes && exists e :: e in kinds && e in Projection(s.log.events, Join(p))
  }

  ghost function Joined(places: set<Path>): set<string> {
    set p | p in places :: Join(p)
  }

  lemma {:induction false} JoinedAreAsMany(places: set<Path>)
    requires forall p, q :: p in places && q in places && Join(p) == Join(q) ==> p == q
    ensures |Joined(places)| == |places|
  {
    if places != {} {
      var p :| p in places;
      var rest := places - {p};
      JoinedAreAsMany(rest);
      forall n
        ensures n in Joined(places) <==> n in Joined(rest) + {Join(p)}
      {
        if n in Joined(places) {
          var q :| q in places && n == Join(q);
          assert q == p || q in rest;
        }
      }
      assert Joined(places) == Joined(rest) + {Join(p)};
    }
  }

  lemma NamesOfPlaces(cfg: Config, s: State, kinds: set<Event>)
    requires Logged(cfg, s)
    ensures NamesWith(s.log.events, kinds) == Joined(PlacesWith(s, kinds))
  {
    forall n
      ensures n in NamesWith(s.log.events, kinds) <==> exists p :: p in PlacesWith(s, kinds) && n == Join(p)
    {
      NameHeld(s.log.events, n, kinds);
      var w := Projection(s.log.events, n);
      if i :| 0 <= i < |w| && w[i] in kinds {
        var p :| p in s.nodes && n == Join(p);
        assert w[i] in kinds && w[i] in Projection(s.log.events, Join(p));
        assert p in PlacesWith(s, kinds);
      }
      if p :| p in PlacesWith(s, kinds) && n == Join(p) {
        var e :| e in kinds && e in w;
      }
    }
  }

  lemma CountIsPlaces(cfg: Config, s: State, kinds: set<Event>)
    requires WellNamed(cfg.root) && Controlled(cfg, s) && Logged(cfg, s)
    requires |kinds| == 1 || forall e :: e in kinds ==> Conservation.Settling(e)
    ensures Count(s.log.events, kinds) == |PlacesWith(s, kinds)|
  {
    Conservation.WordsHoldOneOf(s, kinds);
    Conservation.CountsNodes(cfg, s, kinds);
    NamesOfPlaces(cfg, s, kinds);
    forall p, q | p in PlacesWith(s, kinds) && q in PlacesWith(s, kinds) && Join(p) == Join(q)
      ensures p == q
    {
      if p != q {
        NodesApart(cfg, s, p, q);
      }
    }
    JoinedAreAsMany(PlacesWith(s, kinds));
  }

  /** In every reachable state each counter is the number of launched groups and tests whose own events say so: that
      their setup was launched, passed, was skipped or failed, that the body was launched, passed or failed, that their
      teardown was launched, passed or failed. */
  lemma CountersCountPlaces(cfg: Config, run: seq<State>, i: nat)
    requires WellNamed(cfg.root) && IsRun(cfg, run) && i < |run|
    ensures SetupsLaunched(run[i].log) == |PlacesWith(run[i], {SetupLaunched})|
    ensures SetupsPassed(run[i].log) == |PlacesWith(run[i], {SetupPassed})|
    ensures SetupsSkipped(run[i].log) == |PlacesWith(run[i], {SetupSkipped(OfGroup), SetupSkipped(OfTest)})|
    ensures SetupsFailed(run[i].log) == |PlacesWith(run[i], {SetupFailed(OfGroup), SetupFailed(OfTest)})|
    ensures TestsLaunched(run[i].log) == |PlacesWith(run[i], {TestLaunched})|
    ensures TestsPassed(run[i].log) == |PlacesWith(run[i], {TestPassed})|
    ensures TestsFailed(run[i].log) == |PlacesWith(run[i], {TestFailed})|
    ensures TeardownsLaunched(run[i].log) == |PlacesWith(run[i], {TeardownLaunched})|
    ensures TeardownsPassed(run[i].log) == |PlacesWith(run[i], {TeardownPassed})|
    ensures TeardownsFailed(run[i].log) == |PlacesWith(run[i], {TeardownFailed})|
  {
    RunIsControlled(cfg, run, i);
    RunIsLogged(cfg, run, i);
    CountIsPlaces(cfg, run[i], {SetupLaunched});
    CountIsPlaces(cfg, run[i], {SetupPassed});
    CountIsPlaces(cfg, run[i], {SetupSkipped(OfGroup), SetupSkipped(OfTest)});
    CountIsPlaces(cfg, run[i], {SetupFailed(OfGroup), SetupFailed(OfTest)});
    CountIsPlaces(cfg, run[i], {TestLaunched});
    CountIsPlaces(cfg, run[i], {TestPassed});
    CountIsPlaces(cfg, run[i], {TestFailed});
    CountIsPlaces(cfg, run[i], {TeardownLaunched});
    CountIsPlaces(cfg, run[i], {TeardownPassed});
    CountIsPlaces(cfg, run[i], {TeardownFailed});
  }

  /** The included tests whose way down stops at a setup that failed, or at one that was skipped. */
  ghost function StoppedTests(cfg: Config, log: Log, broke: bool): set<string> {
    set x | x in log.included &&
      exists c :: TestAt(cfg.root, c).Some? && c != [] && x == Join(c) && Completion.Stopped(log, c, broke)
  }

  lemma StoppedNamesAre(cfg: Config, run: seq<State>, i: nat, broke: bool)
    requires WellNamed(cfg.root) && IsRun(cfg, run) && i < |run|
    ensures Completion.StoppedNames(run[i].log, broke) == StoppedTests(cfg, run[i].log, broke)
  {
    var s := run[i];
    RunIsControlled(cfg, run, i);
    RunIsLogged(cfg, run, i);
    forall x | x in Completion.StoppedNames(s.log, broke)
      ensures x in StoppedTests(cfg, s.log, broke)
    {
      var c := CountedIsPlace(cfg, s, broke, x);
      Completion.CountedIsStopped(cfg, s, c, broke);
    }
    forall x | x in StoppedTests(cfg, s.log, broke)
      ensures x in Completion.StoppedNames(s.log, broke)
    {
      var c :| TestAt(cfg.root, c).Some? && c != [] && x == Join(c) && Completion.Stopped(s.log, c, broke);
      Guards.IncludedIffSelected(cfg, c);
      Completion.CountedIffStopped(cfg, run, i, c);
    }
  }

  lemma CountedIsPlace(cfg: Config, s: State, broke: bool, x: string) returns (c: Path)
    requires WellNamed(cfg.root) && Controlled(cfg, s) && Logged(cfg, s)
    requires x in Completion.StoppedNames(s.log, broke)
    ensures TestAt(cfg.root, c).Some? && c != [] && x == Join(c) && x in s.log.included
  {
    var kinds := if broke then Conservation.ERRORS else Conservation.SKIPS;
    Conservation.NamesAreSettled(s.log);
    var i :| 0 <= i < |s.log.events| && s.log.events[i].event in kinds && x in Settles(s.log, s.log.events[i]);
    var p := Conservation.EntryHasNode(cfg, s, i);
    c := Conservation.SettledBy(cfg, s, i, p, x);
    TestAtFacts(cfg.root, c);
    Guards.IncludedIffSelected(cfg, c);
  }

  /** In every reachable state the two counters of skipped tests count the included tests whose way down stops: at a
      setup that was skipped, and at one that failed. */
  lemma SkippedCountTests(cfg: Config, run: seq<State>, i: nat)
    requires WellNamed(cfg.root) && IsRun(cfg, run) && i < |run|
    ensures TestsSkipped(run[i].log) == |StoppedTests(cfg, run[i].log, false)|
    ensures TestsSkippedByFixtureErr(run[i].log) == |StoppedTests(cfg, run[i].log, true)|
  {
    RunIsControlled(cfg, run, i);
    RunIsLogged(cfg, run, i);
    Conservation.NothingSettledTwice(cfg, run[i]);
    NameLists.SettledOnceIsCounted(run[i].log);
    StoppedNamesAre(cfg, run, i, false);
    StoppedNamesAre(cfg, run, i, true);
  }

  /** The lists of names hold the names whose own events say so. */
  lemma ListedIffRecorded(log: Log, n: string)
    ensures n in PassedNames(log) <==> TestPassed in Projection(log.events, n)
    ensures n in EventLog.FailedNames(log) <==>
            exists e :: e in Projection(log.events, n) && (e.TestFailed? || e.SetupFailed? || e.TeardownFailed?)
  {
    NamedIsProjected(log.events, n, TestPassed);
    if i :| 0 <= i < |log.events| && log.events[i].IsFailed() && log.events[i].name == n {
      ProjectionHolds(log.events, n, log.events[i].event);
    }
    if e :| e in Projection(log.events, n) && (e.TestFailed? || e.SetupFailed? || e.TeardownFailed?) {
      ProjectionHolds(log.events, n, e);
      var i :| 0 <= i < |log.events| && log.events[i] == Entry(n, e);
      assert log.events[i].IsFailed();
    }
  }
}
