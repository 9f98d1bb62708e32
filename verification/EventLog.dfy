/**
 The event log: guarded appends, the counters read from it, and what the counters mean.
 */
module EventLog {
  import opened Common
  import Paths

  datatype Task = OfGroup | OfTest

  datatype Event =
    | SetupLaunched
    | SetupSkipped(task: Task)
    | SetupPassed
    | SetupFailed(task: Task)
    | TeardownLaunched
    | TeardownPassed
    | TeardownFailed
    | TestDefined
    | TestIncluded
    | TestLaunched
    | TestPassed
    | TestFailed

  datatype Entry = Entry(name: string, event: Event) {
    predicate IsFailed() {
      event.SetupFailed? || event.TestFailed? || event.TeardownFailed?
    }
  }

  datatype Log = Log(defined: set<string>, included: set<string>, events: seq<Entry>)

  const EMPTY := Log({}, {}, [])

  /** The included tests that are `name` or lie below it: `iter_included`. */
  function Included(log: Log, name: string): set<string> {
    set x | x in log.included && (x == name || Paths.StartsWith(x, name + Paths.SEP))
  }

  /** The assertion that `record` makes. */
  predicate Admits(log: Log, name: string, event: Event) {
    match event
    case TestDefined => true
    case TestIncluded => name in log.defined
    case TestLaunched => name in log.included
    case TestPassed => name in log.included
    case TestFailed => name in log.included
    case _ => Included(log, name) != {}
  }

  function Recorded(log: Log, name: string, event: Event): Log {
    match event
    case TestDefined => log.(defined := log.defined + {name})
    case TestIncluded => log.(included := log.included + {name})
    case _ => log.(events := log.events + [Entry(name, event)])
  }

  // ---------------------------------------------------------------------------------------------
  // Counters
  // ---------------------------------------------------------------------------------------------

  /** How many entries hold one of these events. */
  function Count(events: seq<Entry>, kinds: set<Event>): nat {
    if events == [] then 0
    else Count(events[..|events| - 1], kinds) + if events[|events| - 1].event in kinds then 1 else 0
  }

  /** The included tests of every entry that holds `kind`, summed. */
  function CountIncluded(log: Log, events: seq<Entry>, kind: Event): nat {
    if events == [] then 0
    else
      var last := events[|events| - 1];
      CountIncluded(log, events[..|events| - 1], kind) + if last.event == kind then |Included(log, last.name)| else 0
  }

  function TestsLaunched(log: Log): nat { Count(log.events, {TestLaunched}) }

  function TestsPassed(log: Log): nat { Count(log.events, {TestPassed}) }

  function TestsFailed(log: Log): nat { Count(log.events, {TestFailed}) }

  function TestsSkipped(log: Log): nat {
    Count(log.events, {SetupSkipped(OfTest)}) + CountIncluded(log, log.events, SetupSkipped(OfGroup))
  }

  function TestsSkippedByFixtureErr(log: Log): nat {
    Count(log.events, {SetupFailed(OfTest)}) + CountIncluded(log, log.events, SetupFailed(OfGroup))
  }

  function SetupsLaunched(log: Log): nat { Count(log.events, {SetupLaunched}) }

  function SetupsPassed(log: Log): nat { Count(log.events, {SetupPassed}) }

  function SetupsSkipped(log: Log): nat { Count(log.events, {SetupSkipped(OfGroup), SetupSkipped(OfTest)}) }

  function SetupsFailed(log: Log): nat { Count(log.events, {SetupFailed(OfGroup), SetupFailed(OfTest)}) }

  function TeardownsLaunched(log: Log): nat { Count(log.events, {TeardownLaunched}) }

  function TeardownsPassed(log: Log): nat { Count(log.events, {TeardownPassed}) }

  function TeardownsFailed(log: Log): nat { Count(log.events, {TeardownFailed}) }

  predicate IsSuccess(log: Log) {
    log.included != {} && forall i :: 0 <= i < |log.events| ==> !log.events[i].IsFailed()
  }

  /** The names that hold one of these events: what a name list contains before it is sorted. */
  function NamesWith(events: seq<Entry>, kinds: set<Event>): set<string> {
    set i | 0 <= i < |events| && events[i].event in kinds :: events[i].name
  }

  function NamesBelow(log: Log, kind: Event): set<string> {
    set i, x | 0 <= i < |log.events| && log.events[i].event == kind && x in Included(log, log.events[i].name) :: x
  }

  function PassedNames(log: Log): set<string> { NamesWith(log.events, {TestPassed}) }

  function FailedTestNames(log: Log): set<string> { NamesWith(log.events, {TestFailed}) }

  /** The names of everything that failed: tests, setups and teardowns. */
  function FailedNames(log: Log): set<string> {
    set i | 0 <= i < |log.events| && log.events[i].IsFailed() :: log.events[i].name
  }

  function SkippedNames(log: Log): set<string> {
    NamesWith(log.events, {SetupSkipped(OfTest)}) + NamesBelow(log, SetupSkipped(OfGroup))
  }

  function SkippedByFixtureErrNames(log: Log): set<string> {
    NamesWith(log.events, {SetupFailed(OfTest)}) + NamesBelow(log, SetupFailed(OfGroup))
  }

  // ---------------------------------------------------------------------------------------------
  // Success
  // ---------------------------------------------------------------------------------------------

  predicate IsOfBody(e: Event) {
    e.TestLaunched? || e.TestPassed? || e.TestFailed?
  }

  /** What the guard of `record` keeps: every entry of a setup or teardown has an included test at or below it, and
      every entry of a body is that of an included test. */
  ghost predicate Guarded(log: Log) {
    && log.included <= log.defined
    && forall i :: 0 <= i < |log.events| ==>
         && !log.events[i].event.TestDefined? && !log.events[i].event.TestIncluded?
         && Included(log, log.events[i].name) != {}
         && (IsOfBody(log.events[i].event) ==> log.events[i].name in log.included)
  }

  /** The guard keeps `Guarded`, whatever is recorded. */
  lemma RecordKeepsGuarded(log: Log, name: string, event: Event)
    requires Guarded(log) && Admits(log, name, event)
    ensures Guarded(Recorded(log, name, event))
  {
    var next := Recorded(log, name, event);
    forall i | 0 <= i < |next.events|
      ensures Included(next, next.events[i].name) != {}
      ensures IsOfBody(next.events[i].event) ==> next.events[i].name in next.included
    {
      if i < |log.events| {
        var x :| x in Included(log, log.events[i].name);
        assert x in Included(next, next.events[i].name);
      } else {
        if event.TestLaunched? || event.TestPassed? || event.TestFailed? {
          assert name in Included(next, name);
        } else {
          var x :| x in Included(log, name);
          assert x in Included(next, name);
        }
      }
    }
  }

  lemma {:induction false} CountZero(events: seq<Entry>, kinds: set<Event>)
    ensures Count(events, kinds) == 0 <==> forall i :: 0 <= i < |events| ==> events[i].event !in kinds
  {
    if events != [] {
      var init := events[..|events| - 1];
      CountZero(init, kinds);
      assert forall i :: 0 <= i < |init| ==> init[i] == events[i];
    }
  }

  lemma {:induction false} CountIncludedZero(log: Log, events: seq<Entry>, kind: Event)
    requires forall i :: 0 <= i < |events| ==> Included(log, events[i].name) != {}
    ensures CountIncluded(log, events, kind) == 0 <==> forall i :: 0 <= i < |events| ==> events[i].event != kind
  {
    if events != [] {
      var init := events[..|events| - 1];
      assert forall i :: 0 <= i < |init| ==> init[i] == events[i];
      CountIncludedZero(log, init, kind);
    }
  }

  /** A run is a success iff something is included and no counter of failures is positive. The guard is needed: it
      makes the failed setup of a group count at least one test. */
  lemma SuccessIffNoFailures(log: Log)
    requires Guarded(log)
    ensures IsSuccess(log) <==>
            && log.included != {}
            && TestsFailed(log) == 0 && TestsSkippedByFixtureErr(log) == 0 && TeardownsFailed(log) == 0
  {
    CountZero(log.events, {TestFailed});
    CountZero(log.events, {TeardownFailed});
    CountZero(log.events, {SetupFailed(OfTest)});
    CountIncludedZero(log, log.events, SetupFailed(OfGroup));
    forall i | 0 <= i < |log.events|
      ensures log.events[i].IsFailed() <==>
              (|| log.events[i].event in {TestFailed} || log.events[i].event in {TeardownFailed}
               || log.events[i].event in {SetupFailed(OfTest)} || log.events[i].event == SetupFailed(OfGroup))
    {
      var e := log.events[i].event;
      if e.SetupFailed? {
        assert e.task == OfGroup || e.task == OfTest;
      }
    }
  }

  /** A run is a success iff something is included and the list of failed names is empty; the list holds the names of
      failed tests, failed setups and failed teardowns. */
  lemma FailedNamesForm(log: Log)
    ensures IsSuccess(log) <==> log.included != {} && FailedNames(log) == {}
    ensures FailedNames(log) ==
            NamesWith(log.events, {TestFailed}) + NamesWith(log.events, {TeardownFailed})
            + NamesWith(log.events, {SetupFailed(OfTest), SetupFailed(OfGroup)})
  {
    forall i | 0 <= i < |log.events| && log.events[i].event.SetupFailed?
      ensures log.events[i].event in {SetupFailed(OfTest), SetupFailed(OfGroup)}
    {
      assert log.events[i].event.task == OfTest || log.events[i].event.task == OfGroup;
    }
    if IsSuccess(log) {
      assert FailedNames(log) == {};
    } else if i :| 0 <= i < |log.events| && log.events[i].IsFailed() {
      assert log.events[i].name in FailedNames(log);
    }
  }

  /** Without the guard, the failure of a group with no included test would go unnoticed by the counters. */
  lemma GuardIsNeeded()
    ensures exists log: Log :: && log.included != {} && !IsSuccess(log)
                          && TestsFailed(log) == 0 && TestsSkippedByFixtureErr(log) == 0 && TeardownsFailed(log) == 0
  {
    var log := Log({"a"}, {"a"}, [Entry("b", SetupFailed(OfGroup))]);
    assert log.events[0].IsFailed();
    assert Included(log, "b") == {} by {
      assert "a" != "b";
      assert |"a"| < |"b" + Paths.SEP|;
    }
    assert log.events[..0] == [];
    assert Count(log.events, {TestFailed}) == 0;
    assert Count(log.events, {TeardownFailed}) == 0;
    assert Count(log.events, {SetupFailed(OfTest)}) == 0;
    assert CountIncluded(log, log.events, SetupFailed(OfGroup)) == 0;
  }

  // ---------------------------------------------------------------------------------------------
  // The log of one name
  // ---------------------------------------------------------------------------------------------

  /** The events of one name, in order. */
  function Projection(events: seq<Entry>, name: string): seq<Event> {
    if events == [] then []
    else
      var last := events[|events| - 1];
      Projection(events[..|events| - 1], name) + if last.name == name then [last.event] else []
  }

  lemma NotRepeated(s: seq<Event>, e: Event)
    requires NoRepeats(s + [e])
    ensures e !in s && NoRepeats(s)
  {
    assert (s + [e])[|s|] == e;
    assert forall i :: 0 <= i < |s| ==> (s + [e])[i] == s[i];
  }

  lemma ProjectionSnoc(events: seq<Entry>, e: Entry, name: string)
    ensures Projection(events + [e], name) == Projection(events, name) + if e.name == name then [e.event] else []
  {
    assert (events + [e])[..|events|] == events;
  }

  lemma {:induction false} ProjectionHolds(events: seq<Entry>, name: string, event: Event)
    ensures event in Projection(events, name) <==> Entry(name, event) in events
  {
    if events != [] {
      var init, last := events[..|events| - 1], events[|events| - 1];
      ProjectionHolds(init, name, event);
      assert events == init + [last];
    }
  }

  /** A name with an event has an included test at or below it. */
  lemma RecordedHasIncluded(log: Log, name: string, event: Event) returns (x: string)
    requires Guarded(log) && event in Projection(log.events, name)
    ensures x in Included(log, name)
  {
    ProjectionHolds(log.events, name, event);
    var i :| 0 <= i < |log.events| && log.events[i] == Entry(name, event);
    assert Included(log, log.events[i].name) != {};
    x :| x in Included(log, name);
  }

  /** A word with some, and a word with at most one, of these events. */
  predicate Holds(w: seq<Event>, kinds: set<Event>) {
    exists i :: 0 <= i < |w| && w[i] in kinds
  }

  predicate AtMostOnce(w: seq<Event>, kinds: set<Event>) {
    forall i, j :: 0 <= i < j < |w| ==> !(w[i] in kinds && w[j] in kinds)
  }

  lemma HoldsSnoc(w: seq<Event>, e: Event, kinds: set<Event>)
    ensures Holds(w + [e], kinds) <==> Holds(w, kinds) || e in kinds
    ensures AtMostOnce(w + [e], kinds) <==> AtMostOnce(w, kinds) && !(Holds(w, kinds) && e in kinds)
  {
    var all := w + [e];
    assert all[|w|] == e;
    assert forall i :: 0 <= i < |w| ==> all[i] == w[i];
  }

  lemma NextOfName(init: seq<Entry>, last: Entry, name: string, kinds: set<Event>)
    requires AtMostOnce(Projection(init + [last], name), kinds)
    ensures AtMostOnce(Projection(init, name), kinds)
    ensures last.name == name && last.event in kinds ==> !Holds(Projection(init, name), kinds)
  {
    ProjectionSnoc(init, last, name);
    if last.name == name {
      HoldsSnoc(Projection(init, name), last.event, kinds);
    } else {
      assert Projection(init, name) + [] == Projection(init, name);
    }
  }

  /** A name is among the names with these events iff its own events hold one. */
  lemma {:induction false} NameHeld(events: seq<Entry>, name: string, kinds: set<Event>)
    ensures name in NamesWith(events, kinds) <==> Holds(Projection(events, name), kinds)
  {
    if events != [] {
      var init, last := events[..|events| - 1], events[|events| - 1];
      assert events == init + [last];
      NameHeld(init, name, kinds);
      NamesSnoc(init, last, kinds);
      ProjectionSnoc(init, last, name);
      if last.name == name {
        HoldsSnoc(Projection(init, name), last.event, kinds);
      } else {
        assert Projection(init, name) + [] == Projection(init, name);
      }
    }
  }

  lemma NamedIsProjected(events: seq<Entry>, name: string, e: Event)
    ensures name in NamesWith(events, {e}) <==> e in Projection(events, name)
  {
    NameHeld(events, name, {e});
  }

  /** An event of a group counts the tests below it. */
  lemma BelowIsProjected(log: Log, name: string, e: Event, x: string)
    requires e in Projection(log.events, name) && x in Included(log, name)
    ensures x in NamesBelow(log, e)
  {
    ProjectionHolds(log.events, name, e);
    var i :| 0 <= i < |log.events| && log.events[i] == Entry(name, e);
    assert x in Included(log, log.events[i].name);
  }

  /** When no name holds two of these events, or one twice, their counter counts names. */
  lemma {:induction false} CountIsNames(events: seq<Entry>, kinds: set<Event>)
    requires forall n :: AtMostOnce(Projection(events, n), kinds)
    ensures Count(events, kinds) == |NamesWith(events, kinds)|
  {
    if events == [] {
      assert NamesWith(events, kinds) == {};
    } else {
      var init, last := events[..|events| - 1], events[|events| - 1];
      assert events == init + [last];
      forall n
        ensures AtMostOnce(Projection(init, n), kinds)
      {
        NextOfName(init, last, n, kinds);
      }
      CountIsNames(init, kinds);
      NamesSnoc(init, last, kinds);
      NextOfName(init, last, last.name, kinds);
      NameHeld(init, last.name, kinds);
    }
  }

  lemma NamesSnoc(events: seq<Entry>, e: Entry, kinds: set<Event>)
    ensures NamesWith(events + [e], kinds) == NamesWith(events, kinds) + if e.event in kinds then {e.name} else {}
  {
    var all := events + [e];
    assert all[|events|] == e;
    forall x | x in NamesWith(events, kinds)
      ensures x in NamesWith(all, kinds)
    {
      var i :| 0 <= i < |events| && events[i].event in kinds && events[i].name == x;
      assert all[i] == events[i];
    }
  }

  // ---------------------------------------------------------------------------------------------
  // Accounting for tests
  // ---------------------------------------------------------------------------------------------

  /** The tests that an entry settles: the one that passed, failed, or was itself skipped, or all the included tests
      of a group that was skipped or failed to set up. */
  function Settles(log: Log, e: Entry): set<string> {
    match e.event
    case TestPassed => {e.name}
    case TestFailed => {e.name}
    case SetupSkipped(task) => if task == OfTest then {e.name} else Included(log, e.name)
    case SetupFailed(task) => if task == OfTest then {e.name} else Included(log, e.name)
    case _ => {}
  }

  function Settled(log: Log, events: seq<Entry>): set<string> {
    if events == [] then {}
    else Settled(log, events[..|events| - 1]) + Settles(log, events[|events| - 1])
  }

  ghost predicate SettledOnce(log: Log, events: seq<Entry>) {
    forall i, j :: 0 <= i < j < |events| ==> Settles(log, events[i]) !! Settles(log, events[j])
  }

  function CountSettled(log: Log, events: seq<Entry>): nat {
    Count(events, {TestPassed}) + Count(events, {TestFailed})
    + Count(events, {SetupSkipped(OfTest)}) + CountIncluded(log, events, SetupSkipped(OfGroup))
    + Count(events, {SetupFailed(OfTest)}) + CountIncluded(log, events, SetupFailed(OfGroup))
  }

  lemma {:induction false} SettledForm(log: Log, events: seq<Entry>, x: string)
    ensures x in Settled(log, events) <==> exists i :: 0 <= i < |events| && x in Settles(log, events[i])
  {
    if events != [] {
      var init, last := events[..|events| - 1], events[|events| - 1];
      SettledForm(log, init, x);
      assert forall i :: 0 <= i < |init| ==> init[i] == events[i];
    }
  }

  /** What a counter of tests gains by an entry is what the entry settles. */
  lemma SettledNext(log: Log, events: seq<Entry>)
    requires events != []
    ensures var init, last := events[..|events| - 1], events[|events| - 1];
            CountSettled(log, events) == CountSettled(log, init) + |Settles(log, last)|
  {
  }

  lemma SettledApartFromLast(log: Log, events: seq<Entry>)
    requires events != [] && SettledOnce(log, events)
    ensures var init, last := events[..|events| - 1], events[|events| - 1];
            SettledOnce(log, init) && Settled(log, init) !! Settles(log, last)
  {
    var init, last := events[..|events| - 1], events[|events| - 1];
    assert forall i :: 0 <= i < |init| ==> init[i] == events[i];
    forall x | x in Settled(log, init)
      ensures x !in Settles(log, last)
    {
      SettledForm(log, init, x);
      var i :| 0 <= i < |init| && x in Settles(log, init[i]);
      assert Settles(log, events[i]) !! Settles(log, events[|events| - 1]);
    }
  }

  /** The four counters add up to the number of settled tests when no test is settled twice. */
  lemma {:induction false} SettledCount(log: Log, events: seq<Entry>)
    requires SettledOnce(log, events)
    ensures CountSettled(log, events) == |Settled(log, events)|
  {
    if events != [] {
      SettledApartFromLast(log, events);
      SettledCount(log, events[..|events| - 1]);
      SettledNext(log, events);
    }
  }

  // ---------------------------------------------------------------------------------------------
  // The object
  // ---------------------------------------------------------------------------------------------

  class Statistics {
    var defined: set<string>
    var included: set<string>
    var events: seq<Entry>

    function Value(): Log
      reads this
    {
      Log(defined, included, events)
    }

    constructor ()
      ensures Value() == EMPTY
    {
      defined, included, events := {}, {}, [];
    }

    /** Appends an event; `ok` is false where the program's assertion fails. */
    method Record(name: string, event: Event) returns (ok: bool)
      modifies this
      ensures ok == Admits(old(Value()), name, event)
      ensures Value() == if ok then Recorded(old(Value()), name, event) else old(Value())
      ensures old(Guarded(Value())) ==> Guarded(Value())
    {
      ghost var before := Value();
      match event {
        case TestDefined =>
          defined := defined + {name};
          ok := true;
        case TestIncluded =>
          ok := name in defined;
          if ok {
            included := included + {name};
          }
        case TestLaunched | TestPassed | TestFailed =>
          ok := name in included;
          if ok {
            events := events + [Entry(name, event)];
          }
        case _ =>
          ok := Included(Value(), name) != {};
          if ok {
            events := events + [Entry(name, event)];
          }
      }
      if ok && Guarded(before) {
        RecordKeepsGuarded(before, name, event);
      }
    }
  }
}
