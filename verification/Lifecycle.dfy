/**
 The event log of every run: what it holds for each node, in which order, and that no guard of `record` fails.
 */
module Lifecycle {
  import opened Common
  import opened Paths
  import opened Tree
  import opened EventLog
  import opened Engine
  import opened Control
  import Scheduling

  // ---------------------------------------------------------------------------------------------
  // The words of a node
  // ---------------------------------------------------------------------------------------------

  function TestWord(passed: bool): seq<Event> {
    [SetupLaunched, SetupPassed, TestLaunched, if passed then TestPassed else TestFailed]
  }

  /** The events up to the end of a node's work. */
  function WorkWord(task: Task, v: Verdict): seq<Event> {
    match v
    case WasSkipped => [SetupLaunched, SetupSkipped(task)]
    case SetupBroke => [SetupLaunched, SetupFailed(task)]
    case Finished(passed) => if task == OfGroup then [SetupLaunched, SetupPassed] else TestWord(passed)
  }

  /** The events of a node at each place of its program. */
  function Word(task: Task, pc: Pc): seq<Event> {
    match pc
    case Starting => [SetupLaunched]
    case SetUpDone(_) => [SetupLaunched]
    case Open(_) => [SetupLaunched, SetupPassed]
    case Running(_) => [SetupLaunched, SetupPassed, TestLaunched]
    case Ran(_, _) => [SetupLaunched, SetupPassed, TestLaunched]
    case Judged(_, passed) => TestWord(passed)
    case Closing(v) => WorkWord(task, v)
    case TearingDown(v) => WorkWord(task, v) + [TeardownLaunched]
    case TornDown(v, _) => WorkWord(task, v) + [TeardownLaunched]
    case Done(v, ok) => WorkWord(task, v) + [TeardownLaunched] + [if ok then TeardownPassed else TeardownFailed]
  }

  function WordOf(s: State, p: Path): seq<Event> {
    if p in s.nodes then Word(s.nodes[p].task, s.nodes[p].pc) else []
  }

  /** The log holds for each node the word of its place, and nothing else. */
  ghost predicate Logged(cfg: Config, s: State) {
    && s.log.defined == StartLog(cfg).defined && s.log.included == StartLog(cfg).included
    && (forall p :: p in s.nodes ==> Projection(s.log.events, Join(p)) == WordOf(s, p))
    && (forall n :: Projection(s.log.events, n) != [] ==> exists p :: p in s.nodes && n == Join(p))
  }

  /** A step of `p` extends the log by what it extends the word of `p` by: one event or none. */
  ghost predicate Extends(s: State, t: State, p: Path) {
    && t.log.defined == s.log.defined && t.log.included == s.log.included
    && ((t.log.events == s.log.events && WordOf(t, p) == WordOf(s, p))
        || exists e :: t.log.events == s.log.events + [Entry(Join(p), e)] && WordOf(t, p) == WordOf(s, p) + [e])
  }

  lemma LaunchExtends(cfg: Config, s: State, step: Step)
    requires Enabled(cfg, s, step) && IsLaunch(step)
    requires Launches(cfg, s, Apply(cfg, s, step), step)
    ensures Extends(s, Apply(cfg, s, step), Mover(cfg, step))
  {
    var p, t := Mover(cfg, step), Apply(cfg, s, step);
    assert t.log.events == s.log.events + [Entry(Join(p), SetupLaunched)];
    assert WordOf(t, p) == WordOf(s, p) + [SetupLaunched];
  }

  /** The event that a step records. */
  function EventOf(s: State, step: Step): Option<Event>
    requires !IsLaunch(step) && step.path in s.nodes
  {
    var pc := s.nodes[step.path].pc;
    match step
    case RecordSetup(p) => if pc.SetUpDone? then Some(SetupEvent(s.nodes[p].task, pc.result)) else None
    case LaunchBody(_) => Some(TestLaunched)
    case RecordBody(_) => if pc.Ran? then Some(if pc.passed then TestPassed else TestFailed) else None
    case LaunchTeardown(_) => Some(TeardownLaunched)
    case RecordTeardown(_) => if pc.TornDown? then Some(if pc.ok then TeardownPassed else TeardownFailed) else None
    case _ => None
  }

  /** A step that records nothing leaves the log and the word of its node alone. */
  lemma QuietStep(cfg: Config, s: State, step: Step)
    requires Enabled(cfg, s, step) && !IsLaunch(step) && step.path in s.nodes && EventOf(s, step).None?
    ensures var t := Apply(cfg, s, step);
            t.log == s.log && WordOf(t, step.path) == WordOf(s, step.path)
  {
  }

  /** A step that records an event appends it to the log. */
  lemma StepAppends(cfg: Config, s: State, step: Step)
    requires Enabled(cfg, s, step) && !IsLaunch(step) && step.path in s.nodes && EventOf(s, step).Some?
    requires !SameButPanicked(s, Apply(cfg, s, step))
    ensures Apply(cfg, s, step).log ==
            s.log.(events := s.log.events + [Entry(Join(step.path), EventOf(s, step).value)])
  {
  }

  /** And the word of the node grows by it. */
  lemma WordGrows(cfg: Config, s: State, step: Step)
    requires Enabled(cfg, s, step) && !IsLaunch(step) && step.path in s.nodes && EventOf(s, step).Some?
    requires !SameButPanicked(s, Apply(cfg, s, step))
    ensures WordOf(Apply(cfg, s, step), step.path) == WordOf(s, step.path) + [EventOf(s, step).value]
  {
  }

  lemma MoveExtends(cfg: Config, s: State, step: Step)
    requires Enabled(cfg, s, step) && !IsLaunch(step) && step.path in s.nodes
    requires !SameButPanicked(s, Apply(cfg, s, step))
    ensures Extends(s, Apply(cfg, s, step), step.path)
  {
    if EventOf(s, step).None? {
      QuietStep(cfg, s, step);
    } else {
      StepAppends(cfg, s, step);
      WordGrows(cfg, s, step);
    }
  }

  /** Joined node paths are told apart. */
  lemma NodesApart(cfg: Config, s: State, p: Path, q: Path)
    requires WellNamed(cfg.root) && Controlled(cfg, s) && p in s.nodes && q in s.nodes && p != q
    ensures Join(p) != Join(q)
  {
    Scheduling.PlacedFacts(cfg, s, p);
    Scheduling.PlacedFacts(cfg, s, q);
    if Join(p) == Join(q) {
      JoinInjective(p, q);
    }
  }

  lemma EventKeepsLogged(cfg: Config, s: State, t: State, p: Path, e: Event)
    requires WellNamed(cfg.root) && Controlled(cfg, t) && Logged(cfg, s)
    requires p in t.nodes && t.nodes == s.nodes[p := t.nodes[p]]
    requires t.log == s.log.(events := s.log.events + [Entry(Join(p), e)]) && WordOf(t, p) == WordOf(s, p) + [e]
    requires Projection(s.log.events, Join(p)) == WordOf(s, p)
    ensures Logged(cfg, t)
  {
    forall x | x in t.nodes
      ensures Projection(t.log.events, Join(x)) == WordOf(t, x)
    {
      ProjectionSnoc(s.log.events, Entry(Join(p), e), Join(x));
      if x != p {
        NodesApart(cfg, t, p, x);
      }
    }
    forall n | Projection(t.log.events, n) != []
      ensures exists x :: x in t.nodes && n == Join(x)
    {
      ProjectionSnoc(s.log.events, Entry(Join(p), e), n);
      if n != Join(p) {
        var x :| x in s.nodes && n == Join(x);
        assert x in t.nodes;
      }
    }
  }

  lemma SilenceKeepsLogged(cfg: Config, s: State, t: State, p: Path)
    requires Logged(cfg, s) && p in t.nodes && t.nodes == s.nodes[p := t.nodes[p]]
    requires t.log == s.log && WordOf(t, p) == WordOf(s, p)
    requires Projection(s.log.events, Join(p)) == WordOf(s, p)
    ensures Logged(cfg, t)
  {
    forall x | x in t.nodes
      ensures Projection(t.log.events, Join(x)) == WordOf(t, x)
    {
      if x != p {
        assert t.nodes[x] == s.nodes[x];
      }
    }
    forall n | Projection(t.log.events, n) != []
      ensures exists x :: x in t.nodes && n == Join(x)
    {
      var x :| x in s.nodes && n == Join(x);
      assert x in t.nodes;
    }
  }

  lemma ExtendKeepsLogged(cfg: Config, s: State, t: State, p: Path)
    requires WellNamed(cfg.root) && Controlled(cfg, t) && Logged(cfg, s)
    requires p in t.nodes && t.nodes == s.nodes[p := t.nodes[p]] && Extends(s, t, p)
    requires Projection(s.log.events, Join(p)) == WordOf(s, p)
    ensures Logged(cfg, t)
  {
    if t.log.events == s.log.events && WordOf(t, p) == WordOf(s, p) {
      SilenceKeepsLogged(cfg, s, t, p);
    } else {
      var e :| t.log.events == s.log.events + [Entry(Join(p), e)] && WordOf(t, p) == WordOf(s, p) + [e];
      EventKeepsLogged(cfg, s, t, p, e);
    }
  }

  /** A node that is not launched has no events. */
  lemma UnlaunchedIsSilent(cfg: Config, s: State, p: Path)
    requires WellNamed(cfg.root) && Controlled(cfg, s) && Logged(cfg, s)
    requires p != [] && ValidPath(p) && p !in s.nodes
    ensures Projection(s.log.events, Join(p)) == []
  {
    if q :| q in s.nodes && Join(p) == Join(q) {
      Scheduling.PlacedFacts(cfg, s, q);
      JoinInjective(p, q);
    }
  }

  lemma StepKeepsLogged(cfg: Config, s: State, step: Step)
    requires WellNamed(cfg.root) && Controlled(cfg, s) && Logged(cfg, s) && Enabled(cfg, s, step)
    ensures Logged(cfg, Apply(cfg, s, step))
  {
    var t := Apply(cfg, s, step);
    StepKeepsControlled(cfg, s, step);
    if IsLaunch(step) {
      StepLaunches(cfg, s, step);
      if !SameButPanicked(s, t) {
        LaunchExtends(cfg, s, step);
      }
      LaunchKeepsLogged(cfg, s, t, step);
    } else {
      StepAdvances(cfg, s, step);
      if !SameButPanicked(s, t) {
        MoveExtends(cfg, s, step);
      }
      MoveKeepsLogged(cfg, s, t, step.path);
    }
  }

  lemma LaunchKeepsLogged(cfg: Config, s: State, t: State, step: Step)
    requires WellNamed(cfg.root) && Controlled(cfg, s) && Controlled(cfg, t) && Logged(cfg, s)
    requires SameButPanicked(s, t) || (Launches(cfg, s, t, step) && Extends(s, t, Mover(cfg, step)))
    ensures Logged(cfg, t)
  {
    if !SameButPanicked(s, t) {
      Scheduling.PlacedFacts(cfg, t, Mover(cfg, step));
      UnlaunchedIsSilent(cfg, s, Mover(cfg, step));
      ExtendKeepsLogged(cfg, s, t, Mover(cfg, step));
    }
  }

  lemma MoveKeepsLogged(cfg: Config, s: State, t: State, p: Path)
    requires WellNamed(cfg.root) && Controlled(cfg, t) && Logged(cfg, s)
    requires SameButPanicked(s, t) || (Moves(cfg, s, t, p) && Extends(s, t, p))
    ensures Logged(cfg, t)
  {
    if !SameButPanicked(s, t) {
      ExtendKeepsLogged(cfg, s, t, p);
    }
  }

  lemma NextIsLogged(cfg: Config, run: seq<State>, i: nat, j: nat)
    requires WellNamed(cfg.root) && IsRun(cfg, run) && i + 1 == j < |run|
    requires Logged(cfg, run[i])
    ensures Logged(cfg, run[j])
  {
    RunIsControlled(cfg, run, i);
    var step := StepAt(cfg, run, i, j);
    StepKeepsLogged(cfg, run[i], step);
  }

  lemma {:induction false} RunIsLogged(cfg: Config, run: seq<State>, i: nat)
    requires WellNamed(cfg.root) && IsRun(cfg, run) && i < |run|
    ensures Logged(cfg, run[i])
  {
    if i > 0 {
      var k: nat :| k + 1 == i;
      RunIsLogged(cfg, run, k);
      NextIsLogged(cfg, run, k, i);
    }
  }

  // ---------------------------------------------------------------------------------------------
  // The grammar
  // ---------------------------------------------------------------------------------------------

  /** What may stand between the launch of the setup and the launch of the teardown. */
  predicate IsWork(task: Task, w: seq<Event>) {
    || w == [SetupSkipped(task)]
    || w == [SetupFailed(task)]
    || (task == OfGroup && w == [SetupPassed])
    || (task == OfTest && |w| == 3 && w[0] == SetupPassed && w[1] == TestLaunched && w[2] in {TestPassed, TestFailed})
  }

  /** A whole lifecycle: a setup launched and resolved, a body only after a setup that passed, a teardown launched and
      resolved. */
  predicate IsLifecycle(task: Task, w: seq<Event>) {
    && |w| >= 4
    && w[0] == SetupLaunched
    && IsWork(task, w[1..|w| - 2])
    && w[|w| - 2] == TeardownLaunched
    && w[|w| - 1] in {TeardownPassed, TeardownFailed}
  }

  function FinalWord(task: Task, v: Verdict, ok: bool): seq<Event> {
    Word(task, Done(v, ok))
  }

  lemma FinalWordIsLifecycle(task: Task, v: Verdict, ok: bool)
    ensures IsLifecycle(task, FinalWord(task, v, ok))
  {
    var w := FinalWord(task, v, ok);
    assert w[1..|w| - 2] == WorkWord(task, v)[1..];
  }

  /** In every reachable state the events of a node are a prefix of a lifecycle, and a whole one once it is done;
      no other name has events. */
  lemma LifecycleGrammar(cfg: Config, run: seq<State>, i: nat)
    requires WellNamed(cfg.root) && IsRun(cfg, run) && i < |run|
    ensures forall p :: p in run[i].nodes ==>
              exists w :: IsLifecycle(run[i].nodes[p].task, w) && Projection(run[i].log.events, Join(p)) <= w
    ensures forall p :: IsDone(run[i], p) ==>
              IsLifecycle(run[i].nodes[p].task, Projection(run[i].log.events, Join(p)))
    ensures forall n :: Projection(run[i].log.events, n) != [] ==>
              exists p :: n == Join(p) && p in run[i].nodes && (GroupAt(cfg.root, p).Some? || TestAt(cfg.root, p).Some?)
  {
    var s := run[i];
    RunIsLogged(cfg, run, i);
    RunIsControlled(cfg, run, i);
    forall p | p in s.nodes
      ensures exists w :: IsLifecycle(s.nodes[p].task, w) && Projection(s.log.events, Join(p)) <= w
      ensures IsDone(s, p) ==> IsLifecycle(s.nodes[p].task, Projection(s.log.events, Join(p)))
    {
      assert Placed(cfg, p, s.nodes[p]);
      WordIsPrefix(s.nodes[p].task, s.nodes[p].pc);
    }
    forall n | Projection(s.log.events, n) != []
      ensures exists p :: n == Join(p) && p in s.nodes && (GroupAt(cfg.root, p).Some? || TestAt(cfg.root, p).Some?)
    {
      var p :| p in s.nodes && n == Join(p);
      assert Placed(cfg, p, s.nodes[p]);
    }
  }

  lemma WordIsPrefix(task: Task, pc: Pc)
    requires task == OfGroup ==> !InBody(pc)
    ensures exists w :: IsLifecycle(task, w) && Word(task, pc) <= w
    ensures pc.Done? ==> IsLifecycle(task, Word(task, pc))
  {
    var v := match pc
      case Closing(v) => v
      case TearingDown(v) => v
      case TornDown(v, _) => v
      case Done(v, _) => v
      case Judged(_, passed) => Finished(passed)
      case _ => Finished(true);
    var ok := if pc.Done? then pc.ok else true;
    FinalWordIsLifecycle(task, v, ok);
    assert Word(task, pc) <= FinalWord(task, v, ok);
  }

  // ---------------------------------------------------------------------------------------------
  // Brackets
  // ---------------------------------------------------------------------------------------------

  /** Whenever a node below a group has an event, the group has launched and passed its setup and nothing more: the
      setup and the teardown of a group bracket all events of its subtree. */
  ghost predicate Bracketed(events: seq<Entry>) {
    forall j, c: Path, k :: 0 <= j < |events| && ValidPath(c) && events[j].name == Join(c) && 1 <= k < |c| ==>
      Projection(events[..j], Join(c[..k])) == [SetupLaunched, SetupPassed]
  }

  lemma BracketSnoc(events: seq<Entry>, e: Entry, c: Path)
    requires Bracketed(events) && ValidPath(c) && c != [] && e.name == Join(c)
    requires forall k :: 1 <= k < |c| ==> Projection(events, Join(c[..k])) == [SetupLaunched, SetupPassed]
    ensures Bracketed(events + [e])
  {
    var all := events + [e];
    forall j, d: Path, k | 0 <= j < |all| && ValidPath(d) && all[j].name == Join(d) && 1 <= k < |d|
      ensures Projection(all[..j], Join(d[..k])) == [SetupLaunched, SetupPassed]
    {
      if j < |events| {
        assert all[..j] == events[..j] && all[j] == events[j];
      } else {
        assert all[..j] == events;
        JoinInjective(c, d);
      }
    }
  }

  /** The setups of all groups above `p` have passed, and nothing more was recorded for them. */
  ghost predicate GroupsAboveOpen(events: seq<Entry>, p: Path) {
    forall k :: 1 <= k < |p| ==> Projection(events, Join(p[..k])) == [SetupLaunched, SetupPassed]
  }

  /** So it is at a step of `p`: of `s` and `t`, which differ at most at `p`, it is active in the one. */
  lemma GroupsAboveAreOpen(cfg: Config, s: State, t: State, p: Path)
    requires WellNamed(cfg.root) && Controlled(cfg, t) && Logged(cfg, s) && IsActive(t, p)
    requires forall x :: x in t.nodes && x != p ==> x in s.nodes && s.nodes[x] == t.nodes[x]
    ensures GroupsAboveOpen(s.log.events, p)
  {
    forall k | 1 <= k < |p|
      ensures Projection(s.log.events, Join(p[..k])) == [SetupLaunched, SetupPassed]
    {
      Scheduling.AncestorsAreOpen(cfg, t, p, k);
      assert p[..k] != p;
    }
  }

  lemma ExtendKeepsBracketed(cfg: Config, s: State, t: State, p: Path)
    requires Bracketed(s.log.events) && Extends(s, t, p) && p != [] && ValidPath(p)
    requires GroupsAboveOpen(s.log.events, p)
    ensures Bracketed(t.log.events)
  {
    if !(t.log.events == s.log.events && WordOf(t, p) == WordOf(s, p)) {
      var e :| t.log.events == s.log.events + [Entry(Join(p), e)] && WordOf(t, p) == WordOf(s, p) + [e];
      BracketSnoc(s.log.events, Entry(Join(p), e), p);
    }
  }

  lemma LaunchKeepsBracketed(cfg: Config, s: State, t: State, step: Step)
    requires WellNamed(cfg.root) && Controlled(cfg, t) && Logged(cfg, s) && Bracketed(s.log.events)
    requires Launches(cfg, s, t, step) && Extends(s, t, Mover(cfg, step))
    ensures Bracketed(t.log.events)
  {
    var p := Mover(cfg, step);
    Scheduling.PlacedFacts(cfg, t, p);
    GroupsAboveAreOpen(cfg, s, t, p);
    ExtendKeepsBracketed(cfg, s, t, p);
  }

  lemma MoveKeepsBracketed(cfg: Config, s: State, t: State, p: Path)
    requires WellNamed(cfg.root) && Controlled(cfg, s) && Logged(cfg, s) && Bracketed(s.log.events)
    requires IsActive(s, p) && Extends(s, t, p)
    ensures Bracketed(t.log.events)
  {
    Scheduling.PlacedFacts(cfg, s, p);
    GroupsAboveAreOpen(cfg, s, s, p);
    ExtendKeepsBracketed(cfg, s, t, p);
  }

  lemma StepKeepsBracketed(cfg: Config, s: State, step: Step)
    requires WellNamed(cfg.root) && Controlled(cfg, s) && Logged(cfg, s) && Enabled(cfg, s, step)
    requires Bracketed(s.log.events)
    ensures Bracketed(Apply(cfg, s, step).log.events)
  {
    var t := Apply(cfg, s, step);
    if IsLaunch(step) {
      StepLaunches(cfg, s, step);
      if !SameButPanicked(s, t) {
        LaunchExtends(cfg, s, step);
        StepKeepsControlled(cfg, s, step);
        LaunchKeepsBracketed(cfg, s, t, step);
      }
    } else {
      StepAdvances(cfg, s, step);
      if !SameButPanicked(s, t) {
        MoveExtends(cfg, s, step);
        MoveKeepsBracketed(cfg, s, t, step.path);
      }
    }
  }

  lemma NextIsBracketed(cfg: Config, run: seq<State>, i: nat, j: nat)
    requires WellNamed(cfg.root) && IsRun(cfg, run) && i + 1 == j < |run|
    requires Bracketed(run[i].log.events)
    ensures Bracketed(run[j].log.events)
  {
    RunIsLogged(cfg, run, i);
    RunIsControlled(cfg, run, i);
    var step := StepAt(cfg, run, i, j);
    StepKeepsBracketed(cfg, run[i], step);
  }

  /** Under any interleaving, the setup and teardown events of a group bracket all events of its subtree. */
  lemma {:induction false} RunIsBracketed(cfg: Config, run: seq<State>, i: nat)
    requires WellNamed(cfg.root) && IsRun(cfg, run) && i < |run|
    ensures Bracketed(run[i].log.events)
  {
    if i > 0 {
      var k: nat :| k + 1 == i;
      RunIsBracketed(cfg, run, k);
      NextIsBracketed(cfg, run, k, i);
    }
  }
}
