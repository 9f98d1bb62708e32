/**
 The counters at the end of a run: every included test is accounted for, once.
 */
module Conservation {
  import opened Common
  import opened Paths
  import opened Tree
  import opened Selection
  import opened EventLog
  import opened Engine
  import opened Control
  import Scheduling
  import opened Lifecycle
  import Guards

  // ---------------------------------------------------------------------------------------------
  // No test is settled twice
  // ---------------------------------------------------------------------------------------------

  lemma WorkHasNoRepeats(task: Task, v: Verdict)
    ensures NoRepeats(WorkWord(task, v))
    ensures forall e :: e in WorkWord(task, v) ==> !e.TeardownLaunched? && !e.TeardownPassed? && !e.TeardownFailed?
  {
  }

  lemma AppendedOnce(w: seq<Event>, e: Event)
    requires NoRepeats(w) && e !in w
    ensures NoRepeats(w + [e])
  {
  }

  lemma WordHasNoRepeats(task: Task, pc: Pc)
    ensures NoRepeats(Word(task, pc))
  {
    if pc.Closing? || pc.TearingDown? || pc.TornDown? || pc.Done? {
      var w := WorkWord(task, pc.verdict);
      WorkHasNoRepeats(task, pc.verdict);
      AppendedOnce(w, TeardownLaunched);
      AppendedOnce(w + [TeardownLaunched], TeardownPassed);
      AppendedOnce(w + [TeardownLaunched], TeardownFailed);
    }
  }

  lemma {:induction false} RepeatShows(events: seq<Entry>, n: string, i: nat, j: nat)
    requires i < j < |events| && events[i] == events[j] && events[i].name == n
    ensures !NoRepeats(Projection(events, n))
    decreases |events|
  {
    var init, last := events[..|events| - 1], events[|events| - 1];
    assert events == init + [last];
    ProjectionSnoc(init, last, n);
    if NoRepeats(Projection(events, n)) {
      assert init[i] == events[i];
      if j == |events| - 1 {
        ProjectionHolds(init, n, last.event);
        NotRepeated(Projection(init, n), last.event);
      } else {
        assert forall k :: 0 <= k < |Projection(init, n)| ==> Projection(init, n)[k] == Projection(events, n)[k];
        RepeatShows(init, n, i, j);
      }
    }
  }

  /** The entry at `i` belongs to a node, whose word holds its event. */
  lemma EntryHasNode(cfg: Config, s: State, i: nat) returns (p: Path)
    requires WellNamed(cfg.root) && Controlled(cfg, s) && Logged(cfg, s) && i < |s.log.events|
    ensures p in s.nodes && s.log.events[i].name == Join(p) && s.log.events[i].event in WordOf(s, p)
  {
    var e := s.log.events[i];
    ProjectionHolds(s.log.events, e.name, e.event);
    p :| p in s.nodes && e.name == Join(p);
  }

  predicate Settling(e: Event) {
    e.TestPassed? || e.TestFailed? || e.SetupSkipped? || e.SetupFailed?
  }

  /** A word settles at most once; the word of a group settles only if the group never opened. */
  lemma WordSettlesOnce(task: Task, pc: Pc, e: Event, f: Event)
    requires e in Word(task, pc) && Settling(e)
    ensures f in Word(task, pc) && Settling(f) ==> e == f
    ensures task == OfGroup && !InBody(pc) ==> !WasOpened(pc) && e in {SetupSkipped(OfGroup), SetupFailed(OfGroup)}
    ensures task == OfTest ==> e in {TestPassed, TestFailed, SetupSkipped(OfTest), SetupFailed(OfTest)}
  {
  }

  /** Every group above a launched node was opened. */
  lemma {:induction false} AncestorsWereOpened(cfg: Config, s: State, p: Path, k: nat)
    requires WellNamed(cfg.root) && Controlled(cfg, s) && p in s.nodes && 1 <= k < |p|
    ensures p[..k] in s.nodes && WasOpened(s.nodes[p[..k]].pc)
    decreases |p|
  {
    assert UnderParent(cfg, s, p);
    if k == |p| - 1 {
      assert p[..k] == Parent(p);
    } else {
      AncestorsWereOpened(cfg, s, Parent(p), k);
      assert p[..k] == Parent(p)[..k];
    }
  }

  /** What an event of a node may settle: of a test, itself; of a group, tests below it, and then it never opened. */
  lemma EventSettles(log: Log, task: Task, pc: Pc, e: Entry, x: string)
    requires e.event in Word(task, pc) && (task == OfGroup ==> !InBody(pc)) && x in Settles(log, e)
    ensures Settling(e.event)
    ensures task == OfTest ==> x == e.name
    ensures task == OfGroup ==> x in Included(log, e.name) && !WasOpened(pc)
  {
    WordSettlesOnce(task, pc, e.event, e.event);
  }

  lemma SettledByNode(cfg: Config, log: Log, p: Path, node: Node, e: Entry, x: string) returns (c: Path)
    requires WellNamed(cfg.root) && log.included == StartLog(cfg).included && Placed(cfg, p, node)
    requires p != [] && ValidPath(p) && e.name == Join(p)
    requires e.event in Word(node.task, node.pc) && x in Settles(log, e)
    ensures TestAt(cfg.root, c).Some? && Selects(cfg.filter, c) && x == Join(c) && p <= c
    ensures p == c || !WasOpened(node.pc)
  {
    EventSettles(log, node.task, node.pc, e, x);
    if node.task == OfTest {
      c := p;
    } else {
      c := Guards.IncludedIsPlace(cfg, x);
      Guards.IncludedBelow(cfg, log, p, c);
    }
  }

  /** What an entry of node `p` settles: the test `p` itself, or selected tests below a group that never opened. */
  lemma SettledBy(cfg: Config, s: State, i: nat, p: Path, x: string) returns (c: Path)
    requires WellNamed(cfg.root) && Controlled(cfg, s) && Logged(cfg, s) && i < |s.log.events|
    requires p in s.nodes && s.log.events[i].name == Join(p) && s.log.events[i].event in WordOf(s, p)
    requires x in Settles(s.log, s.log.events[i])
    ensures TestAt(cfg.root, c).Some? && Selects(cfg.filter, c) && x == Join(c) && p <= c
    ensures Settling(s.log.events[i].event)
    ensures p == c || !WasOpened(s.nodes[p].pc)
  {
    var e, node := s.log.events[i], s.nodes[p];
    assert Placed(cfg, p, node);
    Scheduling.PlacedFacts(cfg, s, p);
    EventSettles(s.log, node.task, node.pc, e, x);
    c := SettledByNode(cfg, s.log, p, node, e, x);
  }

  /** In every reachable state no test is settled by two entries. */
  lemma NothingSettledTwice(cfg: Config, s: State)
    requires WellNamed(cfg.root) && Controlled(cfg, s) && Logged(cfg, s)
    ensures SettledOnce(s.log, s.log.events)
  {
    var events := s.log.events;
    forall i, j, x | 0 <= i < j < |events| && x in Settles(s.log, events[i])
      ensures x !in Settles(s.log, events[j])
    {
      var p := EntryHasNode(cfg, s, i);
      var q := EntryHasNode(cfg, s, j);
      NotSettledAgain(cfg, s, i, j, p, q, x);
    }
  }

  lemma NotSettledAgain(cfg: Config, s: State, i: nat, j: nat, p: Path, q: Path, x: string)
    requires WellNamed(cfg.root) && Controlled(cfg, s) && Logged(cfg, s)
    requires i < j < |s.log.events|
    requires p in s.nodes && s.log.events[i].name == Join(p) && s.log.events[i].event in WordOf(s, p)
    requires q in s.nodes && s.log.events[j].name == Join(q) && s.log.events[j].event in WordOf(s, q)
    requires x in Settles(s.log, s.log.events[i])
    ensures x !in Settles(s.log, s.log.events[j])
  {
    if x in Settles(s.log, s.log.events[j]) {
      var c := SettledBy(cfg, s, i, p, x);
      var d := SettledBy(cfg, s, j, q, x);
      TestAtFacts(cfg.root, c);
      TestAtFacts(cfg.root, d);
      JoinInjective(c, d);
      SettlersAreOne(cfg, s, p, q, c);
      WordSettlesOnce(s.nodes[p].task, s.nodes[p].pc, s.log.events[i].event, s.log.events[j].event);
      WordHasNoRepeats(s.nodes[p].task, s.nodes[p].pc);
      RepeatShows(s.log.events, Join(p), i, j);
    }
  }

  /** Of two launched nodes at or above `c`, at most one is `c` or never opened. */
  lemma SettlersAreOne(cfg: Config, s: State, p: Path, q: Path, c: Path)
    requires WellNamed(cfg.root) && Controlled(cfg, s) && p in s.nodes && q in s.nodes
    requires p <= c && q <= c
    requires p == c || !WasOpened(s.nodes[p].pc)
    requires q == c || !WasOpened(s.nodes[q].pc)
    ensures p == q
  {
    assert p == c[..|p|] && q == c[..|q|];
    if |p| < |q| {
      UnopenedHasNothingBelow(cfg, s, p, q);
    } else if |q| < |p| {
      UnopenedHasNothingBelow(cfg, s, q, p);
    }
  }

  lemma UnopenedHasNothingBelow(cfg: Config, s: State, p: Path, q: Path)
    requires WellNamed(cfg.root) && Controlled(cfg, s) && p in s.nodes && p < q
    requires !WasOpened(s.nodes[p].pc)
    ensures q !in s.nodes
  {
    Scheduling.PlacedFacts(cfg, s, p);
    assert q[..|p|] == p;
    if q in s.nodes {
      AncestorsWereOpened(cfg, s, q, |p|);
    }
  }

  // ---------------------------------------------------------------------------------------------
  // Every included test is settled
  // ---------------------------------------------------------------------------------------------

  /** A selected test can be reached through groups the filter lets the engine enter. */
  ghost predicate SelectedAreReached(cfg: Config) {
    forall c, k :: TestAt(cfg.root, c).Some? && 2 <= k < |c| && Selects(cfg.filter, c) ==> Enters(cfg.filter, c[..k])
  }

  /** The children of a group that opened and is done are done. */
  lemma ChildOfDoneIsDone(cfg: Config, s: State, q: Path, c: Path)
    requires WellNamed(cfg.root) && Controlled(cfg, s)
    requires IsDone(s, q) && WasOpened(s.nodes[q].pc) && s.nodes[q].task == OfGroup
    requires |c| >= 2 && Parent(c) == q
    requires || (GroupAt(cfg.root, c).Some? && Enters(cfg.filter, c))
             || (TestAt(cfg.root, c).Some? && Selects(cfg.filter, c))
    ensures IsDone(s, c)
  {
    assert Placed(cfg, q, s.nodes[q]);
    var g := GroupAt(cfg.root, q).value;
    assert InOrder(cfg, s, q, g);
    if GroupAt(cfg.root, c).Some? && Enters(cfg.filter, c) {
      var h, i := GroupHasParent(cfg.root, c);
      assert IsDone(s, GroupChild(q, g, i));
    } else {
      var h, i := TestHasParent(cfg.root, c);
      assert Selects(cfg.filter, TestChild(q, g, i));
      assert IsDone(s, TestChild(q, g, i));
    }
  }

  /** A node at the place of a group is the node of a group. */
  lemma DoneGroupIsGroup(cfg: Config, s: State, q: Path)
    requires WellNamed(cfg.root) && Controlled(cfg, s) && q in s.nodes && GroupAt(cfg.root, q).Some?
    ensures s.nodes[q].task == OfGroup
  {
    assert Placed(cfg, q, s.nodes[q]);
    if s.nodes[q].task == OfTest {
      TestAtFacts(cfg.root, q);
    }
  }

  lemma GroupOnTheWay(cfg: Config, c: Path, k: nat)
    requires WellNamed(cfg.root) && TestAt(cfg.root, c).Some? && 1 <= k < |c|
    ensures c[0] == cfg.root.name && GroupAt(cfg.root, c[..k]).Some?
  {
    TestAtFacts(cfg.root, c);
    GroupAtFacts(cfg.root, Parent(c));
    assert Parent(c)[..k] == c[..k];
  }

  /** On the way to a selected test, the groups are opened and done down to one that never opened. */
  lemma {:induction false} WayDown(cfg: Config, s: State, c: Path, k: nat) returns (stop: nat)
    requires WellNamed(cfg.root) && SelectedAreReached(cfg)
    requires Controlled(cfg, s) && IsDone(s, RootPath(cfg))
    requires TestAt(cfg.root, c).Some? && Selects(cfg.filter, c) && 1 <= k < |c|
    ensures 1 <= stop <= k && IsDone(s, c[..stop]) && s.nodes[c[..stop]].task == OfGroup
    ensures WasOpened(s.nodes[c[..stop]].pc) ==> stop == k
    decreases k
  {
    GroupOnTheWay(cfg, c, k);
    if k == 1 {
      assert c[..1] == RootPath(cfg);
      stop := 1;
      DoneGroupIsGroup(cfg, s, c[..1]);
    } else {
      var j: nat :| j + 1 == k;
      stop := WayDown(cfg, s, c, j);
      if WasOpened(s.nodes[c[..stop]].pc) {
        NextOnTheWay(cfg, s, c, j, k);
        stop := k;
      }
    }
  }

  lemma NextOnTheWay(cfg: Config, s: State, c: Path, j: nat, k: nat)
    requires WellNamed(cfg.root) && SelectedAreReached(cfg) && Controlled(cfg, s)
    requires TestAt(cfg.root, c).Some? && Selects(cfg.filter, c) && 1 <= j && j + 1 == k < |c|
    requires IsDone(s, c[..j]) && s.nodes[c[..j]].task == OfGroup && WasOpened(s.nodes[c[..j]].pc)
    ensures IsDone(s, c[..k]) && s.nodes[c[..k]].task == OfGroup
  {
    GroupOnTheWay(cfg, c, k);
    assert Parent(c[..k]) == c[..j];
    ChildOfDoneIsDone(cfg, s, c[..j], c[..k]);
    DoneGroupIsGroup(cfg, s, c[..k]);
  }

  /** The word of a done node settles, unless it is that of a group that opened. */
  lemma DoneWordSettles(task: Task, pc: Pc) returns (e: Event)
    requires pc.Done? && (task == OfTest || !WasOpened(pc))
    ensures e in Word(task, pc) && Settling(e)
    ensures task == OfGroup ==> e in {SetupSkipped(OfGroup), SetupFailed(OfGroup)}
    ensures task == OfTest ==> e in {TestPassed, TestFailed, SetupSkipped(OfTest), SetupFailed(OfTest)}
  {
    e := match pc.verdict
      case WasSkipped => SetupSkipped(task)
      case SetupBroke => SetupFailed(task)
      case Finished(passed) => if passed then TestPassed else TestFailed;
    match pc.verdict
    case WasSkipped => assert Word(task, pc)[1] == e;
    case SetupBroke => assert Word(task, pc)[1] == e;
    case Finished(passed) => assert Word(task, pc)[3] == e;
  }

  /** The node that settles a selected test: its own, or the first group on the way that never opened. */
  lemma SettlingNode(cfg: Config, s: State, c: Path) returns (p: Path)
    requires WellNamed(cfg.root) && SelectedAreReached(cfg)
    requires Controlled(cfg, s) && IsDone(s, RootPath(cfg))
    requires TestAt(cfg.root, c).Some? && Selects(cfg.filter, c)
    ensures IsDone(s, p) && p <= c
    ensures s.nodes[p].task == OfTest || !WasOpened(s.nodes[p].pc)
    ensures s.nodes[p].task == OfTest ==> p == c
  {
    TestAtFacts(cfg.root, c);
    var stop := WayDown(cfg, s, c, |c| - 1);
    p := c[..stop];
    if WasOpened(s.nodes[p].pc) {
      ChildOfDoneIsDone(cfg, s, p, c);
      p := c;
      assert Placed(cfg, c, s.nodes[c]);
    }
  }

  lemma IncludedIsSettled(cfg: Config, s: State, c: Path)
    requires WellNamed(cfg.root) && SelectedAreReached(cfg)
    requires Controlled(cfg, s) && Logged(cfg, s) && IsDone(s, RootPath(cfg))
    requires TestAt(cfg.root, c).Some? && Selects(cfg.filter, c)
    ensures c != [] && Join(c) in Settled(s.log, s.log.events)
  {
    TestAtFacts(cfg.root, c);
    var p := SettlingNode(cfg, s, c);
    Scheduling.PlacedFacts(cfg, s, p);
    var e := DoneWordSettles(s.nodes[p].task, s.nodes[p].pc);
    ProjectionHolds(s.log.events, Join(p), e);
    Guards.IncludedBelow(cfg, s.log, p, c);
    EntrySettles(s.log, Entry(Join(p), e), s.nodes[p].task, Join(c));
  }

  lemma EntrySettles(log: Log, e: Entry, task: Task, x: string)
    requires e in log.events && Settling(e.event)
    requires task == OfGroup ==> e.event in {SetupSkipped(OfGroup), SetupFailed(OfGroup)} && x in Included(log, e.name)
    requires task == OfTest ==>
               e.event in {TestPassed, TestFailed, SetupSkipped(OfTest), SetupFailed(OfTest)} && x == e.name
    ensures x in Settled(log, log.events)
  {
    var i :| 0 <= i < |log.events| && log.events[i] == e;
    assert x in Settles(log, log.events[i]);
    SettledForm(log, log.events, x);
  }

  /** When the root is done, the settled tests are exactly the included ones. */
  lemma SettledIsIncluded(cfg: Config, s: State)
    requires WellNamed(cfg.root) && SelectedAreReached(cfg)
    requires Controlled(cfg, s) && Logged(cfg, s) && IsDone(s, RootPath(cfg))
    ensures Settled(s.log, s.log.events) == s.log.included
  {
    forall x | x in s.log.included
      ensures x in Settled(s.log, s.log.events)
    {
      var c := Guards.IncludedIsPlace(cfg, x);
      IncludedIsSettled(cfg, s, c);
    }
    forall x | x in Settled(s.log, s.log.events)
      ensures x in s.log.included
    {
      SettledForm(s.log, s.log.events, x);
      var i :| 0 <= i < |s.log.events| && x in Settles(s.log, s.log.events[i]);
      var p := EntryHasNode(cfg, s, i);
      var c := SettledBy(cfg, s, i, p, x);
      Guards.IncludedIffSelected(cfg, c);
    }
  }

  // ---------------------------------------------------------------------------------------------
  // The counters
  // ---------------------------------------------------------------------------------------------

  /** A name has an event iff it is the name of a node whose word has one. */
  lemma NameHolds(cfg: Config, s: State, n: string, kinds: set<Event>)
    requires Logged(cfg, s)
    ensures n in NamesWith(s.log.events, kinds) <==>
            exists p :: p in s.nodes && n == Join(p) && Holds(WordOf(s, p), kinds)
  {
    NameHeld(s.log.events, n, kinds);
    if Holds(Projection(s.log.events, n), kinds) {
      var p :| p in s.nodes && n == Join(p);
    }
  }

  /** The word has one of `kinds` iff it has one of `some` or one of `others`, and has at most one of all. */
  predicate Splits(w: seq<Event>, kinds: set<Event>, some: set<Event>, others: set<Event>) {
    && (Holds(w, kinds) <==> Holds(w, some) || Holds(w, others))
    && !(Holds(w, some) && Holds(w, others))
    && AtMostOnce(w, kinds) && AtMostOnce(w, some) && AtMostOnce(w, others)
  }

  ghost predicate WordsHoldOne(s: State, kinds: set<Event>) {
    forall p :: p in s.nodes ==> AtMostOnce(WordOf(s, p), kinds)
  }

  /** A word has at most one of some events that are one or that settle. */
  lemma WordsHoldOneOf(s: State, kinds: set<Event>)
    requires |kinds| == 1 || forall e :: e in kinds ==> Settling(e)
    ensures WordsHoldOne(s, kinds)
  {
    forall p | p in s.nodes
      ensures AtMostOnce(WordOf(s, p), kinds)
    {
      var task, pc := s.nodes[p].task, s.nodes[p].pc;
      WordHasNoRepeats(task, pc);
      forall i, j | 0 <= i < j < |Word(task, pc)|
        ensures !(Word(task, pc)[i] in kinds && Word(task, pc)[j] in kinds)
      {
        OneKind(task, pc, kinds, Word(task, pc)[i], Word(task, pc)[j]);
      }
    }
  }

  lemma OneKind(task: Task, pc: Pc, kinds: set<Event>, e: Event, f: Event)
    requires |kinds| == 1 || forall e :: e in kinds ==> Settling(e)
    requires e in Word(task, pc) && f in Word(task, pc)
    ensures e in kinds && f in kinds ==> e == f
  {
    if e in kinds && f in kinds {
      if |kinds| == 1 {
        assert |kinds - {e}| == 0;
        assert f in kinds - {e} || f == e;
      } else {
        WordSettlesOnce(task, pc, e, f);
      }
    }
  }

  lemma CountsNodes(cfg: Config, s: State, kinds: set<Event>)
    requires Logged(cfg, s) && WordsHoldOne(s, kinds)
    ensures Count(s.log.events, kinds) == |NamesWith(s.log.events, kinds)|
  {
    forall n
      ensures AtMostOnce(Projection(s.log.events, n), kinds)
    {
      if Projection(s.log.events, n) != [] {
        var p :| p in s.nodes && n == Join(p);
      }
    }
    CountIsNames(s.log.events, kinds);
  }

  ghost predicate WordsSplit(s: State, kinds: set<Event>, some: set<Event>, others: set<Event>) {
    forall p :: p in s.nodes ==> Splits(WordOf(s, p), kinds, some, others)
  }

  lemma NamesSplit(cfg: Config, s: State, kinds: set<Event>, some: set<Event>, others: set<Event>)
    requires WellNamed(cfg.root) && Controlled(cfg, s) && Logged(cfg, s) && WordsSplit(s, kinds, some, others)
    ensures NamesWith(s.log.events, kinds) == NamesWith(s.log.events, some) + NamesWith(s.log.events, others)
    ensures NamesWith(s.log.events, some) !! NamesWith(s.log.events, others)
  {
    forall n
      ensures n in NamesWith(s.log.events, kinds) <==>
              n in NamesWith(s.log.events, some) || n in NamesWith(s.log.events, others)
      ensures !(n in NamesWith(s.log.events, some) && n in NamesWith(s.log.events, others))
    {
      NameSplits(cfg, s, kinds, some, others, n);
    }
  }

  lemma NameSplits(cfg: Config, s: State, kinds: set<Event>, some: set<Event>, others: set<Event>, n: string)
    requires WellNamed(cfg.root) && Controlled(cfg, s) && Logged(cfg, s) && WordsSplit(s, kinds, some, others)
    ensures n in NamesWith(s.log.events, kinds) <==>
            n in NamesWith(s.log.events, some) || n in NamesWith(s.log.events, others)
    ensures !(n in NamesWith(s.log.events, some) && n in NamesWith(s.log.events, others))
  {
    NameHolds(cfg, s, n, kinds);
    NameHolds(cfg, s, n, some);
    NameHolds(cfg, s, n, others);
    if p :| p in s.nodes && n == Join(p) {
      forall q | q in s.nodes && n == Join(q)
        ensures q == p
      {
        if p != q {
          NodesApart(cfg, s, p, q);
        }
      }
    }
  }

  /** Where the words fall into two kinds, so does the counter. */
  lemma CountSplits(cfg: Config, s: State, kinds: set<Event>, some: set<Event>, others: set<Event>)
    requires WellNamed(cfg.root) && Controlled(cfg, s) && Logged(cfg, s) && WordsSplit(s, kinds, some, others)
    ensures Count(s.log.events, kinds) == Count(s.log.events, some) + Count(s.log.events, others)
  {
    CountsNodes(cfg, s, kinds);
    CountsNodes(cfg, s, some);
    CountsNodes(cfg, s, others);
    NamesSplit(cfg, s, kinds, some, others);
  }

  // ---------------------------------------------------------------------------------------------
  // The end of a run
  // ---------------------------------------------------------------------------------------------

  const SKIPS := {SetupSkipped(OfTest), SetupSkipped(OfGroup)}
  const ERRORS := {SetupFailed(OfTest), SetupFailed(OfGroup)}

  /** The last three places of a whole lifecycle. */
  lemma DoneWordEnds(task: Task, pc: Pc)
    requires pc.Done?
    ensures var w, n := Word(task, pc), |WorkWord(task, pc.verdict)|;
            && |w| == n + 2 && n >= 2 && w[0] == SetupLaunched && w[n] == TeardownLaunched
            && w[n + 1] == (if pc.ok then TeardownPassed else TeardownFailed)
            && w[1] == (match pc.verdict
                        case WasSkipped => SetupSkipped(task)
                        case SetupBroke => SetupFailed(task)
                        case Finished(_) => SetupPassed)
            && (n == 2 || (n == 4 && w[2] == TestLaunched && w[3] in {TestPassed, TestFailed}))
            && (n == 4 <==> task == OfTest && pc.verdict.Finished?)
  {
  }

  lemma DoneWordSplits(task: Task, pc: Pc)
    requires pc.Done?
    ensures Splits(Word(task, pc), {TestLaunched}, {TestPassed}, {TestFailed})
  {
    DoneWordEnds(task, pc);
  }

  lemma DoneWordSplitsTeardowns(task: Task, pc: Pc)
    requires pc.Done?
    ensures Splits(Word(task, pc), {TeardownLaunched}, {TeardownPassed}, {TeardownFailed})
    ensures Splits(Word(task, pc), {SetupLaunched}, {TeardownPassed}, {TeardownFailed})
  {
    DoneWordEnds(task, pc);
  }

  lemma DoneWordSplitsSetups(task: Task, pc: Pc)
    requires pc.Done?
    ensures Splits(Word(task, pc), {SetupLaunched}, {SetupPassed}, SKIPS + ERRORS)
    ensures Splits(Word(task, pc), SKIPS + ERRORS, SKIPS, ERRORS)
  {
    DoneWordEnds(task, pc);
    assert task == OfGroup || task == OfTest;
  }

  ghost predicate CountersAgree(log: Log) {
    && |log.included| == TestsPassed(log) + TestsFailed(log) + TestsSkipped(log) + TestsSkippedByFixtureErr(log)
    && TestsLaunched(log) == TestsPassed(log) + TestsFailed(log)
    && SetupsLaunched(log) == SetupsPassed(log) + SetupsSkipped(log) + SetupsFailed(log)
    && SetupsLaunched(log) == TeardownsLaunched(log)
    && TeardownsLaunched(log) == TeardownsPassed(log) + TeardownsFailed(log)
  }

  /** When the root is done, every included test is counted exactly once as passed, failed, skipped, or skipped by a
      fixture error; launched tests passed or failed; and setups and teardowns balance. */
  lemma CountersBalance(cfg: Config, run: seq<State>, i: nat)
    requires WellNamed(cfg.root) && SelectedAreReached(cfg) && IsRun(cfg, run) && i < |run|
    requires IsDone(run[i], RootPath(cfg))
    ensures CountersAgree(run[i].log)
  {
    RunIsControlled(cfg, run, i);
    RunIsLogged(cfg, run, i);
    CountersBalanceIn(cfg, run[i]);
  }

  lemma CountersBalanceIn(cfg: Config, s: State)
    requires WellNamed(cfg.root) && SelectedAreReached(cfg)
    requires Controlled(cfg, s) && Logged(cfg, s) && IsDone(s, RootPath(cfg))
    ensures CountersAgree(s.log)
  {
    NothingSettledTwice(cfg, s);
    SettledIsIncluded(cfg, s);
    SettledCount(s.log, s.log.events);
    forall p | p in s.nodes
      ensures IsDone(s, p)
    {
      Scheduling.OnlyRootActive(cfg, s, p);
    }
    LaunchesBalance(cfg, s);
  }

  ghost predicate AllDone(s: State) {
    forall p :: p in s.nodes ==> IsDone(s, p)
  }

  lemma DoneWordsSplit(s: State)
    requires AllDone(s)
    ensures WordsSplit(s, {TestLaunched}, {TestPassed}, {TestFailed})
    ensures WordsSplit(s, {TeardownLaunched}, {TeardownPassed}, {TeardownFailed})
    ensures WordsSplit(s, {SetupLaunched}, {TeardownPassed}, {TeardownFailed})
    ensures WordsSplit(s, {SetupLaunched}, {SetupPassed}, SKIPS + ERRORS)
    ensures WordsSplit(s, SKIPS + ERRORS, SKIPS, ERRORS)
  {
    forall p | p in s.nodes
      ensures Splits(WordOf(s, p), {TestLaunched}, {TestPassed}, {TestFailed})
      ensures Splits(WordOf(s, p), {TeardownLaunched}, {TeardownPassed}, {TeardownFailed})
      ensures Splits(WordOf(s, p), {SetupLaunched}, {TeardownPassed}, {TeardownFailed})
      ensures Splits(WordOf(s, p), {SetupLaunched}, {SetupPassed}, SKIPS + ERRORS)
      ensures Splits(WordOf(s, p), SKIPS + ERRORS, SKIPS, ERRORS)
    {
      assert IsDone(s, p);
      DoneWordSplits(s.nodes[p].task, s.nodes[p].pc);
      DoneWordSplitsTeardowns(s.nodes[p].task, s.nodes[p].pc);
      DoneWordSplitsSetups(s.nodes[p].task, s.nodes[p].pc);
    }
  }

  lemma LaunchesBalance(cfg: Config, s: State)
    requires WellNamed(cfg.root) && Controlled(cfg, s) && Logged(cfg, s) && AllDone(s)
    ensures TestsLaunched(s.log) == TestsPassed(s.log) + TestsFailed(s.log)
    ensures SetupsLaunched(s.log) == SetupsPassed(s.log) + SetupsSkipped(s.log) + SetupsFailed(s.log)
    ensures SetupsLaunched(s.log) == TeardownsLaunched(s.log)
    ensures TeardownsLaunched(s.log) == TeardownsPassed(s.log) + TeardownsFailed(s.log)
  {
    DoneWordsSplit(s);
    CountSplits(cfg, s, {TestLaunched}, {TestPassed}, {TestFailed});
    CountSplits(cfg, s, {TeardownLaunched}, {TeardownPassed}, {TeardownFailed});
    CountSplits(cfg, s, {SetupLaunched}, {TeardownPassed}, {TeardownFailed});
    CountSplits(cfg, s, {SetupLaunched}, {SetupPassed}, SKIPS + ERRORS);
    CountSplits(cfg, s, SKIPS + ERRORS, SKIPS, ERRORS);
    assert SKIPS == {SetupSkipped(OfGroup), SetupSkipped(OfTest)};
    assert ERRORS == {SetupFailed(OfGroup), SetupFailed(OfTest)};
  }

  ghost predicate NamesAgree(log: Log) {
    && log.included == PassedNames(log) + FailedTestNames(log) + SkippedNames(log) + SkippedByFixtureErrNames(log)
    && PassedNames(log) !! FailedTestNames(log) !! SkippedNames(log) !! SkippedByFixtureErrNames(log)
  }

  /** The name lists at the end: the included tests fall into four parts. */
  lemma NamesPartition(cfg: Config, run: seq<State>, i: nat)
    requires WellNamed(cfg.root) && SelectedAreReached(cfg) && IsRun(cfg, run) && i < |run|
    requires IsDone(run[i], RootPath(cfg))
    ensures NamesAgree(run[i].log)
  {
    RunIsControlled(cfg, run, i);
    RunIsLogged(cfg, run, i);
    NothingSettledTwice(cfg, run[i]);
    SettledIsIncluded(cfg, run[i]);
    PartsOf(run[i].log);
  }

  lemma PartsOf(log: Log)
    requires SettledOnce(log, log.events)
    ensures Settled(log, log.events)
         == PassedNames(log) + FailedTestNames(log) + SkippedNames(log) + SkippedByFixtureErrNames(log)
    ensures PassedNames(log) !! FailedTestNames(log) !! SkippedNames(log) !! SkippedByFixtureErrNames(log)
  {
    NamesAreSettled(log);
    SettledApart(log, {TestPassed}, {TestFailed});
    SettledApart(log, {TestPassed, TestFailed}, SKIPS);
    SettledApart(log, {TestPassed, TestFailed} + SKIPS, ERRORS);
    SettledJoins(log, {TestPassed}, {TestFailed});
    assert {TestPassed} + {TestFailed} == {TestPassed, TestFailed};
    SettledJoins(log, {TestPassed, TestFailed}, SKIPS);
    SettledJoins(log, {TestPassed, TestFailed} + SKIPS, ERRORS);
    SettledInAll(log);
  }

  /** The tests that some entry with one of these events settles. */
  function SettledAs(log: Log, kinds: set<Event>): set<string> {
    set i, x | 0 <= i < |log.events| && log.events[i].event in kinds && x in Settles(log, log.events[i]) :: x
  }

  lemma NamesAreSettled(log: Log)
    ensures PassedNames(log) == SettledAs(log, {TestPassed})
    ensures FailedTestNames(log) == SettledAs(log, {TestFailed})
    ensures SkippedNames(log) == SettledAs(log, SKIPS)
    ensures SkippedByFixtureErrNames(log) == SettledAs(log, ERRORS)
  {
    KindIsSettled(log, TestPassed);
    KindIsSettled(log, TestFailed);
    KindIsSettled(log, SetupSkipped(OfTest));
    KindIsSettled(log, SetupFailed(OfTest));
    GroupIsSettled(log, SetupSkipped(OfGroup));
    GroupIsSettled(log, SetupFailed(OfGroup));
    SettledJoins(log, {SetupSkipped(OfTest)}, {SetupSkipped(OfGroup)});
    SettledJoins(log, {SetupFailed(OfTest)}, {SetupFailed(OfGroup)});
    assert {SetupSkipped(OfTest)} + {SetupSkipped(OfGroup)} == SKIPS;
    assert {SetupFailed(OfTest)} + {SetupFailed(OfGroup)} == ERRORS;
  }

  lemma KindIsSettled(log: Log, e: Event)
    requires e in {TestPassed, TestFailed, SetupSkipped(OfTest), SetupFailed(OfTest)}
    ensures NamesWith(log.events, {e}) == SettledAs(log, {e})
  {
    forall x | x in NamesWith(log.events, {e})
      ensures x in SettledAs(log, {e})
    {
      var i :| 0 <= i < |log.events| && log.events[i].event in {e} && log.events[i].name == x;
      assert x in Settles(log, log.events[i]);
    }
  }

  lemma GroupIsSettled(log: Log, e: Event)
    requires e in {SetupSkipped(OfGroup), SetupFailed(OfGroup)}
    ensures NamesBelow(log, e) == SettledAs(log, {e})
  {
    forall x | x in NamesBelow(log, e)
      ensures x in SettledAs(log, {e})
    {
      var i :| 0 <= i < |log.events| && log.events[i].event == e && x in Included(log, log.events[i].name);
      assert x in Settles(log, log.events[i]);
    }
  }

  lemma SettledJoins(log: Log, a: set<Event>, b: set<Event>)
    ensures SettledAs(log, a + b) == SettledAs(log, a) + SettledAs(log, b)
  {
  }

  lemma SettledApart(log: Log, a: set<Event>, b: set<Event>)
    requires SettledOnce(log, log.events) && a !! b
    ensures SettledAs(log, a) !! SettledAs(log, b)
  {
    forall x | x in SettledAs(log, a)
      ensures x !in SettledAs(log, b)
    {
      var i :| 0 <= i < |log.events| && log.events[i].event in a && x in Settles(log, log.events[i]);
      forall j | 0 <= j < |log.events| && log.events[j].event in b
        ensures x !in Settles(log, log.events[j])
      {
        assert i != j;
        assert i < j ==> Settles(log, log.events[i]) !! Settles(log, log.events[j]);
        assert j < i ==> Settles(log, log.events[j]) !! Settles(log, log.events[i]);
      }
    }
  }

  lemma SettledInAll(log: Log)
    ensures Settled(log, log.events) == SettledAs(log, {TestPassed, TestFailed} + SKIPS + ERRORS)
  {
    forall x
      ensures x in Settled(log, log.events) <==> x in SettledAs(log, {TestPassed, TestFailed} + SKIPS + ERRORS)
    {
      SettledForm(log, log.events, x);
      if i :| 0 <= i < |log.events| && x in Settles(log, log.events[i]) {
        SettlingKinds(log, log.events[i], x);
      }
    }
  }

  lemma SettlingKinds(log: Log, e: Entry, x: string)
    requires x in Settles(log, e)
    ensures e.event in {TestPassed, TestFailed} + SKIPS + ERRORS
  {
    if e.event.SetupSkipped? || e.event.SetupFailed? {
      assert e.event.task == OfTest || e.event.task == OfGroup;
    }
  }
}
