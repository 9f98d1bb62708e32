/**
 What every step keeps about the program counters: where nodes stand in the tree, and the order of the loops.
 */
module Control {
  import opened Common
  import opened Paths
  import opened Tree
  import opened Selection
  import opened EventLog
  import opened Engine

  // ---------------------------------------------------------------------------------------------
  // The shape of a step
  // ---------------------------------------------------------------------------------------------

  /** How one node moves on. */
  predicate Advances(task: Task, a: Pc, b: Pc) {
    match a
    case Starting => b.SetUpDone?
    case SetUpDone(result) =>
      (match result
       case Passed(arc) => b == Open(arc)
       case Skipped => b == Closing(WasSkipped)
       case Failed => b == Closing(SetupBroke))
    case Open(arc) => if task == OfTest then b == Running(arc) else b == Closing(Finished(true))
    case Running(arc) => b.Ran? && b.arc == arc
    case Ran(arc, passed) => b == Judged(arc, passed)
    case Judged(arc, passed) => b == Closing(Finished(passed))
    case Closing(verdict) => b == TearingDown(verdict)
    case TearingDown(verdict) => b.TornDown? && b.verdict == verdict
    case TornDown(verdict, ok) => b == Done(verdict, ok)
    case Done(_, _) => false
  }

  predicate IsLaunch(step: Step) {
    step.LaunchRoot? || step.LaunchGroup? || step.LaunchTest?
  }

  ghost predicate SameButPanicked(s: State, t: State) {
    t == s.(panicked := true)
  }

  /** One node moves on; the fixture of a group is dropped only when the group's loops are through. */
  ghost predicate Moves(cfg: Config, s: State, t: State, p: Path) {
    && p in s.nodes && p in t.nodes && !t.panicked
    && t.nodes == s.nodes[p := t.nodes[p]]
    && t.nodes[p].task == s.nodes[p].task
    && Advances(s.nodes[p].task, s.nodes[p].pc, t.nodes[p].pc)
    && t.nodes[p].concurrent == FlagAfter(cfg, p, s.nodes[p], t.nodes[p].pc)
    && (s.nodes[p].task == OfGroup && s.nodes[p].pc.Open? ==> CanDrop(cfg, s, p))
  }

  /** A step that is not a launch either panics or moves its node on. */
  lemma StepAdvances(cfg: Config, s: State, step: Step)
    requires Enabled(cfg, s, step) && !IsLaunch(step)
    ensures SameButPanicked(s, Apply(cfg, s, step)) || Moves(cfg, s, Apply(cfg, s, step), step.path)
  {
  }

  /** The context flag changes only where a group opens: it stays on iff the group's fixture allows it. */
  function FlagAfter(cfg: Config, p: Path, node: Node, pc: Pc): bool {
    if node.task == OfGroup && pc.Open? then
      node.concurrent && FixtureAt(cfg, p).Some? && FixtureAt(cfg, p).value.concurrent
    else node.concurrent
  }

  /** The flag a node is launched with. */
  ghost function LaunchFlag(cfg: Config, s: State, step: Step): bool
    requires Enabled(cfg, s, step) && IsLaunch(step)
  {
    match step
    case LaunchGroup(q, _) => s.nodes[q].concurrent
    case LaunchTest(q, i) => InConcurrentPhase(s, q, GroupAt(cfg.root, q).value, i)
    case _ => true
  }

  /** A node is added whose turn it is. */
  ghost predicate Launches(cfg: Config, s: State, t: State, step: Step) {
    && Enabled(cfg, s, step) && IsLaunch(step)
    && var p := Mover(cfg, step);
    && p !in s.nodes && !t.panicked && t.fixtures == s.fixtures
    && t.nodes == s.nodes[p := Node(if step.LaunchTest? then OfTest else OfGroup, Starting, LaunchFlag(cfg, s, step))]
  }

  lemma StepLaunches(cfg: Config, s: State, step: Step)
    requires Enabled(cfg, s, step) && IsLaunch(step)
    ensures SameButPanicked(s, Apply(cfg, s, step)) || Launches(cfg, s, Apply(cfg, s, step), step)
  {
  }

  // ---------------------------------------------------------------------------------------------
  // The invariant
  // ---------------------------------------------------------------------------------------------

  /** The setup of the node passed. */
  predicate WasOpened(pc: Pc) {
    match pc
    case Starting => false
    case SetUpDone(_) => false
    case Closing(v) => v.Finished?
    case TearingDown(v) => v.Finished?
    case TornDown(v, _) => v.Finished?
    case Done(v, _) => v.Finished?
    case _ => true
  }

  predicate InBody(pc: Pc) {
    pc.Running? || pc.Ran? || pc.Judged?
  }

  /** A node stands at a place of the tree that the filter lets the engine reach. */
  ghost predicate Placed(cfg: Config, p: Path, node: Node) {
    match node.task
    case OfGroup =>
      && GroupAt(cfg.root, p).Some?
      && !InBody(node.pc)
      && (p == RootPath(cfg) || (|p| >= 2 && Enters(cfg.filter, p)))
    case OfTest =>
      && TestAt(cfg.root, p).Some?
      && Selects(cfg.filter, p)
  }

  /** The parent of a node was opened, and is open while the node is active. */
  ghost predicate UnderParent(cfg: Config, s: State, p: Path)
    requires p in s.nodes
  {
    p == RootPath(cfg) ||
    (&& |p| >= 2
     && Parent(p) in s.nodes
     && s.nodes[Parent(p)].task == OfGroup
     && WasOpened(s.nodes[Parent(p)].pc)
     && (IsActive(s, p) ==> IsOpen(s, Parent(p))))
  }

  /** The loops of a group run in order: subgroups one by one, then the concurrent tests, then the others one by one;
      and the group is left only when all are done. */
  ghost predicate InOrder(cfg: Config, s: State, q: Path, g: Group)
    requires q in s.nodes
  {
    && (forall i :: 0 <= i < |g.groups| && GroupChild(q, g, i) in s.nodes ==> GroupsDone(cfg, s, q, g, i))
    && (forall i :: 0 <= i < |g.tests| && TestChild(q, g, i) in s.nodes ==> GroupsDone(cfg, s, q, g, |g.groups|))
    && (forall i :: 0 <= i < |g.tests| && TestChild(q, g, i) in s.nodes && !InConcurrentPhase(s, q, g, i) ==>
          ConcurrentTestsDone(cfg, s, q, g) && OtherTestsDone(cfg, s, q, g, i))
    && (WasOpened(s.nodes[q].pc) && !s.nodes[q].pc.Open? ==> ChildrenDone(cfg, s, q, g))
  }

  ghost predicate Ordered(cfg: Config, s: State) {
    forall q {:trigger InOrder(cfg, s, q, GroupAt(cfg.root, q).value)} ::
      q in s.nodes && s.nodes[q].task == OfGroup && GroupAt(cfg.root, q).Some? ==>
        InOrder(cfg, s, q, GroupAt(cfg.root, q).value)
  }

  ghost predicate AllPlaced(cfg: Config, s: State) {
    forall p {:trigger Placed(cfg, p, s.nodes[p])} :: p in s.nodes ==> Placed(cfg, p, s.nodes[p])
  }

  /** The trigger keeps the solver from going up the tree on its own. */
  ghost predicate AllUnderParents(cfg: Config, s: State) {
    forall p {:trigger UnderParent(cfg, s, p)} :: p in s.nodes ==> UnderParent(cfg, s, p)
  }

  ghost predicate Controlled(cfg: Config, s: State) {
    AllPlaced(cfg, s) && AllUnderParents(cfg, s) && Ordered(cfg, s)
  }

  // ---------------------------------------------------------------------------------------------
  // Every step keeps it
  // ---------------------------------------------------------------------------------------------

  /** Nothing in the part of the state that the loops look at goes back. */
  ghost predicate Onward(s: State, t: State) {
    && (forall p :: p in s.nodes ==> p in t.nodes && t.nodes[p].task == s.nodes[p].task)
    && (forall p :: IsDone(s, p) ==> t.nodes[p] == s.nodes[p])
  }

  lemma ChildrenStayDone(cfg: Config, s: State, t: State, q: Path, g: Group, i: nat)
    requires Onward(s, t) && q in s.nodes && i <= |g.groups|
    requires t.nodes[q].concurrent == s.nodes[q].concurrent
    ensures GroupsDone(cfg, s, q, g, i) ==> GroupsDone(cfg, t, q, g, i)
    ensures ConcurrentTestsDone(cfg, s, q, g) ==> ConcurrentTestsDone(cfg, t, q, g)
    ensures forall j :: 0 <= j <= |g.tests| ==> (OtherTestsDone(cfg, s, q, g, j) ==> OtherTestsDone(cfg, t, q, g, j))
  {
  }

  /** A group without launched children, as every group is before it opens. */
  ghost predicate NoChildren(s: State, q: Path, g: Group) {
    && (forall i :: 0 <= i < |g.groups| ==> GroupChild(q, g, i) !in s.nodes)
    && (forall i :: 0 <= i < |g.tests| ==> TestChild(q, g, i) !in s.nodes)
  }

  lemma UnopenedHasNoChildren(cfg: Config, s: State, q: Path, g: Group)
    requires WellNamed(cfg.root) && GroupAt(cfg.root, q) == Some(g)
    requires AllUnderParents(cfg, s)
    requires q !in s.nodes || !WasOpened(s.nodes[q].pc)
    ensures NoChildren(s, q, g)
  {
    GroupAtFacts(cfg.root, q);
    forall i | 0 <= i < |g.groups|
      ensures GroupChild(q, g, i) !in s.nodes
    {
      GroupChildAt(cfg.root, q, g, i);
      assert GroupChild(q, g, i) in s.nodes ==> UnderParent(cfg, s, GroupChild(q, g, i));
    }
    forall i | 0 <= i < |g.tests|
      ensures TestChild(q, g, i) !in s.nodes
    {
      TestChildAt(cfg.root, q, g, i);
      assert TestChild(q, g, i) in s.nodes ==> UnderParent(cfg, s, TestChild(q, g, i));
    }
  }

  /** A launched child of a group whose loops are through is done. */
  lemma LaunchedChildIsDone(cfg: Config, s: State, p: Path)
    requires p in s.nodes && |p| >= 2 && Placed(cfg, p, s.nodes[p]) && Parent(p) in s.nodes
    requires GroupAt(cfg.root, Parent(p)).Some?
    requires ChildrenDone(cfg, s, Parent(p), GroupAt(cfg.root, Parent(p)).value)
    ensures IsDone(s, p)
  {
    if s.nodes[p].task == OfGroup {
      var g, i := GroupHasParent(cfg.root, p);
    } else {
      var g, i := TestHasParent(cfg.root, p);
      assert Selects(cfg.filter, TestChild(Parent(p), g, i));
    }
  }

  lemma MoveKeepsUnderParent(cfg: Config, s: State, t: State, p: Path, x: Path)
    requires Moves(cfg, s, t, p)
    requires x in s.nodes && UnderParent(cfg, s, x) && Placed(cfg, x, s.nodes[x])
    ensures UnderParent(cfg, t, x)
  {
    assert IsActive(t, x) ==> IsActive(s, x);
    if x != RootPath(cfg) && Parent(x) == p && s.nodes[p].pc.Open? {
      LaunchedChildIsDone(cfg, s, x);
    }
  }

  lemma NoChildrenInOrder(cfg: Config, s: State, q: Path, g: Group)
    requires q in s.nodes && NoChildren(s, q, g)
    requires WasOpened(s.nodes[q].pc) ==> s.nodes[q].pc.Open?
    ensures InOrder(cfg, s, q, g)
  {
  }

  /** The order of the loops of a group is kept while no child is launched and the group is not left. */
  lemma SameChildrenInOrder(cfg: Config, s: State, t: State, q: Path, g: Group)
    requires q in s.nodes && q in t.nodes && t.nodes[q].concurrent == s.nodes[q].concurrent
    requires Onward(s, t) && t.nodes.Keys == s.nodes.Keys
    requires InOrder(cfg, s, q, g)
    requires WasOpened(t.nodes[q].pc) && !t.nodes[q].pc.Open? ==> ChildrenDone(cfg, s, q, g)
    ensures InOrder(cfg, t, q, g)
  {
    forall i | 0 <= i <= |g.groups|
      ensures GroupsDone(cfg, s, q, g, i) ==> GroupsDone(cfg, t, q, g, i)
    {
      ChildrenStayDone(cfg, s, t, q, g, i);
    }
    ChildrenStayDone(cfg, s, t, q, g, 0);
  }

  lemma MoveIsOnward(cfg: Config, s: State, t: State, p: Path)
    requires Moves(cfg, s, t, p)
    ensures Onward(s, t) && t.nodes.Keys == s.nodes.Keys
  {
  }

  /** A group that opens, or does not get that far, has no children yet. */
  lemma UnopenedMoveInOrder(cfg: Config, s: State, t: State, p: Path, g: Group)
    requires WellNamed(cfg.root) && Moves(cfg, s, t, p)
    requires GroupAt(cfg.root, p) == Some(g) && !WasOpened(s.nodes[p].pc)
    requires AllUnderParents(cfg, s)
    ensures InOrder(cfg, t, p, g)
  {
    UnopenedHasNoChildren(cfg, s, p, g);
    assert NoChildren(t, p, g);
    NoChildrenInOrder(cfg, t, p, g);
  }

  lemma OtherMoveInOrder(cfg: Config, s: State, t: State, p: Path, q: Path, g: Group)
    requires Moves(cfg, s, t, p)
    requires q in s.nodes && s.nodes[q].task == OfGroup && GroupAt(cfg.root, q) == Some(g) && !InBody(s.nodes[q].pc)
    requires q != p || WasOpened(s.nodes[p].pc)
    requires InOrder(cfg, s, q, g)
    ensures InOrder(cfg, t, q, g)
  {
    MoveIsOnward(cfg, s, t, p);
    SameChildrenInOrder(cfg, s, t, q, g);
  }

  lemma MoveKeepsInOrder(cfg: Config, s: State, t: State, p: Path, q: Path, g: Group)
    requires WellNamed(cfg.root) && Controlled(cfg, s)
    requires Moves(cfg, s, t, p)
    requires q in s.nodes && s.nodes[q].task == OfGroup && GroupAt(cfg.root, q) == Some(g)
    ensures InOrder(cfg, t, q, g)
  {
    assert Placed(cfg, q, s.nodes[q]);
    if q == p && !WasOpened(s.nodes[p].pc) {
      UnopenedMoveInOrder(cfg, s, t, p, g);
    } else {
      assert InOrder(cfg, s, q, g);
      OtherMoveInOrder(cfg, s, t, p, q, g);
    }
  }

  lemma MoveKeepsControlled(cfg: Config, s: State, t: State, p: Path)
    requires WellNamed(cfg.root) && Controlled(cfg, s)
    requires Moves(cfg, s, t, p)
    ensures Controlled(cfg, t)
  {
    forall x | x in t.nodes
      ensures UnderParent(cfg, t, x)
    {
      MoveKeepsUnderParent(cfg, s, t, p, x);
    }
    forall q | q in t.nodes && t.nodes[q].task == OfGroup && GroupAt(cfg.root, q).Some?
      ensures InOrder(cfg, t, q, GroupAt(cfg.root, q).value)
    {
      MoveKeepsInOrder(cfg, s, t, p, q, GroupAt(cfg.root, q).value);
    }
    forall x | x in t.nodes
      ensures Placed(cfg, x, t.nodes[x])
    {
      assert Placed(cfg, x, s.nodes[x]);
    }
  }

  // ---------------------------------------------------------------------------------------------
  // Launches keep it
  // ---------------------------------------------------------------------------------------------

  lemma NotItsChild(cfg: Config, q: Path, g: Group, p: Path)
    requires WellNamed(cfg.root) && GroupAt(cfg.root, q) == Some(g)
    requires p == RootPath(cfg) || (p != [] && Parent(p) != q)
    ensures forall i :: 0 <= i < |g.groups| ==> GroupChild(q, g, i) != p
    ensures forall i :: 0 <= i < |g.tests| ==> TestChild(q, g, i) != p
  {
    GroupAtFacts(cfg.root, q);
    forall i | 0 <= i < |g.groups|
      ensures GroupChild(q, g, i) != p
    {
      GroupChildAt(cfg.root, q, g, i);
    }
    forall i | 0 <= i < |g.tests|
      ensures TestChild(q, g, i) != p
    {
      TestChildAt(cfg.root, q, g, i);
    }
  }

  /** Where no child of the group is added and nothing goes back, the group stays in order while it is as it was. */
  lemma UnrelatedInOrder(cfg: Config, s: State, t: State, q: Path, g: Group)
    requires q in s.nodes && q in t.nodes && t.nodes[q] == s.nodes[q] && Onward(s, t)
    requires forall i :: 0 <= i < |g.groups| ==> (GroupChild(q, g, i) in t.nodes <==> GroupChild(q, g, i) in s.nodes)
    requires forall i :: 0 <= i < |g.tests| ==> (TestChild(q, g, i) in t.nodes <==> TestChild(q, g, i) in s.nodes)
    requires InOrder(cfg, s, q, g)
    ensures InOrder(cfg, t, q, g)
  {
    forall i | 0 <= i <= |g.groups|
      ensures GroupsDone(cfg, s, q, g, i) ==> GroupsDone(cfg, t, q, g, i)
    {
      ChildrenStayDone(cfg, s, t, q, g, i);
    }
    ChildrenStayDone(cfg, s, t, q, g, 0);
  }

  /** Adding a node changes nothing for a group that is not its parent. */
  lemma OtherGroupsInOrder(cfg: Config, s: State, t: State, p: Path, q: Path, g: Group)
    requires WellNamed(cfg.root) && GroupAt(cfg.root, q) == Some(g)
    requires p !in s.nodes && p in t.nodes && t.nodes == s.nodes[p := t.nodes[p]] && !t.nodes[p].pc.Done?
    requires q in s.nodes && q != p && (p == RootPath(cfg) || (p != [] && Parent(p) != q))
    requires InOrder(cfg, s, q, g)
    ensures InOrder(cfg, t, q, g)
  {
    NotItsChild(cfg, q, g, p);
    UnrelatedInOrder(cfg, s, t, q, g);
  }

  lemma UndoneGroup(cfg: Config, s: State, q: Path, g: Group, k: nat)
    requires k < |g.groups| && Enters(cfg.filter, GroupChild(q, g, k)) && !IsDone(s, GroupChild(q, g, k))
    ensures forall i :: k < i <= |g.groups| ==> !GroupsDone(cfg, s, q, g, i)
  {
  }

  lemma UndoneTest(cfg: Config, s: State, q: Path, g: Group, k: nat)
    requires q in s.nodes && k < |g.tests| && Selects(cfg.filter, TestChild(q, g, k)) && !IsDone(s, TestChild(q, g, k))
    ensures InConcurrentPhase(s, q, g, k) ==> !ConcurrentTestsDone(cfg, s, q, g)
    ensures !InConcurrentPhase(s, q, g, k) ==> forall i :: k < i <= |g.tests| ==> !OtherTestsDone(cfg, s, q, g, i)
  {
  }

  /** The launch of a subgroup keeps its parent in order: no test is launched yet. */
  lemma GroupLaunchInOrder(cfg: Config, s: State, t: State, q: Path, k: nat)
    requires WellNamed(cfg.root) && CanLaunchGroup(cfg, s, q, k)
    requires var p := GroupChild(q, GroupAt(cfg.root, q).value, k);
             p in t.nodes && t.nodes == s.nodes[p := t.nodes[p]] && !t.nodes[p].pc.Done?
    requires InOrder(cfg, s, q, GroupAt(cfg.root, q).value)
    ensures InOrder(cfg, t, q, GroupAt(cfg.root, q).value)
  {
    var g := GroupAt(cfg.root, q).value;
    var p := GroupChild(q, g, k);
    GroupAtFacts(cfg.root, q);
    GroupChildAt(cfg.root, q, g, k);
    UndoneGroup(cfg, s, q, g, k);
    assert Onward(s, t);
    forall i | 0 <= i < |g.groups| && GroupChild(q, g, i) in t.nodes
      ensures GroupsDone(cfg, t, q, g, i)
    {
      GroupChildAt(cfg.root, q, g, i);
      if GroupChild(q, g, i) == p {
        assert i == k;
      }
      ChildrenStayDone(cfg, s, t, q, g, i);
    }
    forall i | 0 <= i < |g.tests|
      ensures TestChild(q, g, i) !in t.nodes
    {
      TestChildAt(cfg.root, q, g, i);
      assert !GroupsDone(cfg, s, q, g, |g.groups|);
    }
  }

  /** The launch of a test keeps its parent in order. */
  lemma TestLaunchInOrder(cfg: Config, s: State, t: State, q: Path, k: nat)
    requires WellNamed(cfg.root) && CanLaunchTest(cfg, s, q, k)
    requires var p := TestChild(q, GroupAt(cfg.root, q).value, k);
             p in t.nodes && t.nodes == s.nodes[p := t.nodes[p]] && !t.nodes[p].pc.Done?
    requires InOrder(cfg, s, q, GroupAt(cfg.root, q).value)
    ensures InOrder(cfg, t, q, GroupAt(cfg.root, q).value)
  {
    var g := GroupAt(cfg.root, q).value;
    var p := TestChild(q, g, k);
    GroupAtFacts(cfg.root, q);
    TestChildAt(cfg.root, q, g, k);
    UndoneTest(cfg, s, q, g, k);
    assert Onward(s, t);
    forall i | 0 <= i <= |g.groups|
      ensures GroupsDone(cfg, s, q, g, i) ==> GroupsDone(cfg, t, q, g, i)
    {
      ChildrenStayDone(cfg, s, t, q, g, i);
    }
    ChildrenStayDone(cfg, s, t, q, g, 0);
    forall i | 0 <= i < |g.groups| && GroupChild(q, g, i) in t.nodes
      ensures GroupsDone(cfg, t, q, g, i)
    {
      GroupChildAt(cfg.root, q, g, i);
    }
    forall i | 0 <= i < |g.tests| && TestChild(q, g, i) in t.nodes && !InConcurrentPhase(t, q, g, i)
      ensures ConcurrentTestsDone(cfg, t, q, g) && OtherTestsDone(cfg, t, q, g, i)
    {
      TestChildAt(cfg.root, q, g, i);
      if TestChild(q, g, i) == p {
        assert i == k;
      }
    }
  }

  lemma LaunchIsPlaced(cfg: Config, s: State, t: State, step: Step)
    requires WellNamed(cfg.root) && Launches(cfg, s, t, step)
    ensures var p := Mover(cfg, step);
            Placed(cfg, p, t.nodes[p]) && UnderParent(cfg, t, p) && p != []
  {
    match step
    case LaunchGroup(q, i) =>
      GroupAtFacts(cfg.root, q);
      GroupChildAt(cfg.root, q, GroupAt(cfg.root, q).value, i);
    case LaunchTest(q, i) =>
      GroupAtFacts(cfg.root, q);
      TestChildAt(cfg.root, q, GroupAt(cfg.root, q).value, i);
    case _ =>
  }

  lemma LaunchKeepsInOrder(cfg: Config, s: State, t: State, step: Step, q: Path, g: Group)
    requires WellNamed(cfg.root) && Controlled(cfg, s) && Launches(cfg, s, t, step)
    requires q in t.nodes && t.nodes[q].task == OfGroup && GroupAt(cfg.root, q) == Some(g)
    ensures InOrder(cfg, t, q, g)
  {
    var p := Mover(cfg, step);
    LaunchIsPlaced(cfg, s, t, step);
    GroupAtFacts(cfg.root, q);
    if q == p {
      UnopenedHasNoChildren(cfg, s, q, g);
      NewGroupHasNoChildren(cfg, s, t, q, g);
      NoChildrenInOrder(cfg, t, q, g);
    } else {
      assert InOrder(cfg, s, q, g);
      if p == RootPath(cfg) || Parent(p) != q {
        OtherGroupsInOrder(cfg, s, t, p, q, g);
      } else if step.LaunchGroup? {
        GroupChildAt(cfg.root, step.parent, GroupAt(cfg.root, step.parent).value, step.i);
        GroupLaunchInOrder(cfg, s, t, q, step.i);
      } else if step.LaunchTest? {
        TestChildAt(cfg.root, step.parent, GroupAt(cfg.root, step.parent).value, step.i);
        TestLaunchInOrder(cfg, s, t, q, step.i);
      }
    }
  }

  lemma NewGroupHasNoChildren(cfg: Config, s: State, t: State, q: Path, g: Group)
    requires WellNamed(cfg.root) && GroupAt(cfg.root, q) == Some(g)
    requires NoChildren(s, q, g) && q in t.nodes && t.nodes == s.nodes[q := t.nodes[q]]
    ensures NoChildren(t, q, g)
  {
    GroupAtFacts(cfg.root, q);
    forall i | 0 <= i < |g.groups|
      ensures GroupChild(q, g, i) != q
    {
      GroupChildAt(cfg.root, q, g, i);
    }
    forall i | 0 <= i < |g.tests|
      ensures TestChild(q, g, i) != q
    {
      TestChildAt(cfg.root, q, g, i);
    }
  }

  lemma LaunchKeepsControlled(cfg: Config, s: State, t: State, step: Step)
    requires WellNamed(cfg.root) && Controlled(cfg, s) && Launches(cfg, s, t, step)
    ensures Controlled(cfg, t)
  {
    var p := Mover(cfg, step);
    LaunchIsPlaced(cfg, s, t, step);
    forall x | x in t.nodes
      ensures Placed(cfg, x, t.nodes[x]) && UnderParent(cfg, t, x)
    {
      if x != p {
        assert Placed(cfg, x, s.nodes[x]) && UnderParent(cfg, s, x);
      }
    }
    forall q | q in t.nodes && t.nodes[q].task == OfGroup && GroupAt(cfg.root, q).Some?
      ensures InOrder(cfg, t, q, GroupAt(cfg.root, q).value)
    {
      LaunchKeepsInOrder(cfg, s, t, step, q, GroupAt(cfg.root, q).value);
    }
  }

  /** Every step keeps the invariant. */
  lemma StepKeepsControlled(cfg: Config, s: State, step: Step)
    requires WellNamed(cfg.root) && Controlled(cfg, s) && Enabled(cfg, s, step)
    ensures Controlled(cfg, Apply(cfg, s, step))
  {
    if IsLaunch(step) {
      StepLaunches(cfg, s, step);
    } else {
      StepAdvances(cfg, s, step);
    }
    KeepsControlled(cfg, s, Apply(cfg, s, step), step);
  }

  lemma KeepsControlled(cfg: Config, s: State, t: State, step: Step)
    requires WellNamed(cfg.root) && Controlled(cfg, s)
    requires SameButPanicked(s, t) || Launches(cfg, s, t, step) || exists p :: Moves(cfg, s, t, p)
    ensures Controlled(cfg, t)
  {
    if SameButPanicked(s, t) {
      PanicKeepsControlled(cfg, s, t);
    } else if Launches(cfg, s, t, step) {
      LaunchKeepsControlled(cfg, s, t, step);
    } else {
      var p :| Moves(cfg, s, t, p);
      MoveKeepsControlled(cfg, s, t, p);
    }
  }

  lemma PanicKeepsControlled(cfg: Config, s: State, t: State)
    requires Controlled(cfg, s) && SameButPanicked(s, t)
    ensures Controlled(cfg, t)
  {
    forall q | q in t.nodes && t.nodes[q].task == OfGroup && GroupAt(cfg.root, q).Some?
      ensures InOrder(cfg, t, q, GroupAt(cfg.root, q).value)
    {
      var g := GroupAt(cfg.root, q).value;
      assert InOrder(cfg, s, q, g);
      SameChildrenInOrder(cfg, s, t, q, g);
    }
    forall x | x in t.nodes
      ensures UnderParent(cfg, t, x)
    {
      assert UnderParent(cfg, s, x);
    }
  }

  lemma NextIsControlled(cfg: Config, run: seq<State>, i: nat, j: nat)
    requires WellNamed(cfg.root) && IsRun(cfg, run) && i + 1 == j < |run|
    requires Controlled(cfg, run[i])
    ensures Controlled(cfg, run[j])
  {
    var step := StepAt(cfg, run, i, j);
    StepKeepsControlled(cfg, run[i], step);
  }

  /** In every reachable state the nodes are where they belong and the loops are in order. */
  lemma {:induction false} RunIsControlled(cfg: Config, run: seq<State>, i: nat)
    requires WellNamed(cfg.root) && IsRun(cfg, run) && i < |run|
    ensures Controlled(cfg, run[i])
  {
    if i > 0 {
      var k: nat :| k + 1 == i;
      RunIsControlled(cfg, run, k);
      NextIsControlled(cfg, run, k, i);
    }
  }
}
