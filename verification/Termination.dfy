/**
 Every run ends: each step brings the state closer to the end.
 */
module Termination {
  import opened Common
  import Paths
  import opened Tree
  import opened EventLog
  import opened Engine
  import opened Control

  /** How many steps a node still has to take. */
  function StepsLeft(pc: Pc): nat {
    match pc
    case Starting => 9
    case SetUpDone(_) => 8
    case Open(_) => 7
    case Running(_) => 6
    case Ran(_, _) => 5
    case Judged(_, _) => 4
    case Closing(_) => 3
    case TearingDown(_) => 2
    case TornDown(_, _) => 1
    case Done(_, _) => 0
  }

  ghost function AllStepsLeft(s: State): map<Paths.Path, nat> {
    map p | p in s.nodes :: StepsLeft(s.nodes[p].pc)
  }

  /** Ten for each place not launched, what is left of each node, and one for a panic that may come. */
  ghost function Distance(cfg: Config, s: State): int {
    10 * (|Places(cfg.root)| - |s.nodes|) + Sum(AllStepsLeft(s)) + if s.panicked then 0 else 1
  }

  lemma NodesAreFew(cfg: Config, s: State)
    requires WellNamed(cfg.root) && Controlled(cfg, s)
    ensures |s.nodes| <= |Places(cfg.root)|
  {
    forall p | p in s.nodes.Keys
      ensures p in Places(cfg.root)
    {
      assert Placed(cfg, p, s.nodes[p]);
      PlaceIsListedIn(cfg.root, p);
    }
    SubsetIsSmaller(s.nodes.Keys, Places(cfg.root));
  }

  /** Setting one node replaces its part of the sum. */
  lemma SumWithNode(s: State, t: State, p: Paths.Path)
    requires p in t.nodes && t.nodes == s.nodes[p := t.nodes[p]]
    ensures Sum(AllStepsLeft(t)) ==
            Sum(AllStepsLeft(s)) + StepsLeft(t.nodes[p].pc) - if p in s.nodes then StepsLeft(s.nodes[p].pc) else 0
    ensures |t.nodes| == |s.nodes| + if p in s.nodes then 0 else 1
  {
    var a, v := AllStepsLeft(s), StepsLeft(t.nodes[p].pc);
    SetNodeSetsPart(s, t, p);
    SumUpdate(a, p, v);
    assert t.nodes.Keys == s.nodes.Keys + {p};
  }

  lemma SetNodeSetsPart(s: State, t: State, p: Paths.Path)
    requires p in t.nodes && t.nodes == s.nodes[p := t.nodes[p]]
    ensures AllStepsLeft(t) == AllStepsLeft(s)[p := StepsLeft(t.nodes[p].pc)]
  {
  }

  lemma AdvanceLeavesLess(task: Task, a: Pc, b: Pc)
    requires Advances(task, a, b)
    ensures StepsLeft(b) < StepsLeft(a)
  {
  }

  /** Every step, whatever it does, brings the end closer. */
  lemma StepComesCloser(cfg: Config, s: State, step: Step)
    requires Enabled(cfg, s, step)
    ensures Distance(cfg, Apply(cfg, s, step)) < Distance(cfg, s)
  {
    if IsLaunch(step) {
      StepLaunches(cfg, s, step);
    } else {
      StepAdvances(cfg, s, step);
    }
    ComesCloser(cfg, s, Apply(cfg, s, step), step);
  }

  lemma ComesCloser(cfg: Config, s: State, t: State, step: Step)
    requires !s.panicked
    requires SameButPanicked(s, t) || Launches(cfg, s, t, step) || exists p :: Moves(cfg, s, t, p)
    ensures Distance(cfg, t) < Distance(cfg, s)
  {
    if SameButPanicked(s, t) {
      assert AllStepsLeft(t) == AllStepsLeft(s);
    } else if Launches(cfg, s, t, step) {
      SumWithNode(s, t, Mover(cfg, step));
    } else {
      var p :| Moves(cfg, s, t, p);
      SumWithNode(s, t, p);
      AdvanceLeavesLess(s.nodes[p].task, s.nodes[p].pc, t.nodes[p].pc);
    }
  }

  lemma NextComesCloser(cfg: Config, run: seq<State>, i: nat, j: nat)
    requires IsRun(cfg, run) && i + 1 == j < |run|
    ensures Distance(cfg, run[j]) < Distance(cfg, run[i])
  {
    var step := StepAt(cfg, run, i, j);
    StepComesCloser(cfg, run[i], step);
  }

  lemma {:induction false} DistanceFalls(cfg: Config, run: seq<State>, i: nat)
    requires IsRun(cfg, run) && i < |run|
    ensures Distance(cfg, run[i]) + i <= 10 * |Places(cfg.root)| + 1
  {
    if i == 0 {
      assert AllStepsLeft(run[0]) == map[];
    } else {
      var k: nat :| k + 1 == i;
      DistanceFalls(cfg, run, k);
      NextComesCloser(cfg, run, k, i);
    }
  }

  lemma DistanceIsNat(cfg: Config, s: State)
    requires WellNamed(cfg.root) && Controlled(cfg, s)
    ensures Distance(cfg, s) >= 0
  {
    NodesAreFew(cfg, s);
  }

  /** Every run ends, under every interleaving: ten steps for each group and test suffice, and one more where an
      assertion of `record` fails. */
  lemma EveryRunEnds(cfg: Config, run: seq<State>)
    requires WellNamed(cfg.root) && IsRun(cfg, run)
    ensures |run| <= 10 * |Places(cfg.root)| + 2
  {
    var i: nat :| i + 1 == |run|;
    DistanceFalls(cfg, run, i);
    RunIsControlled(cfg, run, i);
    DistanceIsNat(cfg, run[i]);
  }
}
