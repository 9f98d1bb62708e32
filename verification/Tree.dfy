/**
 The tree of groups and tests, the names it lists and the places it addresses.
 */
module Tree {
  import opened Common
  import opened Paths

  /** A test: its name and the fixture type it uses. */
  datatype Test = Test(name: string, fixture: TypeId)

  /** A group: its name, its fixture type, its tests and its subgroups. */
  datatype Group = Group(name: string, fixture: TypeId, tests: seq<Test>, groups: seq<Group>)

  /** Valid names everywhere, and no two siblings, tests or groups, of one name. */
  ghost predicate WellNamed(g: Group) {
    && ValidName(g.name)
    && (forall i :: 0 <= i < |g.tests| ==> ValidName(g.tests[i].name))
    && (forall i, j :: 0 <= i < j < |g.tests| ==> g.tests[i].name != g.tests[j].name)
    && (forall i, j :: 0 <= i < j < |g.groups| ==> g.groups[i].name != g.groups[j].name)
    && (forall i, j :: 0 <= i < |g.groups| && 0 <= j < |g.tests| ==> g.groups[i].name != g.tests[j].name)
    && (forall i :: 0 <= i < |g.groups| ==> WellNamed(g.groups[i]))
  }

  // ---------------------------------------------------------------------------------------------
  // Listing
  // ---------------------------------------------------------------------------------------------

  function TestNames(g: Group): seq<string>
    decreases g, 1
  {
    GroupsTestNames(g.groups) + OwnTestNames(g)
  }

  function GroupsTestNames(gs: seq<Group>): seq<string>
    decreases gs, 0
  {
    if gs == [] then []
    else
      var names := TestNames(gs[0]);
      seq(|names|, i requires 0 <= i < |names| => gs[0].name + SEP + names[i]) + GroupsTestNames(gs[1..])
  }

  /** The paths, relative to the group, of the tests in its subtree, in the order of `TestNames`. */
  function TestPaths(g: Group): seq<Path>
    decreases g, 1
  {
    GroupsTestPaths(g.groups) + OwnTestPaths(g)
  }

  /** The tests of `g` itself, as paths. */
  function OwnTestPaths(g: Group): seq<Path> {
    seq(|g.tests|, i requires 0 <= i < |g.tests| => [g.tests[i].name])
  }

  function GroupsTestPaths(gs: seq<Group>): seq<Path>
    decreases gs, 0
  {
    if gs == [] then []
    else
      var paths := TestPaths(gs[0]);
      seq(|paths|, i requires 0 <= i < |paths| => [gs[0].name] + paths[i]) + GroupsTestPaths(gs[1..])
  }

  // ---------------------------------------------------------------------------------------------
  // Addressing
  // ---------------------------------------------------------------------------------------------

  /** The place of a name in a list of names. */
  function Index(names: seq<string>, name: string): (r: Option<nat>)
    ensures r.Some? ==> r.value < |names| && names[r.value] == name
    ensures r.None? ==> forall i :: 0 <= i < |names| ==> names[i] != name
  {
    if names == [] then None
    else if names[|names| - 1] == name then Some(|names| - 1)
    else Index(names[..|names| - 1], name)
  }

  /** In a list without repetitions a name is found where it stands. */
  lemma IndexIsFound(names: seq<string>, i: nat)
    requires i < |names| && forall j, k :: 0 <= j < k < |names| ==> names[j] != names[k]
    ensures Index(names, names[i]) == Some(i)
  {
    var r := Index(names, names[i]);
    assert r.Some? && names[r.value] == names[i];
  }

  function SubgroupNames(g: Group): seq<string> {
    seq(|g.groups|, i requires 0 <= i < |g.groups| => g.groups[i].name)
  }

  function OwnTestNames(g: Group): seq<string> {
    seq(|g.tests|, i requires 0 <= i < |g.tests| => g.tests[i].name)
  }

  /** The group that a path, starting with the name of `root`, leads to. */
  function GroupAt(root: Group, p: Path): Option<Group>
    decreases |p|
  {
    if p == [] then None
    else if |p| == 1 then if p[0] == root.name then Some(root) else None
    else
      match GroupAt(root, Parent(p))
      case None => None
      case Some(g) =>
        match Index(SubgroupNames(g), Last(p))
        case None => None
        case Some(i) => Some(g.groups[i])
  }

  /** The test that a path leads to. */
  function TestAt(root: Group, p: Path): Option<Test> {
    if |p| < 2 then None
    else
      match GroupAt(root, Parent(p))
      case None => None
      case Some(g) =>
        match Index(OwnTestNames(g), Last(p))
        case None => None
        case Some(i) => Some(g.tests[i])
  }

  function GroupChild(q: Path, g: Group, i: nat): Path
    requires i < |g.groups|
  {
    q + [g.groups[i].name]
  }

  function TestChild(q: Path, g: Group, i: nat): Path
    requires i < |g.tests|
  {
    q + [g.tests[i].name]
  }

  /** Whether every group below the root has a test in its subtree. */
  ghost predicate SubgroupsHaveTests(root: Group) {
    forall p :: |p| >= 2 && GroupAt(root, p).Some? ==> TestPaths(GroupAt(root, p).value) != []
  }

  /** The paths of all groups and tests of the tree. */
  function Places(g: Group): set<Path>
    decreases g, 1
  {
    {[g.name]} + (set i | 0 <= i < |g.tests| :: [g.name, g.tests[i].name]) + PlacesBelow(g.name, g.groups)
  }

  function PlacesBelow(name: string, gs: seq<Group>): set<Path>
    decreases gs, 0
  {
    if gs == [] then {} else (set p | p in Places(gs[0]) :: [name] + p) + PlacesBelow(name, gs[1..])
  }

  // ---------------------------------------------------------------------------------------------
  // The listing, as strings and as paths
  // ---------------------------------------------------------------------------------------------

  /** A listed name is its path joined; splitting it gives the path back. */
  lemma {:induction false} NamesAreJoinedPaths(g: Group)
    requires WellNamed(g)
    ensures |TestNames(g)| == |TestPaths(g)|
    ensures forall i :: 0 <= i < |TestNames(g)| ==>
              && TestPaths(g)[i] != [] && ValidPath(TestPaths(g)[i])
              && TestNames(g)[i] == Join(TestPaths(g)[i])
    decreases g, 1
  {
    GroupsNamesAreJoinedPaths(g.groups);
  }

  lemma {:induction false} GroupsNamesAreJoinedPaths(gs: seq<Group>)
    requires forall i :: 0 <= i < |gs| ==> WellNamed(gs[i])
    ensures |GroupsTestNames(gs)| == |GroupsTestPaths(gs)|
    ensures forall i :: 0 <= i < |GroupsTestNames(gs)| ==>
              && GroupsTestPaths(gs)[i] != [] && ValidPath(GroupsTestPaths(gs)[i])
              && GroupsTestNames(gs)[i] == Join(GroupsTestPaths(gs)[i])
    decreases gs, 0
  {
    if gs != [] {
      NamesAreJoinedPaths(gs[0]);
      GroupsNamesAreJoinedPaths(gs[1..]);
      var names, paths := TestNames(gs[0]), TestPaths(gs[0]);
      forall i | 0 <= i < |names|
        ensures gs[0].name + SEP + names[i] == Join([gs[0].name] + paths[i])
      {
        JoinConcat([gs[0].name], paths[i]);
      }
    }
  }

  lemma {:induction false} GroupsTestPathsMembers(gs: seq<Group>, x: Path)
    ensures x in GroupsTestPaths(gs) <==>
            exists i, r :: 0 <= i < |gs| && r in TestPaths(gs[i]) && x == [gs[i].name] + r
    decreases |gs|
  {
    if gs != [] {
      GroupsTestPathsMembers(gs[1..], x);
      var paths := TestPaths(gs[0]);
      var here := seq(|paths|, i requires 0 <= i < |paths| => [gs[0].name] + paths[i]);
      assert GroupsTestPaths(gs) == here + GroupsTestPaths(gs[1..]);
      if x in here {
        var k :| 0 <= k < |here| && here[k] == x;
        assert paths[k] in TestPaths(gs[0]) && x == [gs[0].name] + paths[k];
      }
      if x in GroupsTestPaths(gs[1..]) {
        var i, r :| 0 <= i < |gs[1..]| && r in TestPaths(gs[1..][i]) && x == [gs[1..][i].name] + r;
        assert gs[i + 1] == gs[1..][i];
      }
      forall i, r | 0 <= i < |gs| && r in TestPaths(gs[i]) && x == [gs[i].name] + r
        ensures x in GroupsTestPaths(gs)
      {
        if i == 0 {
          var k :| 0 <= k < |paths| && paths[k] == r;
          assert here[k] == x;
        } else {
          assert gs[i] == gs[1..][i - 1];
        }
      }
    }
  }

  // ---------------------------------------------------------------------------------------------
  // Places
  // ---------------------------------------------------------------------------------------------

  lemma {:induction false} GroupAtFacts(root: Group, p: Path)
    requires WellNamed(root) && GroupAt(root, p).Some?
    ensures p != [] && p[0] == root.name && ValidPath(p)
    ensures WellNamed(GroupAt(root, p).value)
    ensures GroupAt(root, p).value.name == Last(p)
    ensures forall k :: 1 <= k <= |p| ==> GroupAt(root, p[..k]).Some?
    decreases |p|
  {
    if |p| > 1 {
      GroupAtFacts(root, Parent(p));
      forall k | 1 <= k <= |p|
        ensures GroupAt(root, p[..k]).Some?
      {
        if k < |p| {
          assert p[..k] == Parent(p)[..k];
        } else {
          assert p[..k] == p;
        }
      }
    } else {
      assert p[..1] == p;
    }
  }

  /** A subgroup is found under its own name, and no test is. */
  lemma GroupChildAt(root: Group, q: Path, g: Group, i: nat)
    requires WellNamed(g) && GroupAt(root, q) == Some(g) && i < |g.groups|
    ensures var c := GroupChild(q, g, i);
            && |c| >= 2 && Parent(c) == q && Last(c) == g.groups[i].name
            && GroupAt(root, c) == Some(g.groups[i]) && TestAt(root, c).None?
  {
    var c := GroupChild(q, g, i);
    assert Parent(c) == q && Last(c) == g.groups[i].name;
    IndexIsFound(SubgroupNames(g), i);
    assert Index(OwnTestNames(g), Last(c)).None?;
  }

  /** A test is found under its own name, and no subgroup is. */
  lemma TestChildAt(root: Group, q: Path, g: Group, i: nat)
    requires WellNamed(g) && GroupAt(root, q) == Some(g) && i < |g.tests|
    ensures var c := TestChild(q, g, i);
            && |c| >= 2 && Parent(c) == q && Last(c) == g.tests[i].name
            && TestAt(root, c) == Some(g.tests[i]) && GroupAt(root, c).None?
  {
    var c := TestChild(q, g, i);
    assert Parent(c) == q && Last(c) == g.tests[i].name;
    IndexIsFound(OwnTestNames(g), i);
    assert Index(SubgroupNames(g), Last(c)).None?;
  }

  /** A group below the root is a subgroup of its parent. */
  lemma GroupHasParent(root: Group, p: Path) returns (g: Group, i: nat)
    requires GroupAt(root, p).Some? && |p| >= 2
    ensures GroupAt(root, Parent(p)) == Some(g)
    ensures i < |g.groups| && GroupAt(root, p) == Some(g.groups[i]) && p == GroupChild(Parent(p), g, i)
  {
    g := GroupAt(root, Parent(p)).value;
    i := Index(SubgroupNames(g), Last(p)).value;
    assert p == Parent(p) + [Last(p)];
  }

  /** A test is a test of its parent. */
  lemma TestHasParent(root: Group, p: Path) returns (g: Group, i: nat)
    requires TestAt(root, p).Some?
    ensures |p| >= 2 && GroupAt(root, Parent(p)) == Some(g)
    ensures i < |g.tests| && TestAt(root, p) == Some(g.tests[i]) && p == TestChild(Parent(p), g, i)
  {
    g := GroupAt(root, Parent(p)).value;
    i := Index(OwnTestNames(g), Last(p)).value;
    assert p == Parent(p) + [Last(p)];
  }

  /** Addressing goes through the groups on the way. */
  lemma {:induction false} GroupAtCompose(root: Group, q: Path, g: Group, r: Path)
    requires GroupAt(root, q) == Some(g)
    ensures GroupAt(root, q + r) == GroupAt(g, [g.name] + r)
    decreases |r|
  {
    if r == [] {
      assert q + r == q;
      assert [g.name] + r == [g.name];
    } else {
      GroupAtCompose(root, q, g, Parent(r));
      assert Parent(q + r) == q + Parent(r);
      assert Parent([g.name] + r) == [g.name] + Parent(r);
    }
  }

  lemma TestAtCompose(root: Group, q: Path, g: Group, r: Path)
    requires GroupAt(root, q) == Some(g) && r != []
    ensures TestAt(root, q + r) == TestAt(g, [g.name] + r)
  {
    GroupAtCompose(root, q, g, Parent(r));
    assert Parent(q + r) == q + Parent(r);
    assert Parent([g.name] + r) == [g.name] + Parent(r);
  }

  lemma TestAtFacts(root: Group, p: Path)
    requires WellNamed(root) && TestAt(root, p).Some?
    ensures |p| >= 2 && p[0] == root.name && ValidPath(p)
    ensures GroupAt(root, Parent(p)).Some? && GroupAt(root, p).None?
    ensures TestAt(root, p).value.name == Last(p)
  {
    var g, i := TestHasParent(root, p);
    GroupAtFacts(root, Parent(p));
    TestChildAt(root, Parent(p), g, i);
    assert ValidName(g.tests[i].name);
  }

  lemma OwnTestPathsExact(g: Group, r: Path)
    requires WellNamed(g)
    ensures r in OwnTestPaths(g) <==> |r| == 1 && TestAt(g, [g.name] + r).Some?
  {
    if |r| == 1 {
      var at := [g.name];
      assert Parent(at + r) == at && Last(at + r) == r[0];
      if Index(OwnTestNames(g), r[0]).Some? {
        var k := Index(OwnTestNames(g), r[0]).value;
        assert OwnTestPaths(g)[k] == r;
      }
      if r in OwnTestPaths(g) {
        var k :| 0 <= k < |g.tests| && OwnTestPaths(g)[k] == r;
        assert OwnTestNames(g)[k] == r[0];
      }
    }
  }

  /** A place two or more levels down lies in a subgroup. */
  lemma TestInSubgroup(root: Group, r: Path) returns (i: nat)
    requires WellNamed(root) && |r| >= 2 && TestAt(root, [root.name] + r).Some?
    ensures i < |root.groups| && root.groups[i].name == r[0]
  {
    var p := [root.name] + r;
    var c := [root.name, r[0]];
    GroupAtFacts(root, Parent(p));
    assert Parent(p)[..2] == c;
    i := ChildOfRoot(root, c);
  }

  lemma ChildOfRoot(root: Group, c: Path) returns (i: nat)
    requires |c| == 2 && c[0] == root.name && GroupAt(root, c).Some?
    ensures i < |root.groups| && root.groups[i].name == c[1]
  {
    assert Parent(c) == [root.name];
    i := Index(SubgroupNames(root), c[1]).value;
  }

  /** A test of a subgroup is the same seen from the root. */
  lemma TestInSubgroupListed(root: Group, i: nat, s: Path, r: Path)
    requires WellNamed(root) && i < |root.groups| && s != []
    requires r == [root.groups[i].name] + s
    ensures TestAt(root, [root.name] + r) == TestAt(root.groups[i], [root.groups[i].name] + s)
  {
    var p, c := [root.name] + r, GroupChild([root.name], root, i);
    assert p == c + s;
    SubgroupOfRoot(root, i);
    TestAtCompose(root, c, root.groups[i], s);
  }

  lemma SubgroupOfRoot(root: Group, i: nat)
    requires WellNamed(root) && i < |root.groups|
    ensures GroupAt(root, GroupChild([root.name], root, i)) == Some(root.groups[i])
  {
    GroupChildAt(root, [root.name], root, i);
  }

  /** The listed paths are exactly the places of the tests. */
  lemma {:induction false} TestPathsExact(root: Group, r: Path)
    requires WellNamed(root)
    ensures r in TestPaths(root) <==> r != [] && TestAt(root, [root.name] + r).Some?
    decreases root
  {
    GroupsTestPathsMembers(root.groups, r);
    OwnTestPathsExact(root, r);
    forall i, s | 0 <= i < |root.groups| && s in TestPaths(root.groups[i]) && r == [root.groups[i].name] + s
      ensures |r| >= 2 && TestAt(root, [root.name] + r).Some?
    {
      TestPathsExact(root.groups[i], s);
      TestInSubgroupListed(root, i, s, r);
    }
    if |r| >= 2 && TestAt(root, [root.name] + r).Some? {
      var i := TestInSubgroup(root, r);
      assert r == [root.groups[i].name] + r[1..];
      TestInSubgroupListed(root, i, r[1..], r);
      TestPathsExact(root.groups[i], r[1..]);
    }
  }

  /** The order of the tree: subgroups before tests, and both in the order in which the group has them. */
  ghost predicate ComesBefore(g: Group, r: Path, s: Path)
    decreases |r|, 1
  {
    || (|r| >= 2 && |s| == 1)
    || (|r| == 1 && |s| == 1 &&
        exists i, j :: 0 <= i < j < |g.tests| && r[0] == g.tests[i].name && s[0] == g.tests[j].name)
    || ComesBeforeIn(g.groups, r, s)
  }

  ghost predicate ComesBeforeIn(gs: seq<Group>, r: Path, s: Path)
    decreases |r|, 0
  {
    |r| >= 2 && |s| >= 2 &&
    exists i, j :: && 0 <= i <= j < |gs| && r[0] == gs[i].name && s[0] == gs[j].name
                   && (i == j ==> ComesBefore(gs[i], r[1..], s[1..]))
  }

  /** A listing is in the order of the tree. */
  lemma {:induction false} ListedInOrder(g: Group)
    requires WellNamed(g)
    ensures forall i, j :: 0 <= i < j < |TestPaths(g)| ==> ComesBefore(g, TestPaths(g)[i], TestPaths(g)[j])
    decreases g, 1
  {
    GroupsListedInOrder(g.groups);
    var below, own := GroupsTestPaths(g.groups), OwnTestPaths(g);
    forall i | 0 <= i < |below|
      ensures |below[i]| >= 2
    {
      var k := ListedBelow(g.groups, below[i]);
    }
    forall i, j | 0 <= i < j < |TestPaths(g)|
      ensures ComesBefore(g, TestPaths(g)[i], TestPaths(g)[j])
    {
      if i >= |below| {
        var a, b := i - |below|, j - |below|;
        assert own[a][0] == g.tests[a].name && own[b][0] == g.tests[b].name;
      } else if j < |below| {
        assert ComesBeforeIn(g.groups, below[i], below[j]);
      }
    }
  }

  lemma ListedBelow(gs: seq<Group>, x: Path) returns (k: nat)
    requires (forall i :: 0 <= i < |gs| ==> WellNamed(gs[i])) && x in GroupsTestPaths(gs)
    ensures |x| >= 2 && k < |gs| && x[0] == gs[k].name
  {
    GroupsTestPathsMembers(gs, x);
    var i, r :| 0 <= i < |gs| && r in TestPaths(gs[i]) && x == [gs[i].name] + r;
    TestPathsExact(gs[i], r);
    k := i;
  }

  lemma {:induction false} GroupsListedInOrder(gs: seq<Group>)
    requires forall i :: 0 <= i < |gs| ==> WellNamed(gs[i])
    ensures forall i, j :: 0 <= i < j < |GroupsTestPaths(gs)| ==>
              ComesBeforeIn(gs, GroupsTestPaths(gs)[i], GroupsTestPaths(gs)[j])
    decreases gs, 0
  {
    if gs != [] {
      ListedInOrder(gs[0]);
      GroupsListedInOrder(gs[1..]);
      NamesAreJoinedPaths(gs[0]);
      var paths, rest := TestPaths(gs[0]), GroupsTestPaths(gs[1..]);
      forall i, j | 0 <= i < j < |GroupsTestPaths(gs)|
        ensures ComesBeforeIn(gs, GroupsTestPaths(gs)[i], GroupsTestPaths(gs)[j])
      {
        if j < |paths| {
          FirstIsInOrder(gs, paths[i], paths[j]);
        } else if i < |paths| {
          FirstBeforeRest(gs, paths[i], rest[j - |paths|]);
        } else {
          RestIsInOrder(gs, rest[i - |paths|], rest[j - |paths|]);
        }
      }
    }
  }

  lemma FirstIsInOrder(gs: seq<Group>, r: Path, s: Path)
    requires gs != [] && r != [] && s != [] && ComesBefore(gs[0], r, s)
    ensures ComesBeforeIn(gs, [gs[0].name] + r, [gs[0].name] + s)
  {
    assert ([gs[0].name] + r)[1..] == r && ([gs[0].name] + s)[1..] == s;
    assert ([gs[0].name] + r)[0] == gs[0].name && ([gs[0].name] + s)[0] == gs[0].name;
  }

  lemma FirstBeforeRest(gs: seq<Group>, r: Path, s: Path)
    requires gs != [] && (forall i :: 0 <= i < |gs| ==> WellNamed(gs[i])) && r != [] && s in GroupsTestPaths(gs[1..])
    ensures ComesBeforeIn(gs, [gs[0].name] + r, s)
  {
    var k := ListedBelow(gs[1..], s);
    assert ([gs[0].name] + r)[0] == gs[0].name && s[0] == gs[k + 1].name;
  }

  lemma RestIsInOrder(gs: seq<Group>, r: Path, s: Path)
    requires gs != [] && ComesBeforeIn(gs[1..], r, s)
    ensures ComesBeforeIn(gs, r, s)
  {
    var rest := gs[1..];
    var k, l :| && 0 <= k <= l < |rest| && r[0] == rest[k].name && s[0] == rest[l].name
                && (k == l ==> ComesBefore(rest[k], r[1..], s[1..]));
    assert gs[k + 1] == rest[k] && gs[l + 1] == rest[l];
  }

  /** Nothing comes before itself, so a listing has no test twice. */
  lemma {:induction false} ListedOnce(g: Group)
    requires WellNamed(g)
    ensures NoRepeats(TestPaths(g))
  {
    ListedInOrder(g);
    forall i | 0 <= i < |TestPaths(g)|
      ensures !ComesBefore(g, TestPaths(g)[i], TestPaths(g)[i])
    {
      NotBeforeItself(g, TestPaths(g)[i]);
    }
  }

  lemma {:induction false} NotBeforeItself(g: Group, r: Path)
    requires WellNamed(g)
    ensures !ComesBefore(g, r, r)
    decreases |r|
  {
    if ComesBeforeIn(g.groups, r, r) {
      var i, j :| && 0 <= i <= j < |g.groups| && r[0] == g.groups[i].name && r[0] == g.groups[j].name
                  && (i == j ==> ComesBefore(g.groups[i], r[1..], r[1..]));
      NotBeforeItself(g.groups[i], r[1..]);
    }
  }

  /** A test below a group, listed by the group, has its place below it in the whole tree. */
  lemma TestBelow(root: Group, q: Path, g: Group, r: Path)
    requires WellNamed(root) && GroupAt(root, q) == Some(g)
    ensures r in TestPaths(g) <==> r != [] && TestAt(root, q + r).Some?
  {
    GroupAtFacts(root, q);
    TestPathsExact(g, r);
    if r != [] {
      TestAtCompose(root, q, g, r);
    }
  }

  // ---------------------------------------------------------------------------------------------
  // All places
  // ---------------------------------------------------------------------------------------------

  lemma {:induction false} PlacesBelowHas(name: string, gs: seq<Group>, i: nat, p: Path)
    requires i < |gs| && p in Places(gs[i])
    ensures [name] + p in PlacesBelow(name, gs)
    decreases |gs|
  {
    if i > 0 {
      PlacesBelowHas(name, gs[1..], i - 1, p);
    }
  }

  /** A place two or more levels down lies in a subgroup, seen from which it is a place too. */
  lemma PlaceInSubgroup(root: Group, p: Path) returns (i: nat, r: Path)
    requires WellNamed(root) && |p| >= 2 && (GroupAt(root, p).Some? || (|p| >= 3 && TestAt(root, p).Some?))
    ensures i < |root.groups| && p == [root.name] + r
    ensures GroupAt(root, p).Some? ==> GroupAt(root.groups[i], r).Some?
    ensures GroupAt(root, p).None? ==> TestAt(root.groups[i], r).Some?
  {
    var c := p[..2];
    if GroupAt(root, p).Some? {
      GroupAtFacts(root, p);
    } else {
      GroupAtFacts(root, Parent(p));
      assert Parent(p)[..2] == c;
    }
    assert c[0] == root.name;
    i := ChildOfRoot(root, c);
    SubgroupOfRoot(root, i);
    assert GroupChild([root.name], root, i) == c;
    var g, rest := root.groups[i], p[2..];
    r := [g.name] + rest;
    assert p == c + rest && p == [root.name] + r;
    GroupAtCompose(root, c, g, rest);
    if rest != [] {
      TestAtCompose(root, c, g, rest);
    }
  }

  /** Every group and every test stands at one of finitely many places. */
  lemma {:induction false} PlaceIsListedIn(root: Group, p: Path)
    requires WellNamed(root) && (GroupAt(root, p).Some? || TestAt(root, p).Some?)
    ensures p in Places(root)
    decreases root
  {
    if |p| == 1 {
      assert p == [root.name];
    } else if |p| == 2 && TestAt(root, p).Some? {
      assert Parent(p) == [p[0]];
      var i := Index(OwnTestNames(root), p[1]).value;
      assert p == [root.name, root.tests[i].name];
    } else {
      var i, r := PlaceInSubgroup(root, p);
      PlaceIsListedIn(root.groups[i], r);
      PlacesBelowHas(root.name, root.groups, i, r);
    }
  }
}
