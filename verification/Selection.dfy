/**
 What a compiled filter selects in the tree, and how its two readings, by test and by group, agree.
 */
module Selection {
  import opened Common
  import opened Paths
  import opened Tree
  import opened Filters

  /** The group part of a listed name: the path of the group below the root. */
  function GroupText(p: Path): string
    requires |p| >= 2
  {
    Join(Parent(p)[1..])
  }

  function HitAt(filter: string, p: Path): Hit
    requires |p| >= 2
  {
    HitOf(filter, GroupText(p), Last(p))
  }

  /** The pick that a filter takes from the test at `p`, if it hits it. */
  function PickAt(root: Group, filter: string, p: Path): Pick
    requires |p| >= 2
  {
    PickIn(root.name, GroupText(p), if HitAt(filter, p) == Single then Some(Last(p)) else None)
  }

  /** A test that some filter could hit: one below the root group. */
  predicate BelowRoot(root: Group, p: Path) {
    |p| >= 3 && TestAt(root, p).Some?
  }

  predicate Picked(filters: seq<string>, root: Group, p: Path) {
    BelowRoot(root, p) && exists x :: x in filters && HitAt(x, p) != Miss
  }

  predicate PickedSingle(filters: seq<string>, root: Group, p: Path) {
    BelowRoot(root, p) && exists x :: x in filters && HitAt(x, p) == Single
  }

  /** `run` and `run_group` both ask this about a test. */
  predicate Selects(f: Filter, p: Path)
    requires p != []
  {
    ConsiderTest(f, Parent(p), Last(p))
  }

  /** `run_group` asks this about a subgroup. */
  predicate Enters(f: Filter, q: Path)
    requires q != []
  {
    ConsiderGroup(f, Parent(q), Last(q))
  }

  // ---------------------------------------------------------------------------------------------
  // From listed names to places
  // ---------------------------------------------------------------------------------------------

  lemma ListedByPath(root: Group, r: Path)
    requires WellNamed(root) && r in TestPaths(root)
    ensures Join(r) in TestNames(root)
  {
    NamesAreJoinedPaths(root);
    var i :| 0 <= i < |TestPaths(root)| && TestPaths(root)[i] == r;
    assert TestNames(root)[i] == Join(r);
  }

  /** The last separator of a listed name splits off the name of the test; a name without one stands in the root. */
  lemma LastSplit(p: Path)
    requires |p| >= 2 && ValidPath(p)
    ensures RSplitOnce(Join(p[1..])) == if |p| == 2 then None else Some((GroupText(p), Last(p)))
  {
    if |p| == 2 {
      assert p[1..] == [p[1]];
      RSplitName(p[1]);
    } else {
      assert p[1..] == Parent(p)[1..] + [Last(p)];
      RSplitJoin(Parent(p)[1..], Last(p));
    }
  }

  lemma PlaceInListing(root: Group, p: Path)
    requires WellNamed(root) && TestAt(root, p).Some?
    ensures |p| >= 2 && ValidPath(p) && p == [root.name] + p[1..]
    ensures Join(p[1..]) in TestNames(root)
  {
    TestAtFacts(root, p);
    var r := p[1..];
    assert p == [root.name] + r;
    TestPathsExact(root, r);
    ListedByPath(root, r);
  }

  /** A test is listed under its path without the root; splitting the name gives the path back. */
  lemma PlaceIsListed(root: Group, p: Path)
    requires WellNamed(root) && TestAt(root, p).Some?
    ensures |p| >= 2 && Join(p[1..]) in TestNames(root)
    ensures Split(Join(p[1..])) == p[1..]
    ensures root.name + SEP + Join(p[1..]) == Join(p)
    ensures RSplitOnce(Join(p[1..])) == if |p| == 2 then None else Some((GroupText(p), Last(p)))
  {
    PlaceInListing(root, p);
    LastSplit(p);
    SplitJoin(p[1..]);
    JoinConcat([root.name], p[1..]);
  }

  /** A listed name is that of a place. */
  lemma ListedIsPlace(root: Group, n: string) returns (p: Path)
    requires WellNamed(root) && n in TestNames(root)
    ensures TestAt(root, p).Some? && |p| >= 2 && n == Join(p[1..])
  {
    NamesAreJoinedPaths(root);
    var i :| 0 <= i < |TestNames(root)| && TestNames(root)[i] == n;
    var r := TestPaths(root)[i];
    TestPathsExact(root, r);
    p := [root.name] + r;
    assert p[1..] == r;
  }

  /** The key of a test's group is the path string of the group. */
  lemma KeyIsParent(root: Group, p: Path)
    requires WellNamed(root) && BelowRoot(root, p)
    ensures root.name + SEP + GroupText(p) == Join(Parent(p))
  {
    TestAtFacts(root, p);
    assert Parent(p) == [root.name] + Parent(p)[1..];
    JoinConcat([root.name], Parent(p)[1..]);
  }

  /** Tests with one key have one parent. */
  lemma KeyDeterminesParent(root: Group, p: Path, s: Path)
    requires WellNamed(root) && TestAt(root, p).Some? && TestAt(root, s).Some?
    requires Join(Parent(p)) == Join(Parent(s))
    ensures Parent(p) == Parent(s)
  {
    TestAtFacts(root, p);
    TestAtFacts(root, s);
    JoinInjective(Parent(p), Parent(s));
  }

  lemma {:induction false} PrefixPathsForm(parent: string, names: Path, g: string)
    ensures g in PrefixPaths(parent, names) <==> exists k :: 1 <= k <= |names| && g == Join([parent] + names[..k])
    decreases |names|
  {
    if names != [] {
      PrefixPathsForm(parent, Parent(names), g);
      forall k | 1 <= k < |names|
        ensures Parent(names)[..k] == names[..k]
      {
      }
      assert names[..|names|] == names;
      if g in PrefixPaths(parent, Parent(names)) {
        var k :| 1 <= k <= |Parent(names)| && g == Join([parent] + Parent(names)[..k]);
        assert g == Join([parent] + names[..k]);
      }
      if k :| 1 <= k < |names| && g == Join([parent] + names[..k]) {
        assert g == Join([parent] + Parent(names)[..k]);
      }
    }
  }

  lemma PrefixBelowRoot(root: Group, p: Path, k: nat)
    requires |p| >= 2 && p[0] == root.name && k < |p|
    requires k <= |Parent(p)[1..]|
    ensures [root.name] + Parent(p)[1..][..k] == p[..k + 1]
  {
  }

  /** The groups on the way to a test are its proper ancestors below the root. */
  lemma WayIsAncestors(root: Group, p: Path, g: string)
    requires WellNamed(root) && BelowRoot(root, p)
    ensures g in PrefixPaths(root.name, Split(GroupText(p))) <==> exists k :: 2 <= k < |p| && g == Join(p[..k])
  {
    TestAtFacts(root, p);
    var r := Parent(p)[1..];
    SplitJoin(r);
    PrefixPathsForm(root.name, r, g);
    forall k | 1 <= k <= |r|
      ensures [root.name] + r[..k] == p[..k + 1]
    {
      PrefixBelowRoot(root, p, k);
    }
    if g in PrefixPaths(root.name, r) {
      var j :| 1 <= j <= |r| && g == Join([root.name] + r[..j]);
      assert g == Join(p[..j + 1]);
    }
    if k :| 2 <= k < |p| && g == Join(p[..k]) {
      assert 1 <= k - 1 <= |r| && g == Join([root.name] + r[..k - 1]);
    }
  }

  /** The picks, read in the tree. */
  lemma PickedPlaces(filters: seq<string>, root: Group, pick: Pick)
    requires WellNamed(root)
    requires pick in AllPicks(root.name, filters, TestNames(root))
    ensures exists p, x :: && x in filters && BelowRoot(root, p) && HitAt(x, p) != Miss
                           && pick == PickAt(root, x, p)
  {
    var x, n := PickSource(root.name, filters, TestNames(root), pick);
    var p := ListedIsPlace(root, n);
    PlaceIsListed(root, p);
    assert |p| >= 3;
    assert pick == PickAt(root, x, p);
  }

  lemma PlacesPicked(filters: seq<string>, root: Group, x: string, p: Path)
    requires WellNamed(root) && x in filters && BelowRoot(root, p) && HitAt(x, p) != Miss
    ensures PickAt(root, x, p)
         in AllPicks(root.name, filters, TestNames(root))
  {
    var pick := PickAt(root, x, p);
    PlaceIsListed(root, p);
    assert pick in PicksOf(root.name, x, Join(p[1..]));
    PickFromSource(root.name, filters, TestNames(root), pick, x, Join(p[1..]));
  }

  // ---------------------------------------------------------------------------------------------
  // The map and the group set, read in the tree
  // ---------------------------------------------------------------------------------------------

  /** The keys are the path strings of the groups with a picked test. */
  lemma KeysForm(filters: seq<string>, root: Group, key: string)
    requires WellNamed(root)
    ensures key in Compile(filters, root).tests <==> exists p :: Picked(filters, root, p) && key == Join(Parent(p))
  {
    var picks := AllPicks(root.name, filters, TestNames(root));
    CollectForm(picks);
    if key in Compile(filters, root).tests {
      var pick :| pick in picks && key == pick.key;
      PickedPlaces(filters, root, pick);
      var p, x :| x in filters && BelowRoot(root, p) && HitAt(x, p) != Miss
        && pick == PickAt(root, x, p);
      KeyIsParent(root, p);
      assert Picked(filters, root, p);
    }
    if p :| Picked(filters, root, p) && key == Join(Parent(p)) {
      var x :| x in filters && HitAt(x, p) != Miss;
      PlacesPicked(filters, root, x, p);
      KeyIsParent(root, p);
    }
  }

  /** A single pick in the group of a place is that of a test picked singly in it. */
  lemma SinglePickIsPlace(filters: seq<string>, root: Group, q: Path, pick: Pick) returns (s: Path)
    requires WellNamed(root) && GroupAt(root, q).Some?
    requires pick in AllPicks(root.name, filters, TestNames(root)) && pick.key == Join(q) && pick.test.Some?
    ensures PickedSingle(filters, root, s) && s == q + [pick.test.value]
  {
    PickedPlaces(filters, root, pick);
    var x;
    s, x :| x in filters && BelowRoot(root, s) && HitAt(x, s) != Miss && pick == PickAt(root, x, s);
    KeyIsParent(root, s);
    TestAtFacts(root, s);
    GroupAtFacts(root, q);
    JoinInjective(q, Parent(s));
    ParentLast(s);
  }

  /** A name in the set of a group is that of a test picked singly in it. */
  lemma EntryIsPlace(filters: seq<string>, root: Group, q: Path, t: string)
    requires WellNamed(root) && GroupAt(root, q).Some?
    requires Join(q) in Compile(filters, root).tests && t in Compile(filters, root).tests[Join(q)]
    ensures PickedSingle(filters, root, q + [t])
  {
    var pick := EntryPick(AllPicks(root.name, filters, TestNames(root)), Join(q), t);
    var s := SinglePickIsPlace(filters, root, q, pick);
  }

  /** The set of a group holds the names of the tests picked singly in it. */
  lemma EntryForm(filters: seq<string>, root: Group, p: Path)
    requires WellNamed(root) && BelowRoot(root, p)
    requires Join(Parent(p)) in Compile(filters, root).tests
    ensures Last(p) in Compile(filters, root).tests[Join(Parent(p))] <==> PickedSingle(filters, root, p)
  {
    if Last(p) in Compile(filters, root).tests[Join(Parent(p))] {
      EntryIsPlace(filters, root, Parent(p), Last(p));
      assert p == Parent(p) + [Last(p)];
    }
    if PickedSingle(filters, root, p) {
      var x :| x in filters && HitAt(x, p) == Single;
      PlacesPicked(filters, root, x, p);
      KeyIsParent(root, p);
      PickEntry(AllPicks(root.name, filters, TestNames(root)), PickAt(root, x, p));
    }
  }

  /** The group set is exactly the ancestors, below the root, of the picked tests. */
  lemma GroupsForm(filters: seq<string>, root: Group, g: string)
    requires WellNamed(root)
    ensures g in Compile(filters, root).groups <==>
            exists p, k :: Picked(filters, root, p) && 2 <= k < |p| && g == Join(p[..k])
  {
    var picks := AllPicks(root.name, filters, TestNames(root));
    CollectForm(picks);
    if g in Compile(filters, root).groups {
      var pick :| pick in picks && g in pick.way;
      PickedPlaces(filters, root, pick);
      var p, x :| x in filters && BelowRoot(root, p) && HitAt(x, p) != Miss
        && pick == PickAt(root, x, p);
      WayIsAncestors(root, p, g);
      assert Picked(filters, root, p);
    }
    if p, k :| Picked(filters, root, p) && 2 <= k < |p| && g == Join(p[..k]) {
      var x :| x in filters && HitAt(x, p) != Miss;
      PlacesPicked(filters, root, x, p);
      WayIsAncestors(root, p, g);
    }
  }

  /** The map is empty exactly when no filter hits a test below the root, and then so is the group set. Empty maps
      select everything: a list of filters that hits nothing runs the whole tree. */
  lemma EmptyIffNothingPicked(filters: seq<string>, root: Group)
    requires WellNamed(root)
    ensures Compile(filters, root).tests == map[] <==> forall p :: !Picked(filters, root, p)
    ensures Compile(filters, root).groups == {} <==> Compile(filters, root).tests == map[]
    ensures Compile(filters, root).tests == map[] ==>
              forall p: Path :: p != [] ==> Selects(Compile(filters, root), p) && Enters(Compile(filters, root), p)
  {
    var f := Compile(filters, root);
    if p :| Picked(filters, root, p) {
      KeysForm(filters, root, Join(Parent(p)));
      GroupsForm(filters, root, Join(p[..2]));
      assert Join(p[..2]) in f.groups;
    }
    if key :| key in f.tests {
      KeysForm(filters, root, key);
    }
    if g :| g in f.groups {
      GroupsForm(filters, root, g);
    }
  }

  // ---------------------------------------------------------------------------------------------
  // What is selected
  // ---------------------------------------------------------------------------------------------

  /** Whether a test of this group is picked singly. */
  ghost predicate SinglesIn(filters: seq<string>, root: Group, q: Path) {
    exists s :: PickedSingle(filters, root, s) && Parent(s) == q
  }

  /** Whether a test of this group is picked at all. */
  ghost predicate PicksIn(filters: seq<string>, root: Group, q: Path) {
    exists s :: Picked(filters, root, s) && Parent(s) == q
  }

  /** The key of a group is in the map iff a test of the group is picked. */
  lemma KeyForm(filters: seq<string>, root: Group, p: Path)
    requires WellNamed(root) && TestAt(root, p).Some?
    ensures Join(Parent(p)) in Compile(filters, root).tests <==> PicksIn(filters, root, Parent(p))
  {
    TestAtFacts(root, p);
    KeysForm(filters, root, Join(Parent(p)));
    if s :| Picked(filters, root, s) && Join(Parent(p)) == Join(Parent(s)) {
      KeyDeterminesParent(root, p, s);
    }
  }

  /** The set of a group is empty iff none of its tests is picked singly. */
  lemma EntryIsEmptyIff(filters: seq<string>, root: Group, q: Path)
    requires WellNamed(root) && GroupAt(root, q).Some? && Join(q) in Compile(filters, root).tests
    ensures Compile(filters, root).tests[Join(q)] == {} <==> !SinglesIn(filters, root, q)
  {
    if t :| t in Compile(filters, root).tests[Join(q)] {
      EntryIsPlace(filters, root, q, t);
      assert Parent(q + [t]) == q;
    }
    if s :| PickedSingle(filters, root, s) && Parent(s) == q {
      EntryForm(filters, root, s);
    }
  }

  /** Once some filter hits, a test is selected iff it lies below the root and is picked singly, or its group has a
      pick and none of its tests is picked singly. */
  lemma SelectedForm(filters: seq<string>, root: Group, p: Path)
    requires WellNamed(root) && TestAt(root, p).Some?
    requires Compile(filters, root).tests != map[]
    ensures Selects(Compile(filters, root), p) <==>
            || PickedSingle(filters, root, p)
            || (PicksIn(filters, root, Parent(p)) && !SinglesIn(filters, root, Parent(p)))
  {
    TestAtFacts(root, p);
    KeyForm(filters, root, p);
    if PicksIn(filters, root, Parent(p)) {
      PicksAreDeep(filters, root, p);
      EntryForm(filters, root, p);
      EntryIsEmptyIff(filters, root, Parent(p));
    } else if PickedSingle(filters, root, p) {
      assert Picked(filters, root, p);
    }
  }

  /** A group with a pick is not the root, so its tests lie below the root. */
  lemma PicksAreDeep(filters: seq<string>, root: Group, p: Path)
    requires TestAt(root, p).Some? && PicksIn(filters, root, Parent(p))
    ensures BelowRoot(root, p)
  {
    var s :| Picked(filters, root, s) && Parent(s) == Parent(p);
    assert |Parent(s)| == |s| - 1 && |Parent(p)| == |p| - 1;
  }

  /** A filter that hits something never selects a test that stands directly in the root group. */
  lemma RootTestsNeverSelected(filters: seq<string>, root: Group, p: Path)
    requires WellNamed(root) && TestAt(root, p).Some? && |p| == 2
    requires Compile(filters, root).tests != map[]
    ensures !Selects(Compile(filters, root), p)
  {
    SelectedForm(filters, root, p);
  }

  /** A whole hit depends on the group only. */
  lemma WholeIsShared(x: string, p: Path, s: Path)
    requires |p| >= 2 && |s| >= 2 && Parent(p) == Parent(s) && HitAt(x, p) == Whole
    ensures HitAt(x, s) == Whole
  {
  }

  /** One filter that hits something selects precisely the tests below the root that its text matches. */
  lemma SingleFilterSelects(x: string, root: Group, p: Path)
    requires WellNamed(root) && TestAt(root, p).Some?
    requires Compile([x], root).tests != map[]
    ensures Selects(Compile([x], root), p) <==> |p| >= 3 && TextSelects(x, GroupText(p), Last(p))
  {
    SelectedForm([x], root, p);
    if BelowRoot(root, p) {
      assert x in [x];
      assert PickedSingle([x], root, p) <==> HitAt(x, p) == Single;
      HitMeans(x, GroupText(p), Last(p));
      if s :| Picked([x], root, s) && Parent(s) == Parent(p) {
        if HitAt(x, s) == Whole {
          WholeIsShared(x, s, p);
        } else {
          assert PickedSingle([x], root, s);
        }
      }
      if HitAt(x, p) == Whole {
        assert Picked([x], root, p);
        forall s | PickedSingle([x], root, s) && Parent(s) == Parent(p)
          ensures false
        {
          WholeIsShared(x, p, s);
        }
      }
    }
  }

  /** The union of what each filter selects by itself, leaving out filters that hit nothing. */
  predicate SelectedByOne(filters: seq<string>, root: Group, p: Path)
    requires p != []
  {
    exists x :: x in filters && Compile([x], root).tests != map[] && Selects(Compile([x], root), p)
  }

  lemma SelectedByOneIsPicked(filters: seq<string>, root: Group, p: Path)
    requires WellNamed(root) && TestAt(root, p).Some?
    ensures SelectedByOne(filters, root, p) <==> Picked(filters, root, p)
  {
    forall x | x in filters && BelowRoot(root, p)
      ensures HitAt(x, p) != Miss <==> Compile([x], root).tests != map[] && Selects(Compile([x], root), p)
    {
      EmptyIffNothingPicked([x], root);
      assert x in [x];
      assert HitAt(x, p) != Miss ==> Picked([x], root, p);
      HitMeans(x, GroupText(p), Last(p));
      if Compile([x], root).tests != map[] {
        SingleFilterSelects(x, root, p);
      }
    }
    if x :| x in filters && Compile([x], root).tests != map[] && Selects(Compile([x], root), p) {
      SingleFilterSelects(x, root, p);
    }
  }

  /** A test picked only with its whole group shares that pick with its neighbours. */
  lemma PickIsShared(filters: seq<string>, root: Group, s: Path, p: Path)
    requires TestAt(root, p).Some? && Picked(filters, root, s) && Parent(s) == Parent(p)
    requires !PickedSingle(filters, root, s)
    ensures Picked(filters, root, p)
  {
    var x :| x in filters && HitAt(x, s) != Miss;
    WholeIsShared(x, s, p);
    PrefixOfParent(p, |p| - 1);
    assert |Parent(s)| == |s| - 1;
  }

  /** A picked test that is picked with its group only, while another test of the group is picked singly. */
  ghost predicate Overruled(filters: seq<string>, root: Group, p: Path) {
    Picked(filters, root, p) && !PickedSingle(filters, root, p) && SinglesIn(filters, root, Parent(p))
  }

  /** The overruled tests are where the filters together differ from the union. */
  lemma DiffersIffOverruled(filters: seq<string>, root: Group, p: Path)
    requires WellNamed(root) && TestAt(root, p).Some?
    requires Compile(filters, root).tests != map[]
    ensures p != []
    ensures Selects(Compile(filters, root), p) != SelectedByOne(filters, root, p) <==> Overruled(filters, root, p)
  {
    SelectedForm(filters, root, p);
    SelectedByOneIsPicked(filters, root, p);
    if PickedSingle(filters, root, p) {
      assert Picked(filters, root, p);
    } else if !SinglesIn(filters, root, Parent(p)) {
      if s :| Picked(filters, root, s) && Parent(s) == Parent(p) {
        PickIsShared(filters, root, s, p);
      }
    }
  }

  /** Several filters select the union of what each selects exactly when no group has both a test picked singly and
      one picked only with the whole group. */
  lemma UnionIffNoMixedGroup(filters: seq<string>, root: Group)
    requires WellNamed(root)
    requires Compile(filters, root).tests != map[]
    ensures (forall p :: TestAt(root, p).Some? ==>
               (Selects(Compile(filters, root), p) <==> SelectedByOne(filters, root, p)))
       <==> (forall p :: !Overruled(filters, root, p))
  {
    forall p | TestAt(root, p).Some?
      ensures Selects(Compile(filters, root), p) != SelectedByOne(filters, root, p) <==> Overruled(filters, root, p)
    {
      DiffersIffOverruled(filters, root, p);
    }
  }

  // ---------------------------------------------------------------------------------------------
  // The two readings agree
  // ---------------------------------------------------------------------------------------------

  lemma SharedPrefix(s: Path, p: Path, k: nat)
    requires s != [] && p != [] && Parent(s) == Parent(p) && k < |p|
    ensures |s| == |p| && s[..k] == p[..k]
  {
    assert |Parent(s)| == |Parent(p)|;
    assert s[..k] == Parent(s)[..k];
    assert p[..k] == Parent(p)[..k];
  }

  /** A selected test has a picked test beside it, perhaps itself. */
  lemma SelectedHasPicked(filters: seq<string>, root: Group, p: Path) returns (s: Path)
    requires WellNamed(root) && TestAt(root, p).Some?
    requires Compile(filters, root).tests != map[] && Selects(Compile(filters, root), p)
    ensures Picked(filters, root, s) && Parent(s) == Parent(p)
  {
    SelectedForm(filters, root, p);
    if PickedSingle(filters, root, p) {
      s := p;
      assert Picked(filters, root, s);
    } else {
      s :| Picked(filters, root, s) && Parent(s) == Parent(p);
    }
  }

  lemma EntersListed(f: Filter, q: Path)
    requires q != []
    ensures Enters(f, q) <==> f.groups == {} || Join(q) in f.groups
  {
    ParentLast(q);
  }

  lemma PickedIsReached(filters: seq<string>, root: Group, s: Path, k: nat)
    requires WellNamed(root) && Picked(filters, root, s) && 2 <= k < |s|
    ensures Enters(Compile(filters, root), s[..k])
  {
    GroupsForm(filters, root, Join(s[..k]));
    EntersListed(Compile(filters, root), s[..k]);
  }

  /** A selected test can be reached: every group on the way is entered. */
  lemma SelectedIsReached(filters: seq<string>, root: Group, p: Path, k: nat)
    requires WellNamed(root) && TestAt(root, p).Some? && 2 <= k < |p|
    requires Selects(Compile(filters, root), p)
    ensures Enters(Compile(filters, root), p[..k])
  {
    if Compile(filters, root).tests == map[] {
      EmptyIffNothingPicked(filters, root);
    } else {
      var s := SelectedHasPicked(filters, root, p);
      SharedPrefix(s, p, k);
      PickedIsReached(filters, root, s, k);
    }
  }

  /** A group in the group set lies on the way to a picked test. */
  lemma EnteredHasPicked(filters: seq<string>, root: Group, q: Path) returns (s: Path)
    requires WellNamed(root) && GroupAt(root, q).Some? && |q| >= 2
    requires Compile(filters, root).tests != map[]
    requires Enters(Compile(filters, root), q)
    ensures Picked(filters, root, s) && s != [] && q <= Parent(s)
  {
    EmptyIffNothingPicked(filters, root);
    EntersListed(Compile(filters, root), q);
    GroupsForm(filters, root, Join(q));
    var k;
    s, k :| Picked(filters, root, s) && 2 <= k < |s| && Join(q) == Join(s[..k]);
    TestAtFacts(root, s);
    GroupAtFacts(root, q);
    JoinInjective(q, s[..k]);
    PrefixOfParent(s, k);
  }

  /** A group that is entered under a filter that hits something has a selected test below it. */
  lemma EnteredHasSelected(filters: seq<string>, root: Group, q: Path) returns (p: Path)
    requires WellNamed(root) && GroupAt(root, q).Some? && |q| >= 2
    requires Compile(filters, root).tests != map[]
    requires Enters(Compile(filters, root), q)
    ensures TestAt(root, p).Some? && q < p && Selects(Compile(filters, root), p)
  {
    var s := EnteredHasPicked(filters, root, q);
    p := PickedHasSelected(filters, root, s);
  }

  /** Beside a picked test, or at it, stands a selected one. */
  lemma PickedHasSelected(filters: seq<string>, root: Group, s: Path) returns (p: Path)
    requires WellNamed(root) && Picked(filters, root, s) && Compile(filters, root).tests != map[]
    ensures TestAt(root, p).Some? && |p| == |s| && Parent(p) == Parent(s) && Selects(Compile(filters, root), p)
  {
    if SinglesIn(filters, root, Parent(s)) {
      p :| PickedSingle(filters, root, p) && Parent(p) == Parent(s);
    } else {
      p := s;
    }
    assert |p| == |Parent(p)| + 1;
    SelectedForm(filters, root, p);
  }
}
