/**
 The filter: text patterns compiled into a map from group paths to test names and a set of group paths.
 */
module Filters {
  import opened Common
  import opened Paths
  import opened Tree

  datatype FilterMatcher = Any | Partial(text: string) | Exact(text: string)
  {
    predicate Matches(candidate: string) {
      match this
      case Any => true
      case Partial(text) => Contains(candidate, text)
      case Exact(text) => candidate == text
    }
  }

  function NewMatcher(filter: string): FilterMatcher {
    if filter == "" then Any
    else if |filter| >= 2 && filter[0] == '"' && filter[|filter| - 1] == '"' then Exact(filter[1..|filter| - 1])
    else Partial(filter)
  }

  /** `tests` maps the path of a group to the tests picked in it, none meaning all of them. */
  datatype Filter = Filter(tests: map<string, set<string>>, groups: set<string>)

  const EMPTY := Filter(map[], {})

  predicate ConsiderGroup(f: Filter, groupNames: Path, groupName: string) {
    f.groups == {} || Join(groupNames + [groupName]) in f.groups
  }

  predicate ConsiderTest(f: Filter, groupNames: Path, testName: string) {
    f.tests == map[] ||
    var key := Join(groupNames);
    key in f.tests && (f.tests[key] == {} || testName in f.tests[key])
  }

  // ---------------------------------------------------------------------------------------------
  // What the text of a filter means
  // ---------------------------------------------------------------------------------------------

  function Quoted(text: string): string {
    "\"" + text + "\""
  }

  /** A text in quotes stands for itself, an empty text for anything, any other text for what it occurs in. */
  ghost predicate Accepts(text: string, candidate: string) {
    || text == ""
    || text == Quoted(candidate)
    || ((forall x :: text != Quoted(x)) && Occurs(text, candidate))
  }

  lemma QuotedIsExact(x: string)
    ensures NewMatcher(Quoted(x)) == Exact(x)
  {
    assert Quoted(x)[1..|Quoted(x)| - 1] == x;
  }

  lemma MatcherAccepts(text: string, candidate: string)
    ensures NewMatcher(text).Matches(candidate) <==> Accepts(text, candidate)
  {
    ContainsIsOccurs(candidate, text);
    if x :| text == Quoted(x) {
      QuotedIsExact(x);
      assert Quoted(x)[1..|Quoted(x)| - 1] == x && Quoted(candidate)[1..|Quoted(candidate)| - 1] == candidate;
    } else if text != "" && text[0] == '"' && text[|text| - 1] == '"' && |text| >= 2 {
      assert text == Quoted(text[1..|text| - 1]);
    }
  }

  /** The three kinds of texts. */
  lemma MatcherLaws(text: string, candidate: string)
    ensures NewMatcher("\"" + text + "\"").Matches(candidate) <==> candidate == text
    ensures NewMatcher("").Matches(candidate)
    ensures text != "" && (forall x: string :: text != "\"" + x + "\"") ==>
              (NewMatcher(text).Matches(candidate) <==> exists u: string, v: string :: candidate == u + text + v)
  {
    QuotedIsExact(text);
    MatcherAccepts(text, candidate);
    if forall x: string :: text != "\"" + x + "\"" {
      assert forall x :: text != Quoted(x);
    }
  }

  /** A filter of two parts, split at its last separator. */
  ghost predicate HasParts(filter: string, groupPart: string, testPart: string) {
    filter == groupPart + SEP + testPart && !Occurs(SEP, ":" + testPart)
  }

  /** What the text of a filter says about a test: of two parts, both must accept; of one, it or its group. */
  ghost predicate TextSelects(filter: string, groupName: string, testName: string) {
    if Occurs(SEP, filter) then
      exists g, t :: HasParts(filter, g, t) && Accepts(g, groupName) && Accepts(t, testName)
    else
      Accepts(filter, groupName) || Accepts(filter, testName)
  }

  /** What it says of the whole group: a filter of two parts with an empty second one, or one part, that accepts it. */
  ghost predicate TextTakesGroup(filter: string, groupName: string) {
    if Occurs(SEP, filter) then exists g :: filter == g + SEP && Accepts(g, groupName)
    else Accepts(filter, groupName)
  }

  // ---------------------------------------------------------------------------------------------
  // Compiling
  // ---------------------------------------------------------------------------------------------

  /** What one filter makes of one listed test: nothing, its whole group, or that test. */
  datatype Hit = Miss | Whole | Single

  function HitOf(filter: string, groupName: string, testName: string): Hit {
    match RSplitOnce(filter)
    case Some((groupPart, testPart)) =>
      if !NewMatcher(groupPart).Matches(groupName) then Miss
      else if NewMatcher(testPart) == Any then Whole
      else if NewMatcher(testPart).Matches(testName) then Single
      else Miss
    case None =>
      if NewMatcher(filter).Matches(groupName) then Whole
      else if NewMatcher(filter).Matches(testName) then Single
      else Miss
  }

  /** A filter hits a test iff its text selects it, and then the whole group iff its text takes that. */
  lemma HitMeans(filter: string, groupName: string, testName: string)
    ensures HitOf(filter, groupName, testName) != Miss <==> TextSelects(filter, groupName, testName)
    ensures HitOf(filter, groupName, testName) == Whole <==> TextTakesGroup(filter, groupName)
  {
    RSplitLaw(filter, "", "");
    MatcherAccepts(filter, groupName);
    MatcherAccepts(filter, testName);
    if RSplitOnce(filter).Some? {
      var (g, t) := RSplitOnce(filter).value;
      PartsAreSplit(filter, g, t);
      MatcherAccepts(g, groupName);
      MatcherAccepts(t, testName);
      forall a, b | HasParts(filter, a, b)
        ensures a == g && b == t
      {
        RSplitLaw(filter, a, b);
      }
      assert t == "" <==> NewMatcher(t) == Any;
      OnePartIsEmpty(filter);
    }
  }

  lemma PartsAreSplit(filter: string, g: string, t: string)
    requires RSplitOnce(filter) == Some((g, t))
    ensures HasParts(filter, g, t)
  {
    RSplitLaw(filter, g, t);
  }

  lemma OnePartIsEmpty(filter: string)
    ensures forall g :: filter == g + SEP <==> HasParts(filter, g, "")
  {
    SepAtOccurs(":" + "");
    forall g
      ensures filter == g + SEP <==> HasParts(filter, g, "")
    {
      assert g + SEP + "" == g + SEP;
    }
  }

  /** The path strings of the groups that `groupName` leads through, below `parent`. */
  function PrefixPaths(parent: string, names: Path): set<string> {
    if names == [] then {}
    else PrefixPaths(parent, Parent(names)) + {Join([parent] + names)}
  }

  /** A hit: the path string of the group it is in, the test if it is that test only, and the groups on the way. */
  datatype Pick = Pick(key: string, test: Option<string>, way: set<string>)

  function PickIn(root: string, groupName: string, test: Option<string>): Pick {
    Pick(root + SEP + groupName, test, PrefixPaths(root, Split(groupName)))
  }

  /** The picks that one filter takes from one listed name: one or none. Tests of the root group have no separator
      in their name and are not looked at. */
  function PicksOf(root: string, filter: string, name: string): (picks: seq<Pick>)
    ensures |picks| <= 1
  {
    match RSplitOnce(name)
    case None => []
    case Some((groupName, testName)) =>
      match HitOf(filter, groupName, testName)
      case Miss => []
      case Whole => [PickIn(root, groupName, None)]
      case Single => [PickIn(root, groupName, Some(testName))]
  }

  function FilterPicks(root: string, filter: string, names: seq<string>): seq<Pick> {
    if names == [] then []
    else FilterPicks(root, filter, names[..|names| - 1]) + PicksOf(root, filter, names[|names| - 1])
  }

  function AllPicks(root: string, filters: seq<string>, names: seq<string>): seq<Pick> {
    if filters == [] then []
    else AllPicks(root, filters[..|filters| - 1], names) + FilterPicks(root, filters[|filters| - 1], names)
  }

  function AddPick(f: Filter, pick: Pick): Filter {
    var entry := if pick.key in f.tests then f.tests[pick.key] else {};
    var picked := match pick.test case None => {} case Some(t) => {t};
    Filter(f.tests[pick.key := entry + picked], f.groups + pick.way)
  }

  function Collect(picks: seq<Pick>): Filter {
    if picks == [] then EMPTY
    else AddPick(Collect(picks[..|picks| - 1]), picks[|picks| - 1])
  }

  /** The filter that `New` returns. */
  function Compile(filters: seq<string>, root: Group): Filter {
    Collect(AllPicks(root.name, filters, TestNames(root)))
  }

  /** Adds to `groups` every group on the way to `groupName`. */
  method UpdateGroupSet(groups: set<string>, parent: string, groupName: string) returns (updated: set<string>)
    ensures updated == groups + PrefixPaths(parent, Split(groupName))
  {
    var names := Split(groupName);
    var acc := parent;
    updated := groups;
    for i := 0 to |names|
      invariant acc == Join([parent] + names[..i])
      invariant updated == groups + PrefixPaths(parent, names[..i])
    {
      assert [parent] + names[..i + 1] == [parent] + names[..i] + [names[i]];
      JoinSnoc([parent] + names[..i], names[i]);
      assert names[..i + 1][..i] == names[..i];
      acc := acc + SEP + names[i];
      updated := updated + {acc};
    }
    assert names[..|names|] == names;
  }

  lemma CollectMore(before: seq<Pick>, done: seq<Pick>, picks: seq<Pick>)
    requires |picks| <= 1
    ensures Collect(before + (done + picks))
         == if picks == [] then Collect(before + done) else AddPick(Collect(before + done), picks[0])
  {
    var all := before + (done + picks);
    if picks == [] {
      assert all == before + done;
    } else {
      assert all[..|all| - 1] == before + done;
    }
  }

  lemma FilterPicksNext(root: string, filter: string, names: seq<string>, j: nat)
    requires j < |names|
    ensures FilterPicks(root, filter, names[..j + 1])
         == FilterPicks(root, filter, names[..j]) + PicksOf(root, filter, names[j])
  {
    assert names[..j + 1][..j] == names[..j];
  }

  lemma AllPicksNext(root: string, filters: seq<string>, names: seq<string>, i: nat)
    requires i < |filters|
    ensures AllPicks(root, filters[..i + 1], names)
         == AllPicks(root, filters[..i], names) + FilterPicks(root, filters[i], names)
  {
    assert filters[..i + 1][..i] == filters[..i];
  }

  /** What one filter makes of one listed name: the body of the two inner loops. */
  method AddName(f: Filter, root: string, filter: string, name: string) returns (r: Filter)
    ensures var picks := PicksOf(root, filter, name);
            r == if picks == [] then f else AddPick(f, picks[0])
  {
    r := f;
    match RSplitOnce(name) {
      case None =>
      case Some((groupName, testName)) =>
        var hit := Miss;
        match RSplitOnce(filter) {
          case Some((groupPart, testPart)) =>
            var groupFilter, testFilter := NewMatcher(groupPart), NewMatcher(testPart);
            if groupFilter.Matches(groupName) {
              if testFilter == Any {
                hit := Whole;
              } else if testFilter.Matches(testName) {
                hit := Single;
              }
            }
          case None =>
            var matcher := NewMatcher(filter);
            if matcher.Matches(groupName) {
              hit := Whole;
            } else if matcher.Matches(testName) {
              hit := Single;
            }
        }
        if hit != Miss {
          var key := root + SEP + groupName;
          var entry := if key in f.tests then f.tests[key] else {};
          var groups := UpdateGroupSet(f.groups, root, groupName);
          if hit == Whole {
            r := Filter(f.tests[key := entry], groups);
            assert entry + {} == entry;
          } else {
            r := Filter(f.tests[key := entry + {testName}], groups);
          }
        }
    }
  }

  /** The loop over the listed names, for one filter. */
  method AddFilter(f: Filter, root: string, filter: string, names: seq<string>, ghost before: seq<Pick>)
    returns (r: Filter)
    requires f == Collect(before)
    ensures r == Collect(before + FilterPicks(root, filter, names))
  {
    r := f;
    assert before + [] == before;
    for j := 0 to |names|
      invariant r == Collect(before + FilterPicks(root, filter, names[..j]))
    {
      r := AddName(r, root, filter, names[j]);
      FilterPicksNext(root, filter, names, j);
      CollectMore(before, FilterPicks(root, filter, names[..j]), PicksOf(root, filter, names[j]));
    }
    assert names[..|names|] == names;
  }

  method New(filters: seq<string>, root: Group) returns (f: Filter)
    ensures f == Compile(filters, root)
  {
    f := EMPTY;
    if filters == [] {
      return;
    }
    var names := TestNames(root);
    for i := 0 to |filters|
      invariant f == Collect(AllPicks(root.name, filters[..i], names))
    {
      f := AddFilter(f, root.name, filters[i], names, AllPicks(root.name, filters[..i], names));
      AllPicksNext(root.name, filters, names, i);
    }
    assert filters[..|filters|] == filters;
  }

  // ---------------------------------------------------------------------------------------------
  // The closed form of the compiled filter
  // ---------------------------------------------------------------------------------------------

  /** A group's key is there iff some pick is in the group; its set is the tests picked in it; the groups are those
      on the way to a pick. */
  ghost predicate IsCollected(f: Filter, picks: seq<Pick>) {
    && (forall key :: key in f.tests <==> exists p :: p in picks && key == p.key)
    && (forall key, t :: key in f.tests ==>
          (t in f.tests[key] <==> exists p :: p in picks && key == p.key && p.test == Some(t)))
    && (forall g :: g in f.groups <==> exists p :: p in picks && g in p.way)
  }

  lemma {:induction false} CollectForm(picks: seq<Pick>)
    ensures IsCollected(Collect(picks), picks)
  {
    if picks != [] {
      var init, last := picks[..|picks| - 1], picks[|picks| - 1];
      CollectForm(init);
      assert picks == init + [last];
      assert forall p :: p in picks <==> p in init || p == last;
    }
  }

  /** The pick behind an entry of the map. */
  lemma EntryPick(picks: seq<Pick>, key: string, t: string) returns (p: Pick)
    requires key in Collect(picks).tests && t in Collect(picks).tests[key]
    ensures p in picks && p.key == key && p.test == Some(t)
  {
    CollectForm(picks);
    p :| p in picks && key == p.key && p.test == Some(t);
  }

  /** A single pick makes its entry. */
  lemma PickEntry(picks: seq<Pick>, p: Pick)
    requires p in picks && p.test.Some?
    ensures p.key in Collect(picks).tests && p.test.value in Collect(picks).tests[p.key]
  {
    CollectForm(picks);
  }

  /** A pick of one filter is taken from some listed name. */
  lemma {:induction false} FilterPicksForm(root: string, filter: string, names: seq<string>, p: Pick)
    ensures p in FilterPicks(root, filter, names) <==> exists n :: n in names && p in PicksOf(root, filter, n)
  {
    if names != [] {
      var init, last := names[..|names| - 1], names[|names| - 1];
      FilterPicksForm(root, filter, init, p);
      assert names == init + [last];
      assert forall n :: n in names <==> n in init || n == last;
    }
  }

  /** A pick is there iff some filter takes it. */
  lemma {:induction false} AllPicksForm(root: string, filters: seq<string>, names: seq<string>, p: Pick)
    ensures p in AllPicks(root, filters, names) <==> exists x :: x in filters && p in FilterPicks(root, x, names)
  {
    if filters != [] {
      var init, last := filters[..|filters| - 1], filters[|filters| - 1];
      AllPicksForm(root, init, names, p);
      assert filters == init + [last];
      if x :| x in filters && p in FilterPicks(root, x, names) {
        assert x in init || x == last;
      }
      assert p in FilterPicks(root, last, names) ==> last in filters && p in FilterPicks(root, last, names);
    }
  }

  /** The filter and the listed name that a pick comes from. */
  lemma PickSource(root: string, filters: seq<string>, names: seq<string>, p: Pick) returns (x: string, n: string)
    requires p in AllPicks(root, filters, names)
    ensures x in filters && n in names && p in PicksOf(root, x, n)
  {
    AllPicksForm(root, filters, names, p);
    x :| x in filters && p in FilterPicks(root, x, names);
    FilterPicksForm(root, x, names, p);
    n :| n in names && p in PicksOf(root, x, n);
  }

  lemma PickFromSource(root: string, filters: seq<string>, names: seq<string>, p: Pick, x: string, n: string)
    requires x in filters && n in names && p in PicksOf(root, x, n)
    ensures p in AllPicks(root, filters, names)
  {
    FilterPicksForm(root, x, names, p);
    AllPicksForm(root, filters, names, p);
  }

  lemma SameEntry(picks: seq<Pick>, others: seq<Pick>, key: string)
    requires forall p :: p in picks ==> p in others
    requires key in Collect(picks).tests && key in Collect(others).tests
    ensures Collect(picks).tests[key] <= Collect(others).tests[key]
  {
    CollectForm(picks);
    CollectForm(others);
    forall t | t in Collect(picks).tests[key]
      ensures t in Collect(others).tests[key]
    {
      var p :| p in picks && key == p.key && p.test == Some(t);
      assert p in others;
    }
  }

  /** Equal sets of picks give equal filters. */
  lemma CollectExtensional(picks: seq<Pick>, others: seq<Pick>)
    requires forall p :: p in picks <==> p in others
    ensures Collect(picks) == Collect(others)
  {
    var f, g := Collect(picks), Collect(others);
    CollectForm(picks);
    CollectForm(others);
    assert f.tests.Keys == g.tests.Keys by {
      assert forall key :: key in f.tests <==> key in g.tests;
    }
    forall key | key in f.tests
      ensures f.tests[key] == g.tests[key]
    {
      SameEntry(picks, others, key);
      SameEntry(others, picks, key);
    }
    assert f.groups == g.groups by {
      assert forall p :: p in f.groups <==> p in g.groups;
    }
  }

  /** The order of the filters and their repetition do not matter. */
  lemma OrderIsIrrelevant(filters: seq<string>, others: seq<string>, root: Group)
    requires forall x :: x in filters <==> x in others
    ensures Compile(filters, root) == Compile(others, root)
  {
    var names := TestNames(root);
    forall p
      ensures p in AllPicks(root.name, filters, names) <==> p in AllPicks(root.name, others, names)
    {
      AllPicksForm(root.name, filters, names, p);
      AllPicksForm(root.name, others, names, p);
    }
    CollectExtensional(AllPicks(root.name, filters, names), AllPicks(root.name, others, names));
  }
}
