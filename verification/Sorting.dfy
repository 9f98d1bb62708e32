/**
 Sorting strings and removing repeated ones: what a name list goes through at its end.
 */
module Sorting {

  /** The order of strings, character by character. */
  predicate Less(a: string, b: string)
    decreases |a|
  {
    b != "" && (a == "" || a[0] < b[0] || (a[0] == b[0] && Less(a[1..], b[1..])))
  }

  /** At the first difference the smaller character is that of the lesser string. */
  ghost predicate DiffersAt(a: string, b: string, k: nat) {
    k < |a| && k < |b| && a[..k] == b[..k] && a[k] < b[k]
  }

  /** The first characters do not matter where they are equal. */
  lemma DiffersLater(x: char, c: string, d: string, k: nat)
    ensures DiffersAt([x] + c, [x] + d, k + 1) <==> DiffersAt(c, d, k)
    ensures !DiffersAt([x] + c, [x] + d, 0)
    ensures [x] + c < [x] + d <==> c < d
  {
    var a, b := [x] + c, [x] + d;
    assert a[1..] == c && b[1..] == d;
    if k < |c| && k < |d| {
      assert a[..k + 1] == [x] + c[..k] && b[..k + 1] == [x] + d[..k];
      assert a[..k + 1][1..] == c[..k] && b[..k + 1][1..] == d[..k];
    }
    if a < b {
      assert d[..|c|] == b[..|a|][1..] == c;
    }
    if c < d {
      assert b[..|a|] == [x] + d[..|c|];
    }
  }

  /** A string is less than another iff it is a proper prefix of it or has the smaller character where they first
      differ. */
  lemma {:induction false} LessIsLexicographic(a: string, b: string)
    ensures Less(a, b) <==> a < b || exists k :: DiffersAt(a, b, k)
    decreases |a|
  {
    if a != "" && b != "" {
      var c, d := a[1..], b[1..];
      assert a == [a[0]] + c && b == [b[0]] + d;
      if a[0] == b[0] {
        LessIsLexicographic(c, d);
        forall k: nat
          ensures DiffersAt(a, b, k + 1) <==> DiffersAt(c, d, k)
          ensures !DiffersAt(a, b, 0) && (a < b <==> c < d)
        {
          DiffersLater(a[0], c, d, k);
        }
        if k: nat :| DiffersAt(a, b, k) {
          var j: nat :| j + 1 == k;
          assert DiffersAt(c, d, j);
        }
        if j: nat :| DiffersAt(c, d, j) {
          assert DiffersAt(a, b, j + 1);
        }
      } else {
        assert DiffersAt(a, b, 0) <==> a[0] < b[0];
        assert forall k :: k > 0 && DiffersAt(a, b, k) ==> a[..k][0] == b[..k][0];
      }
    }
  }

  lemma {:induction false} LessIsStrict(a: string)
    ensures !Less(a, a)
    decreases |a|
  {
    if a != "" {
      LessIsStrict(a[1..]);
    }
  }

  lemma {:induction false} LessIsTotal(a: string, b: string)
    ensures Less(a, b) || a == b || Less(b, a)
    decreases |a|
  {
    if a != "" && b != "" && a[0] == b[0] {
      LessIsTotal(a[1..], b[1..]);
      assert a == [a[0]] + a[1..] && b == [b[0]] + b[1..];
    }
  }

  lemma {:induction false} LessIsTransitive(a: string, b: string, c: string)
    requires Less(a, b) && Less(b, c)
    ensures Less(a, c)
    decreases |a|
  {
    if a != "" && a[0] == b[0] == c[0] {
      LessIsTransitive(a[1..], b[1..], c[1..]);
    }
  }

  predicate Sorted(s: seq<string>) {
    forall i, j :: 0 <= i < j < |s| ==> s[i] == s[j] || Less(s[i], s[j])
  }

  predicate Ascending(s: seq<string>) {
    forall i, j :: 0 <= i < j < |s| ==> Less(s[i], s[j])
  }

  lemma PrependSorted(x: string, s: seq<string>)
    requires Sorted(s) && (s != [] ==> x == s[0] || Less(x, s[0]))
    ensures Sorted([x] + s)
  {
    forall j | 0 <= j < |s|
      ensures x == s[j] || Less(x, s[j])
    {
      if 0 < j && Less(x, s[0]) && Less(s[0], s[j]) {
        LessIsTransitive(x, s[0], s[j]);
      }
    }
  }

  lemma AppendAscending(list: seq<string>, x: string)
    requires Ascending(list) && (list != [] ==> Less(list[|list| - 1], x))
    ensures Ascending(list + [x])
  {
    forall i | 0 <= i < |list|
      ensures Less(list[i], x)
    {
      if i < |list| - 1 {
        LessIsTransitive(list[i], list[|list| - 1], x);
      }
    }
  }

  function Insert(s: seq<string>, x: string): (r: seq<string>)
    requires Sorted(s)
    ensures Sorted(r) && multiset(r) == multiset(s) + multiset{x}
    ensures r != [] && (r[0] == x || (s != [] && r[0] == s[0]))
  {
    if s == [] then [x]
    else if Less(x, s[0]) || x == s[0] then
      PrependSorted(x, s);
      [x] + s
    else
      LessIsTotal(x, s[0]);
      assert s == [s[0]] + s[1..];
      PrependSorted(s[0], Insert(s[1..], x));
      [s[0]] + Insert(s[1..], x)
  }

  /** `sort` of the library. */
  function Sort(names: seq<string>): (r: seq<string>)
    ensures Sorted(r) && multiset(r) == multiset(names)
  {
    if names == [] then []
    else
      assert names == names[..|names| - 1] + [names[|names| - 1]];
      Insert(Sort(names[..|names| - 1]), names[|names| - 1])
  }

  lemma SortHolds(names: seq<string>, x: string)
    ensures x in Sort(names) <==> x in names
  {
    assert x in names <==> x in multiset(names);
    assert x in Sort(names) <==> x in multiset(Sort(names));
  }

  /** `dedup`: of equal neighbours the first one stays. */
  method Dedup(names: seq<string>) returns (list: seq<string>)
    requires Sorted(names)
    ensures Ascending(list)
    ensures forall x :: x in list <==> x in names
  {
    list := [];
    for i := 0 to |names|
      invariant Ascending(list)
      invariant forall x :: x in list <==> x in names[..i]
      invariant if i == 0 then list == [] else list != [] && list[|list| - 1] == names[i - 1]
    {
      assert names[..i + 1] == names[..i] + [names[i]];
      if list == [] || list[|list| - 1] != names[i] {
        AppendAscending(list, names[i]);
        list := list + [names[i]];
      }
    }
    assert names[..|names|] == names;
  }

  // ---------------------------------------------------------------------------------------------
  // What an ascending list is
  // ---------------------------------------------------------------------------------------------

  /** The one list of these names that is sorted and without repetition. */
  ghost predicate IsListOf(list: seq<string>, names: set<string>) {
    Ascending(list) && forall x :: x in list <==> x in names
  }

  /** An element of an ascending list is its last or less than it, and is not repeated. */
  lemma LastIsGreatest(list: seq<string>, x: string)
    requires Ascending(list) && x in list
    ensures x == list[|list| - 1] || Less(x, list[|list| - 1])
    ensures x in list[..|list| - 1] ==> x != list[|list| - 1]
  {
    LessIsStrict(list[|list| - 1]);
  }

  lemma InitIsList(list: seq<string>, names: set<string>)
    requires IsListOf(list, names) && list != []
    ensures IsListOf(list[..|list| - 1], names - {list[|list| - 1]})
  {
    var init, last := list[..|list| - 1], list[|list| - 1];
    assert list == init + [last];
    forall x | x in init
      ensures x != last
    {
      LastIsGreatest(list, x);
    }
  }

  lemma {:induction false} ListLength(list: seq<string>, names: set<string>)
    requires IsListOf(list, names)
    ensures |list| == |names|
    decreases |list|
  {
    if list == [] {
      assert names == {};
    } else {
      InitIsList(list, names);
      ListLength(list[..|list| - 1], names - {list[|list| - 1]});
    }
  }

  lemma SameLast(list: seq<string>, other: seq<string>, names: set<string>)
    requires IsListOf(list, names) && IsListOf(other, names) && list != [] && other != []
    ensures list[|list| - 1] == other[|other| - 1]
  {
    var a, b := list[|list| - 1], other[|other| - 1];
    LastIsGreatest(list, b);
    LastIsGreatest(other, a);
    if a != b {
      LessIsTransitive(a, b, a);
      LessIsStrict(a);
    }
  }

  /** Two such lists of the same names are one. */
  lemma {:induction false} ListIsUnique(list: seq<string>, other: seq<string>, names: set<string>)
    requires IsListOf(list, names) && IsListOf(other, names)
    ensures list == other
    decreases |list|
  {
    ListLength(list, names);
    ListLength(other, names);
    if list != [] {
      SameLast(list, other, names);
      InitIsList(list, names);
      InitIsList(other, names);
      var last := list[|list| - 1];
      ListIsUnique(list[..|list| - 1], other[..|other| - 1], names - {last});
      assert list == list[..|list| - 1] + [last] && other == other[..|other| - 1] + [last];
    }
  }
}
