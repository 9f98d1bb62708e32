/**
 Path strings. A path is a non-empty sequence of names; the program stores it joined with "::" and takes it
 apart again with `split`, `rsplit_once` and `starts_with`.
 */
module Paths {
  import opened Common

  type Path = seq<string>

  const SEP := "::"

  /** What the macros generate as names: non-empty and without a colon. */
  predicate ValidName(n: string) {
    n != "" && ':' !in n
  }

  predicate ValidPath(p: Path) {
    forall i :: 0 <= i < |p| ==> ValidName(p[i])
  }

  function Parent(p: Path): Path
    requires p != []
  {
    p[..|p| - 1]
  }

  function Last(p: Path): string
    requires p != []
  {
    p[|p| - 1]
  }

  lemma ParentLast(p: Path)
    requires p != []
    ensures Parent(p) + [Last(p)] == p
  {
  }

  lemma PrefixOfParent(p: Path, k: nat)
    requires k < |p|
    ensures p[..k] <= Parent(p)
  {
  }

  lemma PrefixIsSameOrProper(p: Path, q: Path)
    requires p <= q
    ensures p == q || p < q
  {
    if |p| == |q| {
      assert p == q;
    }
  }

  /** `join("::")` */
  function Join(p: Path): string {
    if p == [] then ""
    else if |p| == 1 then p[0]
    else p[0] + SEP + Join(p[1..])
  }

  predicate SepAt(s: string, i: int) {
    0 <= i && i + 1 < |s| && s[i] == ':' && s[i + 1] == ':'
  }

  /** The leftmost separator at or after `from`, or the length of `s`. */
  function FindSep(s: string, from: nat): (i: nat)
    requires from <= |s|
    ensures from <= i <= |s|
    ensures i < |s| ==> SepAt(s, i)
    ensures forall j :: from <= j < i ==> !SepAt(s, j)
    decreases |s| - from
  {
    if from == |s| || SepAt(s, from) then from else FindSep(s, from + 1)
  }

  /** `split("::")` */
  function Split(s: string): (parts: Path)
    ensures parts != []
    decreases |s|
  {
    var i := FindSep(s, 0);
    if i == |s| then [s] else [s[..i]] + Split(s[i + 2..])
  }

  /** The rightmost separator before `below`, if there is one. */
  function RFindSep(s: string, below: nat): (r: Option<nat>)
    requires below <= |s|
    ensures r.Some? ==> r.value < below && SepAt(s, r.value)
    ensures r.Some? ==> forall j :: r.value < j < below ==> !SepAt(s, j)
    ensures r.None? ==> forall j :: 0 <= j < below ==> !SepAt(s, j)
  {
    if below == 0 then None
    else if SepAt(s, below - 1) then Some(below - 1)
    else RFindSep(s, below - 1)
  }

  /** `rsplit_once("::")` */
  function RSplitOnce(s: string): Option<(string, string)> {
    match RFindSep(s, |s|)
    case None => None
    case Some(i) => Some((s[..i], s[i + 2..]))
  }

  /** `starts_with` */
  predicate StartsWith(s: string, prefix: string) {
    prefix <= s
  }

  /** `contains` */
  predicate Contains(s: string, part: string) {
    exists i :: 0 <= i <= |s| - |part| && s[i..][..|part|] == part
  }

  // ---------------------------------------------------------------------------------------------
  // Joining and splitting
  // ---------------------------------------------------------------------------------------------

  /** A separator after a colon-free name is the first one in the string. */
  lemma FirstSep(n: string, rest: string)
    requires ValidName(n)
    ensures FindSep(n + SEP + rest, 0) == |n|
    ensures FindSep(n, 0) == |n|
    ensures (n + SEP + rest)[|n| + 2..] == rest
  {
    var s := n + SEP + rest;
    assert SepAt(s, |n|);
    forall j | 0 <= j < |n|
      ensures !SepAt(s, j) && !SepAt(n, j)
    {
      assert s[j] == n[j] && n[j] in n;
    }
  }

  lemma SplitFirst(n: string, rest: string)
    requires ValidName(n)
    ensures Split(n + SEP + rest) == [n] + Split(rest)
  {
    FirstSep(n, rest);
    var s := n + SEP + rest;
    assert s[..|n|] == n;
  }

  lemma SplitName(n: string)
    requires ValidName(n)
    ensures Split(n) == [n]
  {
    FirstSep(n, "");
  }

  lemma {:induction false} SplitJoined(p: Path, rest: string)
    requires ValidPath(p) && p != []
    ensures Split(Join(p) + SEP + rest) == p + Split(rest)
    decreases |p|
  {
    if |p| == 1 {
      SplitFirst(p[0], rest);
      assert p == [p[0]];
    } else {
      var tail := Join(p[1..]) + SEP + rest;
      calc {
        Split(Join(p) + SEP + rest);
        { assert Join(p) + SEP + rest == p[0] + SEP + tail; }
        Split(p[0] + SEP + tail);
        { SplitFirst(p[0], tail); }
        [p[0]] + Split(tail);
        { SplitJoined(p[1..], rest); }
        [p[0]] + (p[1..] + Split(rest));
        { assert p == [p[0]] + p[1..]; }
        p + Split(rest);
      }
    }
  }

  /** Splitting undoes joining, so a path string names one path. */
  lemma SplitJoin(p: Path)
    requires ValidPath(p) && p != []
    ensures Split(Join(p)) == p
  {
    if |p| == 1 {
      SplitName(p[0]);
      assert p == [p[0]];
    } else {
      var q := Parent(p);
      assert p == q + [Last(p)];
      JoinSnoc(q, Last(p));
      SplitJoined(q, Last(p));
      SplitName(Last(p));
    }
  }

  lemma JoinInjective(p: Path, q: Path)
    requires ValidPath(p) && p != []
    requires ValidPath(q) && q != []
    requires Join(p) == Join(q)
    ensures p == q
  {
    SplitJoin(p);
    SplitJoin(q);
  }

  lemma {:induction false} JoinConcat(p: Path, q: Path)
    requires p != [] && q != []
    ensures Join(p + q) == Join(p) + SEP + Join(q)
    decreases |p|
  {
    if |p| == 1 {
      assert (p + q)[1..] == q;
    } else {
      JoinConcat(p[1..], q);
      assert (p + q)[1..] == p[1..] + q;
    }
  }

  lemma JoinSnoc(p: Path, n: string)
    requires p != []
    ensures Join(p + [n]) == Join(p) + SEP + n
  {
    JoinConcat(p, [n]);
  }

  /** The last separator of a joined path stands before its last name. */
  lemma RSplitJoin(p: Path, n: string)
    requires p != [] && ValidName(n)
    ensures RSplitOnce(Join(p + [n])) == Some((Join(p), n))
  {
    JoinSnoc(p, n);
    var s, k := Join(p + [n]), |Join(p)|;
    assert SepAt(s, k);
    forall j | k < j < |s|
      ensures !SepAt(s, j)
    {
      if j + 1 < |s| {
        assert s[j + 1] == n[j - k - 1];
        assert s[j + 1] in n;
      }
    }
    assert s[..k] == Join(p) && s[k + 2..] == n;
  }

  lemma RSplitName(n: string)
    requires ValidName(n)
    ensures RSplitOnce(n).None?
  {
    forall j | 0 <= j < |n|
      ensures !SepAt(n, j)
    {
      assert n[j] in n;
    }
  }

  /** The sentinel test: `c` starts with `p` followed by a separator exactly when `p` is a proper ancestor of `c`. */
  lemma SentinelPrefix(p: Path, c: Path)
    requires ValidPath(p) && p != []
    requires ValidPath(c) && c != []
    ensures StartsWith(Join(c), Join(p) + SEP) <==> p < c
  {
    if StartsWith(Join(c), Join(p) + SEP) {
      var rest := Join(c)[|Join(p) + SEP|..];
      assert Join(c) == Join(p) + SEP + rest;
      SplitJoined(p, rest);
      SplitJoin(c);
    }
    if p < c {
      assert c == p + c[|p|..];
      JoinConcat(p, c[|p|..]);
    }
  }

  // ---------------------------------------------------------------------------------------------
  // What the searches in a string find
  // ---------------------------------------------------------------------------------------------

  /** The string is `part` with something before it and something after it. */
  ghost predicate Occurs(part: string, s: string) {
    exists u: string, v: string :: s == u + part + v
  }

  lemma ContainsIsOccurs(s: string, part: string)
    ensures Contains(s, part) <==> Occurs(part, s)
  {
    if Contains(s, part) {
      var i :| 0 <= i <= |s| - |part| && s[i..][..|part|] == part;
      assert s == s[..i] + part + s[i..][|part|..];
    }
    if Occurs(part, s) {
      var u: string, v: string :| s == u + part + v;
      assert s[|u|..] == part + v;
      assert s[|u|..][..|part|] == part;
    }
  }

  lemma SepAtOccurs(s: string)
    ensures Occurs(SEP, s) <==> exists i :: SepAt(s, i)
  {
    if i :| SepAt(s, i) {
      assert s == s[..i] + SEP + s[i + 2..];
    }
    if Occurs(SEP, s) {
      var u: string, v: string :| s == u + SEP + v;
      assert SepAt(s, |u|);
    }
  }

  /** `rsplit_once` splits at the last separator, also where more than two colons follow each other, and only a string
      without a separator is not split. */
  lemma RSplitLaw(s: string, left: string, right: string)
    ensures RSplitOnce(s) == Some((left, right)) <==> s == left + SEP + right && !Occurs(SEP, ":" + right)
    ensures RSplitOnce(s).None? <==> !Occurs(SEP, s)
  {
    SepAtOccurs(s);
    if s == left + SEP + right {
      NoSepAfter(s, left, right);
      LastSepIs(s, |left|);
      assert s[..|left|] == left && s[|left| + 2..] == right;
    } else if RSplitOnce(s).Some? {
      var i := RFindSep(s, |s|).value;
      assert s == s[..i] + SEP + s[i + 2..];
    }
  }

  lemma NoSepAfter(s: string, left: string, right: string)
    requires s == left + SEP + right
    ensures SepAt(s, |left|)
    ensures (forall j :: |left| < j ==> !SepAt(s, j)) <==> !Occurs(SEP, ":" + right)
  {
    SepAtOccurs(":" + right);
    forall i | 0 <= i < |right| + 1
      ensures (":" + right)[i] == s[|left| + 1 + i]
    {
    }
    if i :| SepAt(":" + right, i) {
      assert SepAt(s, |left| + 1 + i);
    }
    if j :| |left| < j && SepAt(s, j) {
      var i := j - |left| - 1;
      assert (":" + right)[i] == s[|left| + 1 + i] && (":" + right)[i + 1] == s[|left| + 1 + (i + 1)];
      assert SepAt(":" + right, i);
    }
  }

  /** The separator at `i` is the one found iff none stands after it. */
  lemma LastSepIs(s: string, i: nat)
    requires SepAt(s, i)
    ensures RFindSep(s, |s|) == Some(i) <==> forall j :: i < j ==> !SepAt(s, j)
  {
    var r := RFindSep(s, |s|);
    assert r.Some? && SepAt(s, r.value);
  }
}
