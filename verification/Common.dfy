/**
 Values shared by the whole model: an option type, fixture types, and sums over finite maps.
 */
module Common {

  datatype Option<+T> = None | Some(value: T)

  /** A fixture type: what `TypeId::of::<F>()` identifies, with the constant that
      `F::test_can_run_concurrently()` returns. Types are numbered so that the setup of a type sets up
      only types of smaller number; an acyclic dependency relation has such a numbering. */
  datatype TypeId = TypeId(number: nat, concurrent: bool)

  ghost predicate NoRepeats<T>(s: seq<T>) {
    forall i, j :: 0 <= i < j < |s| ==> s[i] != s[j]
  }

  /** The sum of the values of a finite map. */
  ghost function Sum<K(!new)>(m: map<K, nat>): nat
  {
    if m == map[] then 0 else
    var k :| k in m;
    m[k] + Sum(m - {k})
  }

  /** Any key may be taken out of the sum first. */
  lemma {:induction false} SumRemove<K(!new)>(m: map<K, nat>, k: K)
    requires k in m
    ensures Sum(m) == m[k] + Sum(m - {k})
  {
    var j :| j in m && Sum(m) == m[j] + Sum(m - {j});
    if j != k {
      SumRemove(m - {j}, k);
      SumRemove(m - {k}, j);
      assert m - {j} - {k} == m - {k} - {j};
    }
  }

  lemma {:induction false} SumZero<K(!new)>(m: map<K, nat>)
    ensures Sum(m) == 0 <==> forall k :: k in m ==> m[k] == 0
  {
    if m != map[] {
      var k :| k in m && Sum(m) == m[k] + Sum(m - {k});
      SumZero(m - {k});
      assert forall j :: j in m && j != k ==> j in m - {k};
    }
  }

  lemma SumUpdate<K(!new)>(m: map<K, nat>, k: K, v: nat)
    ensures Sum(m[k := v]) == v + Sum(m - {k})
    ensures Sum(m) == (if k in m then m[k] else 0) + Sum(m - {k})
  {
    SumRemove(m[k := v], k);
    assert m[k := v] - {k} == m - {k};
    if k in m {
      SumRemove(m, k);
    } else {
      assert m - {k} == m;
    }
  }

  /** The part of a map that lies over `keep`. */
  function Restrict<K, V>(m: map<K, V>, keep: set<K>): map<K, V> {
    map k | k in m && k in keep :: m[k]
  }

  lemma RestrictionIs<K, V>(m: map<K, V>, n: map<K, V>, keep: set<K>)
    requires forall k :: k in n ==> k in m && n[k] == m[k]
    requires forall k :: k in m ==> (k in n <==> k in keep)
    ensures n == Restrict(m, keep)
  {
  }

  lemma SubsetIsSmaller<T>(a: set<T>, b: set<T>)
    requires a <= b
    ensures |a| <= |b|
  {
    assert b == a + (b - a);
  }
}
