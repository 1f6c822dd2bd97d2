/** Totals over finite maps, independent of any order. */
module Sums {

  ghost function Pick<T>(m: map<T, nat>): (k: T)
    requires m != map[]
    ensures k in m
  {
    assert m.Keys != {};
    var k :| k in m;
    k
  }

  ghost function Sum<T>(m: map<T, nat>): nat
    decreases |m|
  {
    if m == map[] then 0
    else
      var k := Pick(m);
      assert |(m - {k}).Keys| < |m.Keys| by {
        assert (m - {k}).Keys == m.Keys - {k};
      }
      m[k] + Sum(m - {k})
  }

  /** Any entry may be taken out first. */
  lemma {:induction false} SumTake<T>(m: map<T, nat>, k: T)
    requires k in m
    ensures Sum(m) == m[k] + Sum(m - {k})
    decreases |m|
  {
    var p := Pick(m);
    if p != k {
      assert |(m - {p}).Keys| < |m.Keys| && |(m - {k}).Keys| < |m.Keys| by {
        assert (m - {p}).Keys == m.Keys - {p};
        assert (m - {k}).Keys == m.Keys - {k};
      }
      SumTake(m - {p}, k);
      SumTake(m - {k}, p);
      assert m - {p} - {k} == m - {k} - {p};
    }
  }

  lemma SumAdd<T>(m: map<T, nat>, k: T, v: nat)
    requires k !in m
    ensures Sum(m[k := v]) == Sum(m) + v
  {
    SumTake(m[k := v], k);
    assert m[k := v] - {k} == m;
  }

  lemma SumReplace<T>(m: map<T, nat>, k: T, v: nat)
    requires k in m
    ensures Sum(m[k := v]) == Sum(m) - m[k] + v
  {
    SumTake(m, k);
    SumTake(m[k := v], k);
    assert m[k := v] - {k} == m - {k};
  }

  ghost function Within<T>(m: map<T, nat>, s: set<T>): map<T, nat> {
    map k | k in m && k in s :: m[k]
  }

  ghost function Outside<T>(m: map<T, nat>, s: set<T>): map<T, nat> {
    map k | k in m && k !in s :: m[k]
  }

  /** A total splits along any set of keys. */
  lemma {:induction false} SumSplit<T>(m: map<T, nat>, s: set<T>)
    ensures Sum(m) == Sum(Within(m, s)) + Sum(Outside(m, s))
    decreases |m|
  {
    var a, b := Within(m, s), Outside(m, s);
    if m == map[] {
      assert a == map[] && b == map[];
    } else {
      var p := Pick(m);
      var n := m - {p};
      assert |n.Keys| < |m.Keys| by {
        assert n.Keys == m.Keys - {p};
      }
      SumSplit(n, s);
      if p in s {
        assert a - {p} == Within(n, s) && b == Outside(n, s);
        SumTake(a, p);
      } else {
        assert b - {p} == Outside(n, s) && a == Within(n, s);
        SumTake(b, p);
      }
    }
  }

  /** Two maps that agree outside `s` differ in total by what they differ on `s`. */
  lemma SumDifference<T>(a: map<T, nat>, b: map<T, nat>, s: set<T>)
    requires a.Keys == b.Keys && forall k :: k in a && k !in s ==> a[k] == b[k]
    ensures Sum(a) - Sum(b) == Sum(Within(a, s)) - Sum(Within(b, s))
    ensures Sum(Within(a, s)) <= Sum(a)
  {
    SumSplit(a, s);
    SumSplit(b, s);
    assert Outside(a, s) == Outside(b, s);
  }
}
