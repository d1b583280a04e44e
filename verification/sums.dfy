/** Sums over maps and sequences, with the update laws the accounting proofs use. */
module Sums {

  /** The sum of f over the values of m. */
  ghost function Total<K, V>(m: map<K, V>, f: V -> nat): nat
    decreases |m|
  {
    if m == map[] then 0
    else
      var k :| k in m;
      f(m[k]) + Total(m - {k}, f)
  }

  /** Any key can be taken out first, whichever one the definition chooses. */
  lemma {:induction false} TotalRemove<K, V>(m: map<K, V>, k: K, f: V -> nat)
    requires k in m
    ensures Total(m, f) == f(m[k]) + Total(m - {k}, f)
    decreases |m|
  {
    var c :| c in m && Total(m, f) == f(m[c]) + Total(m - {c}, f);
    if c != k {
      TotalRemove(m - {c}, k, f);
      TotalRemove(m - {k}, c, f);
      assert m - {c} - {k} == m - {k} - {c};
    }
  }

  lemma TotalAdd<K, V>(m: map<K, V>, k: K, v: V, f: V -> nat)
    requires k !in m
    ensures Total(m[k := v], f) == Total(m, f) + f(v)
  {
    TotalRemove(m[k := v], k, f);
    assert m[k := v] - {k} == m;
  }

  lemma TotalReplace<K, V>(m: map<K, V>, k: K, v: V, f: V -> nat)
    requires k in m
    ensures Total(m[k := v], f) == Total(m, f) - f(m[k]) + f(v)
    ensures f(m[k]) <= Total(m, f)
  {
    TotalRemove(m[k := v], k, f);
    TotalRemove(m, k, f);
    assert m[k := v] - {k} == m - {k};
  }

  lemma {:induction false} TotalZero<K, V>(m: map<K, V>, f: V -> nat)
    requires forall k | k in m :: f(m[k]) == 0
    ensures Total(m, f) == 0
    decreases |m|
  {
    if m != map[] {
      var k :| k in m;
      TotalRemove(m, k, f);
      TotalZero(m - {k}, f);
    }
  }

  /** The sum of f over the elements of s. */
  function Sum<T>(s: seq<T>, f: T -> nat): nat
  {
    if s == [] then 0 else Sum(s[..|s| - 1], f) + f(s[|s| - 1])
  }

  lemma SumAppend<T>(s: seq<T>, e: T, f: T -> nat)
    ensures Sum(s + [e], f) == Sum(s, f) + f(e)
  {
    assert (s + [e])[..|s|] == s;
  }

  /** A bound that holds elementwise holds of the sums. */
  lemma {:induction false} SumBoundTwo<T>(s: seq<T>, f: T -> nat, g: T -> nat, h: T -> nat)
    requires forall e | e in s :: f(e) <= g(e) + h(e)
    ensures Sum(s, f) <= Sum(s, g) + Sum(s, h)
  {
    if s != [] {
      var n := |s| - 1;
      SumBoundTwo(s[..n], f, g, h);
      assert s[n] in s;
    }
  }
}
