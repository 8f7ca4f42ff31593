/** Sums of a weight over the values of a map, and sizes of finite sets. */
module Sums {

  ghost function Sum<K(!new), V(!new)>(m: map<K, V>, f: V -> nat): nat
    decreases |m|
  {
    if m == map[] then 0
    else
      var k :| k in m;
      f(m[k]) + Sum(m - {k}, f)
  }

  /** Any entry can be taken out first. */
  lemma {:induction false} SumTake<K(!new), V(!new)>(m: map<K, V>, f: V -> nat, k: K)
    requires k in m
    ensures Sum(m, f) == f(m[k]) + Sum(m - {k}, f)
    decreases |m|
  {
    var first :| first in m && Sum(m, f) == f(m[first]) + Sum(m - {first}, f);
    if first != k {
      SumTake(m - {first}, f, k);
      SumTake(m - {k}, f, first);
      assert m - {first} - {k} == m - {k} - {first};
    }
  }

  lemma SumPut<K(!new), V(!new)>(m: map<K, V>, f: V -> nat, k: K, v: V)
    ensures k in m ==> Sum(m[k := v], f) == Sum(m, f) - f(m[k]) + f(v)
    ensures k in m ==> f(m[k]) <= Sum(m, f)
    ensures k !in m ==> Sum(m[k := v], f) == Sum(m, f) + f(v)
  {
    SumTake(m[k := v], f, k);
    if k in m {
      SumTake(m, f, k);
      assert m[k := v] - {k} == m - {k};
    } else {
      assert m[k := v] - {k} == m;
    }
  }

  /** Maps whose values weigh the same have the same sum. */
  lemma {:induction false} SumSame<K(!new), V(!new)>(a: map<K, V>, b: map<K, V>, f: V -> nat)
    requires a.Keys == b.Keys && forall k :: k in a ==> f(a[k]) == f(b[k])
    ensures Sum(a, f) == Sum(b, f)
    decreases |a|
  {
    if a == map[] {
      assert b == map[];
    } else {
      var k :| k in a;
      SumTake(a, f, k);
      SumTake(b, f, k);
      SumSame(a - {k}, b - {k}, f);
    }
  }

  lemma SumDrop<K(!new), V(!new)>(m: map<K, V>, f: V -> nat, k: K)
    requires k in m
    ensures Sum(m - {k}, f) == Sum(m, f) - f(m[k])
    ensures |m - {k}| == |m| - 1
  {
    SumTake(m, f, k);
    assert (m - {k}).Keys == m.Keys - {k};
    assert |m.Keys - {k}| == |m.Keys| - 1;
  }

  lemma {:induction false} SumZero<K(!new), V(!new)>(m: map<K, V>, f: V -> nat)
    requires forall k :: k in m ==> f(m[k]) == 0
    ensures Sum(m, f) == 0
    decreases |m|
  {
    if m != map[] {
      var k :| k in m;
      SumTake(m, f, k);
      SumZero(m - {k}, f);
    }
  }

  /** No entry weighs more than the sum. */
  lemma SumWitness<K(!new), V(!new)>(m: map<K, V>, f: V -> nat, k: K)
    requires k in m
    ensures f(m[k]) <= Sum(m, f)
  {
    SumTake(m, f, k);
  }

  lemma {:induction false} SumOfTwo<K(!new), V(!new)>(m: map<K, V>, f: V -> nat, g: V -> nat, total: nat)
    requires forall k :: k in m ==> f(m[k]) + g(m[k]) <= 1
    requires total == |m|
    ensures Sum(m, f) + Sum(m, g) <= total
    decreases |m|
  {
    if m != map[] {
      var k :| k in m;
      SumDrop(m, f, k);
      SumDrop(m, g, k);
      SumOfTwo(m - {k}, f, g, total - 1);
    }
  }

  lemma {:induction false} SubsetSize<K>(a: set<K>, b: set<K>)
    requires a <= b
    ensures |a| <= |b|
    ensures a != b ==> |a| < |b|
  {
    if a != {} {
      var x :| x in a;
      SubsetSize(a - {x}, b - {x});
    } else if b != {} {
      var y :| y in b;
      assert |b| == |b - {y}| + 1;
    }
  }
}
