/** Small shared vocabulary: optional values, what a list holds, how maps and sets grow and shrink. */
module Basics {
  datatype Option<+T> = None | Some(value: T)

  function Members<T>(xs: seq<T>): set<T> { set x | x in xs }

  predicate NoDuplicates<T(==)>(xs: seq<T>) {
    forall i, j :: 0 <= i < j < |xs| ==> xs[i] != xs[j]
  }

  lemma AppendNoDuplicates<T>(xs: seq<T>, ys: seq<T>)
    requires NoDuplicates(xs) && NoDuplicates(ys) && forall y :: y in ys ==> y !in xs
    ensures NoDuplicates(xs + ys)
    ensures forall x :: x in xs + ys <==> x in xs || x in ys
  {
    var zs := xs + ys;
    forall i, j | 0 <= i < j < |zs| ensures zs[i] != zs[j] {
      assert j >= |xs| ==> zs[j] == ys[j - |xs|] && zs[j] in ys;
      assert i < |xs| ==> zs[i] in xs;
    }
  }

  lemma MergeOne<K, V>(m: map<K, V>, k: K, v: V)
    ensures m + map[k := v] == m[k := v]
  {
  }

  lemma MergeTwo<K, V>(m: map<K, V>, j: K, u: V, k: K, v: V)
    ensures m + (map[j := u] + map[k := v]) == m[j := u][k := v]
    ensures (map[j := u] + map[k := v]).Keys == {j, k}
  {
  }

  lemma SubsetSize<T>(a: set<T>, b: set<T>)
    requires a <= b
    ensures |a| <= |b|
  {
    assert b == a + (b - a);
  }

  lemma Smaller<K, V>(m: map<K, V>, k: K)
    ensures |m - {k}| == if k in m then |m| - 1 else |m|
    ensures |m| == 1 && k in m ==> m - {k} == map[]
  {
    assert (m - {k}).Keys == m.Keys - {k};
    if k in m { assert |(m - {k}).Keys| == |m.Keys| - 1; } else { assert m - {k} == m; }
    if |m - {k}| == 0 { assert m - {k} == map[]; }
  }

  lemma Larger<K, V>(m: map<K, V>, k: K, v: V)
    ensures |m[k := v]| == if k in m then |m| else |m| + 1
  {
    assert m[k := v].Keys == m.Keys + {k};
    assert |m[k := v].Keys| == |m.Keys + {k}|;
    if k in m { assert m.Keys + {k} == m.Keys; }
  }

  lemma Only<K, V>(m: map<K, V>, k: K, j: K)
    requires |m| <= 1 && k in m && j in m
    ensures k == j
  {
    if k != j { assert {k, j} <= m.Keys; SubsetSize({k, j}, m.Keys); }
  }

  /** There is always a fresh number. */
  lemma {:induction false} UnusedNumber(used: set<nat>) returns (n: nat)
    ensures n !in used
    ensures forall k :: k in used ==> k < n
    decreases |used|
  {
    n := 0;
    if used != {} {
      var k :| k in used;
      var m := UnusedNumber(used - {k});
      n := if k < m then m else k + 1;
      forall j | j in used ensures j < n { assert j != k ==> j in used - {k}; }
    }
  }
}
