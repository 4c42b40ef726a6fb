/** Sums over the rows of a finite map, and how they move when rows change. */
module FiniteSums {

  ghost function Pick<K>(keys: set<K>): (k: K)
    requires keys != {}
    ensures k in keys
  {
    var k :| k in keys; k
  }

  ghost function Sum<K, V>(m: map<K, V>, weigh: (K, V) -> int): int
    decreases |m|
  {
    if m == map[] then 0
    else
      var k := Pick(m.Keys);
      assert (m - {k}).Keys == m.Keys - {k};
      weigh(k, m[k]) + Sum(m - {k}, weigh)
  }

  /** What key `k` contributes to the sum; an absent key contributes nothing. */
  ghost function At<K, V>(m: map<K, V>, weigh: (K, V) -> int, k: K): int {
    if k in m then weigh(k, m[k]) else 0
  }

  lemma {:induction false} SumRemove<K, V>(m: map<K, V>, weigh: (K, V) -> int, k: K)
    requires k in m
    ensures Sum(m, weigh) == weigh(k, m[k]) + Sum(m - {k}, weigh)
    decreases |m|
  {
    var j := Pick(m.Keys);
    if j != k {
      assert (m - {j}).Keys == m.Keys - {j};
      assert (m - {k}).Keys == m.Keys - {k};
      SumRemove(m - {j}, weigh, k);
      SumRemove(m - {k}, weigh, j);
      assert m - {j} - {k} == m - {k} - {j};
    }
  }

  lemma {:induction false} SumOfNothing<K, V>(m: map<K, V>, weigh: (K, V) -> int)
    requires forall k :: k in m ==> weigh(k, m[k]) == 0
    ensures Sum(m, weigh) == 0
    decreases |m|
  {
    if m != map[] {
      var k := Pick(m.Keys);
      assert (m - {k}).Keys == m.Keys - {k};
      SumOfNothing(m - {k}, weigh);
    }
  }

  /** Two maps whose keys all contribute the same have the same sum. */
  lemma {:induction false} SumCongruence<K, V>(m: map<K, V>, m': map<K, V>, weigh: (K, V) -> int)
    requires forall k :: k in m || k in m' ==> At(m, weigh, k) == At(m', weigh, k)
    ensures Sum(m, weigh) == Sum(m', weigh)
    decreases |m|
  {
    if m == map[] {
      forall k | k in m' ensures weigh(k, m'[k]) == 0 {
        assert At(m, weigh, k) == At(m', weigh, k);
      }
      SumOfNothing(m', weigh);
    } else {
      var k := Pick(m.Keys);
      var rest, rest' := m - {k}, m' - {k};
      Drop(m, weigh, k);
      Drop(m', weigh, k);
      assert rest.Keys == m.Keys - {k};
      forall j | j in rest || j in rest' ensures At(rest, weigh, j) == At(rest', weigh, j) {
        assert At(m, weigh, j) == At(m', weigh, j);
      }
      SumCongruence(rest, rest', weigh);
    }
  }

  lemma Drop<K, V>(m: map<K, V>, weigh: (K, V) -> int, k: K)
    ensures Sum(m, weigh) == At(m, weigh, k) + Sum(m - {k}, weigh)
  {
    if k in m {
      SumRemove(m, weigh, k);
    } else {
      assert m - {k} == m;
    }
  }

  /** If two maps contribute differently at one key only, their sums differ by exactly that. */
  lemma SumDifference<K, V>(m: map<K, V>, m': map<K, V>, weigh: (K, V) -> int, k: K)
    requires forall j :: j != k && (j in m || j in m') ==> At(m, weigh, j) == At(m', weigh, j)
    ensures Sum(m', weigh) - Sum(m, weigh) == At(m', weigh, k) - At(m, weigh, k)
  {
    Drop(m, weigh, k);
    Drop(m', weigh, k);
    assert forall j :: j in m - {k} ==> At(m - {k}, weigh, j) == At(m, weigh, j);
    assert forall j :: j in m' - {k} ==> At(m' - {k}, weigh, j) == At(m', weigh, j);
    SumCongruence(m - {k}, m' - {k}, weigh);
  }

  /** A sum with a single contributing key. */
  lemma SumOfOne<K, V>(m: map<K, V>, weigh: (K, V) -> int, k: K)
    requires forall j :: j in m && j != k ==> weigh(j, m[j]) == 0
    ensures Sum(m, weigh) == At(m, weigh, k)
  {
    Drop(m, weigh, k);
    SumOfNothing(m - {k}, weigh);
  }

  /** Adding rows of which only those with mark `c` weigh anything, and each mark occurs once. */
  lemma SumOverMarked<V>(m: map<nat, V>, rows: map<nat, V>, marks: map<nat, nat>, weigh: (nat, V) -> int, c: nat, amount: int)
    requires rows.Keys == marks.Keys && rows.Keys !! m.Keys
    requires forall i, j :: i in marks && j in marks && marks[i] == marks[j] ==> i == j
    requires forall i :: i in rows ==> weigh(i, rows[i]) == if marks[i] == c then amount else 0
    ensures Sum(m + rows, weigh) - Sum(m, weigh) == if c in marks.Values then amount else 0
  {
    if c in marks.Values {
      var k :| k in marks && marks[k] == c;
      SumDifference(m, m + rows, weigh, k);
    } else {
      assert forall i :: i in marks ==> marks[i] in marks.Values;
      SumCongruence(m, m + rows, weigh);
    }
  }

  lemma {:induction false} SumOfWeights<K, V>(m: map<K, V>, a: (K, V) -> int, b: (K, V) -> int, both: (K, V) -> int)
    requires forall k :: k in m ==> both(k, m[k]) == a(k, m[k]) + b(k, m[k])
    ensures Sum(m, both) == Sum(m, a) + Sum(m, b)
    decreases |m|
  {
    if m != map[] {
      var k := Pick(m.Keys);
      assert (m - {k}).Keys == m.Keys - {k};
      SumOfWeights(m - {k}, a, b, both);
    }
  }
}
