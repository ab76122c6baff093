/** Sums over the values of a finite map. */
module Sums {

  function Max(a: int, b: int): int {
    if a < b then b else a
  }

  ghost function Sum<K>(m: map<K, int>): int
    decreases |m|
  {
    if m == map[] then 0 else
    var k :| k in m;
    m[k] + Sum(m - {k})
  }

  lemma {:induction false} SumTake<K>(m: map<K, int>, k: K)
    requires k in m
    ensures Sum(m) == m[k] + Sum(m - {k})
    decreases |m|
  {
    var j :| j in m && Sum(m) == m[j] + Sum(m - {j});
    if j != k {
      SumTake(m - {j}, k);
      SumTake(m - {k}, j);
      assert m - {j} - {k} == m - {k} - {j};
    }
  }

  /** Pointwise growth, new non-negative entries included, grows the sum. */
  lemma {:induction false} SumMonotone<K>(m: map<K, int>, n: map<K, int>)
    requires forall k :: k in m ==> k in n && m[k] <= n[k]
    requires forall k :: k in n && k !in m ==> 0 <= n[k]
    ensures Sum(m) <= Sum(n)
    decreases |n|
  {
    if n == map[] {
      assert m == map[];
    } else {
      var k :| k in n;
      SumTake(n, k);
      SumMonotone(m - {k}, n - {k});
      if k in m {
        SumTake(m, k);
      } else {
        assert m - {k} == m;
      }
    }
  }

  /** Entries that are zero on both sides of an inclusion do not matter. */
  lemma {:induction false} SumIgnoresZeros<K>(m: map<K, int>, n: map<K, int>)
    requires forall k :: k in m ==> k in n && m[k] == n[k]
    requires forall k :: k in n && k !in m ==> n[k] == 0
    ensures Sum(m) == Sum(n)
    decreases |n|
  {
    if n == map[] {
      assert m == map[];
    } else {
      var k :| k in n;
      SumTake(n, k);
      SumIgnoresZeros(m - {k}, n - {k});
      if k in m {
        SumTake(m, k);
      } else {
        assert m - {k} == m;
      }
    }
  }

  /** Adding pointwise adds the sums. */
  lemma {:induction false} SumPlus<K>(m: map<K, int>, n: map<K, int>, both: map<K, int>)
    requires m.Keys == n.Keys == both.Keys
    requires forall k :: k in m ==> both[k] == m[k] + n[k]
    ensures Sum(both) == Sum(m) + Sum(n)
    decreases |m|
  {
    if m == map[] {
      assert n == map[] && both == map[];
    } else {
      var k :| k in m;
      SumTake(m, k);
      SumTake(n, k);
      SumTake(both, k);
      SumPlus(m - {k}, n - {k}, both - {k});
    }
  }

  /** A map splits into the part on some keys and the rest. */
  lemma {:induction false} SumPartition<K>(m: map<K, int>, some: set<K>)
    ensures Sum(m) == Sum(map k | k in m && k in some :: m[k]) + Sum(map k | k in m && k !in some :: m[k])
    decreases |m|
  {
    var inside := map k | k in m && k in some :: m[k];
    var outside := map k | k in m && k !in some :: m[k];
    if m == map[] {
      assert inside == map[] && outside == map[];
    } else {
      var k :| k in m;
      SumTake(m, k);
      SumPartition(m - {k}, some);
      var rest := m - {k};
      if k in some {
        SumTake(inside, k);
        assert inside - {k} == map j | j in rest && j in some :: rest[j];
        assert outside == map j | j in rest && j !in some :: rest[j];
      } else {
        SumTake(outside, k);
        assert outside - {k} == map j | j in rest && j !in some :: rest[j];
        assert inside == map j | j in rest && j in some :: rest[j];
      }
    }
  }

  /** Tagging every key with the same label keeps the sum. */
  lemma {:induction false} SumTagged<T, K>(tag: T, m: map<K, int>, n: map<(T, K), int>)
    requires forall k :: k in m ==> (tag, k) in n && n[(tag, k)] == m[k]
    requires forall x :: x in n ==> x.0 == tag && x.1 in m
    ensures Sum(m) == Sum(n)
    decreases |m|
  {
    if m == map[] {
      assert forall x :: x in n ==> x.1 in m;
      assert n == map[];
    } else {
      var k :| k in m;
      SumTake(m, k);
      SumTake(n, (tag, k));
      SumTagged(tag, m - {k}, n - {(tag, k)});
    }
  }

  lemma SumNonNegative<K>(m: map<K, int>)
    requires forall k :: k in m ==> 0 <= m[k]
    ensures 0 <= Sum(m)
  {
    var none: map<K, int> := map[];
    SumMonotone(none, m);
  }

  /** `sum(values)` as a loop over the entries. */
  method Total<K>(m: map<K, int>) returns (total: int)
    ensures total == Sum(m)
  {
    total := 0;
    var rest := m;
    while rest.Keys != {}
      invariant total + Sum(rest) == Sum(m)
      decreases |rest|
    {
      var k :| k in rest.Keys;
      SumTake(rest, k);
      total := total + rest[k];
      rest := rest - {k};
    }
    assert rest == map[];
  }
}
