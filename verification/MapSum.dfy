/** Sums over finite maps, for counters that must equal what they count. */
module MapSum {

  ghost function Pick<K>(m: map<K, int>): (k: K)
    requires m != map[]
    ensures k in m
  {
    var k :| k in m; k
  }

  ghost function Sum<K>(m: map<K, int>): int {
    if m == map[] then 0 else var k := Pick(m); m[k] + Sum(m - {k})
  }

  /** Counting: what a condition contributes to a sum. */
  function One(b: bool): int { if b then 1 else 0 }

  /** Any key can be taken out first. */
  lemma {:induction false} SumAt<K>(m: map<K, int>, k: K)
    requires k in m
    ensures Sum(m) == m[k] + Sum(m - {k})
    decreases |m|
  {
    var c := Pick(m);
    if c != k {
      assert |m - {c}| < |m| by { assert m.Keys == (m - {c}).Keys + {c}; }
      assert |m - {k}| < |m| by { assert m.Keys == (m - {k}).Keys + {k}; }
      SumAt(m - {c}, k);
      SumAt(m - {k}, c);
      assert m - {c} - {k} == m - {k} - {c};
    }
  }

  lemma SumUpdate<K>(m: map<K, int>, k: K, v: int)
    ensures Sum(m[k := v]) == Sum(m) + v - if k in m then m[k] else 0
  {
    SumAt(m[k := v], k);
    assert m[k := v] - {k} == m - {k};
    if k in m {
      SumAt(m, k);
    } else {
      assert m - {k} == m;
    }
  }

  lemma SumRemove<K>(m: map<K, int>, k: K)
    ensures Sum(m - {k}) == Sum(m) - if k in m then m[k] else 0
  {
    if k in m {
      SumAt(m, k);
    } else {
      assert m - {k} == m;
    }
  }

  /** A sum of naturals is at least each of them, and zero only if all are. */
  lemma {:induction false} SumBounds<K>(m: map<K, int>, k: K)
    requires forall x :: x in m ==> m[x] >= 0
    ensures Sum(m) >= 0
    ensures k in m ==> m[k] <= Sum(m)
    decreases |m|
  {
    if m != map[] {
      var c := if k in m then k else Pick(m);
      SumAt(m, c);
      assert |m - {c}| < |m| by { assert m.Keys == (m - {c}).Keys + {c}; }
      SumBounds(m - {c}, c);
    }
  }

  lemma {:induction false} SumZero<K>(m: map<K, int>)
    requires forall x :: x in m ==> m[x] == 0
    ensures Sum(m) == 0
    decreases |m|
  {
    if m != map[] {
      var c := Pick(m);
      assert |m - {c}| < |m| by { assert m.Keys == (m - {c}).Keys + {c}; }
      SumZero(m - {c});
    }
  }

  lemma SizeUpdate<K, V>(m: map<K, V>, k: K, v: V)
    ensures |m[k := v]| == |m| + if k in m then 0 else 1
  {
    assert m[k := v].Keys == m.Keys + {k};
    assert |m| == |m.Keys| && |m[k := v]| == |m[k := v].Keys|;
  }

  lemma SizeRemove<K, V>(m: map<K, V>, k: K)
    requires k in m
    ensures |m - {k}| == |m| - 1
  {
    assert m.Keys == (m - {k}).Keys + {k};
    assert |m| == |m.Keys| && |m - {k}| == |(m - {k}).Keys|;
  }
}
