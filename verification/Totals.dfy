/** Sums over the values of a finite map: the model's COUNT and SUM aggregates. */
module Totals {

  ghost function Total<K>(m: map<K, nat>): (total: nat)
    decreases |m|
  {
    if m == map[] then 0
    else
      var k :| k in m;
      RemoveShrinks(m, k);
      m[k] + Total(m - {k})
  }

  lemma RemoveShrinks<K>(m: map<K, nat>, k: K)
    requires k in m
    ensures |m - {k}| < |m|
  {
    assert (m - {k}).Keys == m.Keys - {k};
    assert |m.Keys| == |m| && |(m - {k}).Keys| == |m - {k}|;
  }

  /** Any key may be taken out first. */
  lemma {:induction false} TotalSplit<K>(m: map<K, nat>, k: K)
    requires k in m
    ensures Total(m) == m[k] + Total(m - {k})
    decreases |m|
  {
    var c :| c in m && Total(m) == m[c] + Total(m - {c});
    if c != k {
      RemoveShrinks(m, c);
      RemoveShrinks(m, k);
      TotalSplit(m - {c}, k);
      TotalSplit(m - {k}, c);
      assert m - {c} - {k} == m - {k} - {c};
    }
  }

  /** Writing one key changes the total by the difference at that key. */
  lemma TotalUpdate<K>(m: map<K, nat>, k: K, v: nat)
    ensures Total(m[k := v]) + (if k in m then m[k] else 0) == Total(m) + v
  {
    var n := m[k := v];
    TotalSplit(n, k);
    if k in m {
      TotalSplit(m, k);
      assert n - {k} == m - {k};
    } else {
      assert n - {k} == m;
    }
  }

  lemma {:induction false} TotalZero<K>(m: map<K, nat>)
    requires forall k :: k in m ==> m[k] == 0
    ensures Total(m) == 0
    decreases |m|
  {
    if m != map[] {
      var k :| k in m;
      TotalSplit(m, k);
      RemoveShrinks(m, k);
      TotalZero(m - {k});
    }
  }

  lemma {:induction false} TotalMonotone<K>(a: map<K, nat>, b: map<K, nat>)
    requires forall k :: k in a ==> k in b && a[k] <= b[k]
    ensures Total(a) <= Total(b)
    decreases |a|
  {
    if a != map[] {
      var k :| k in a;
      TotalSplit(a, k);
      TotalSplit(b, k);
      RemoveShrinks(a, k);
      TotalMonotone(a - {k}, b - {k});
    }
  }

  /**
   * If every key of a that weighs anything is covered by a pair of b that starts
   * with that key, the whole of a weighs at most the whole of b.
   */
  lemma {:induction false} TotalCovered<K, L>(a: map<K, nat>, b: map<(K, L), nat>)
    requires forall k :: k in a && a[k] > 0 ==> exists l :: (k, l) in b && a[k] <= b[(k, l)]
    ensures Total(a) <= Total(b)
    decreases |a|
  {
    if a != map[] {
      var k :| k in a;
      TotalSplit(a, k);
      RemoveShrinks(a, k);
      if a[k] == 0 {
        TotalCovered(a - {k}, b);
      } else {
        var l :| (k, l) in b && a[k] <= b[(k, l)];
        var c := b - {(k, l)};
        forall j | j in a - {k} && (a - {k})[j] > 0
          ensures exists i :: (j, i) in c && (a - {k})[j] <= c[(j, i)]
        {
          var i :| (j, i) in b && a[j] <= b[(j, i)];
          assert (j, i) in c;
        }
        TotalCovered(a - {k}, c);
        TotalSplit(b, (k, l));
      }
    }
  }

  /** A total splits along any partition of the keys. */
  lemma {:induction false} TotalPartition<K>(m: map<K, nat>, a: map<K, nat>, b: map<K, nat>)
    requires forall k :: k in m <==> k in a || k in b
    requires forall k :: k in a ==> k !in b && a[k] == m[k]
    requires forall k :: k in b ==> b[k] == m[k]
    ensures Total(m) == Total(a) + Total(b)
    decreases |a|
  {
    hide Total;
    if a == map[] {
      assert m == b;
      TotalZero(a);
    } else {
      var k :| k in a;
      TotalSplit(m, k);
      TotalSplit(a, k);
      RemoveShrinks(a, k);
      TotalPartition(m - {k}, a - {k}, b);
    }
  }

  lemma {:induction false} TotalSum<K>(m: map<K, nat>, a: map<K, nat>, b: map<K, nat>)
    requires forall k :: (k in m <==> k in a) && (k in m <==> k in b)
    requires forall k :: k in m ==> m[k] == a[k] + b[k]
    ensures Total(m) == Total(a) + Total(b)
    decreases |m|
  {
    hide Total;
    if m == map[] {
      TotalZero(m);
      TotalZero(a);
      TotalZero(b);
    } else {
      var k :| k in m;
      TotalSplit(m, k);
      TotalSplit(a, k);
      TotalSplit(b, k);
      RemoveShrinks(m, k);
      TotalSum(m - {k}, a - {k}, b - {k});
    }
  }
}
