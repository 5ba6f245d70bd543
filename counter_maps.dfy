/**
 Count maps as both G-Counter versions store them: a finite map from a
 replica or node identifier to that replica's count, and the facts about
 their totals that the counters rely on.

 Go iterates a map in an unspecified order; `Sum` picks its keys in an
 arbitrary order too, and `SumRemove` shows that the order does not matter.
 */
module CounterMaps {

  type Counts = map<string, int>

  /** The count stored under `k`, reading a missing key as 0 (Go's zero value for `int`). */
  function Lookup(m: Counts, k: string): int
  {
    if k in m then m[k] else 0
  }

  /** Every entry is non-negative, as in a counter that only ever grew. */
  ghost predicate NonNeg(m: Counts)
  {
    forall k :: k in m ==> m[k] >= 0
  }

  /** `big` has every key of `small`, each with at least the same count. */
  ghost predicate Dominates(big: Counts, small: Counts)
  {
    forall k :: k in small ==> k in big && small[k] <= big[k]
  }

  /** With missing keys read as 0, no entry of `big` is below that of `small`. */
  ghost predicate DominatesAt0(big: Counts, small: Counts)
  {
    forall k :: Lookup(small, k) <= Lookup(big, k)
  }

  /** The two maps agree on every key once missing keys are read as 0. */
  ghost predicate SameAt0(m1: Counts, m2: Counts)
  {
    forall k :: Lookup(m1, k) == Lookup(m2, k)
  }

  /** The total of all entries of `m`, taking the keys in an arbitrary order. */
  ghost function Sum(m: Counts): int
    decreases |m|
  {
    if m == map[] then 0
    else
      var k :| k in m;
      assert (m - {k}).Keys == m.Keys - {k};
      m[k] + Sum(m - {k})
  }

  /** Taking a present key out shrinks the map by one. */
  lemma RemoveSize(m: Counts, k: string)
    requires k in m
    ensures |m - {k}| == |m| - 1
  {
  }

  /** Order independence: any key may be taken out first. */
  lemma {:induction false} SumRemove(m: Counts, k: string)
    requires k in m
    ensures Sum(m) == m[k] + Sum(m - {k})
    decreases |m|
  {
    var j :| j in m && Sum(m) == m[j] + Sum(m - {j});
    if j != k {
      RemoveSize(m, j);
      RemoveSize(m, k);
      SumRemove(m - {j}, k);
      SumRemove(m - {k}, j);
      assert m - {j} - {k} == m - {k} - {j};
    }
  }

  /** Writing `v` under `k` changes the total by `v` minus what `k` held. */
  lemma SumUpdate(m: Counts, k: string, v: int)
    ensures Sum(m[k := v]) == Sum(m) - Lookup(m, k) + v
  {
    SumRemove(m[k := v], k);
    assert m[k := v] - {k} == m - {k};
    if k in m {
      SumRemove(m, k);
    } else {
      assert m - {k} == m;
    }
  }

  /** A map of non-negative entries has a non-negative total. */
  lemma {:induction false} SumNonNeg(m: Counts)
    requires NonNeg(m)
    ensures Sum(m) >= 0
    decreases |m|
  {
    if m != map[] {
      var k :| k in m;
      SumRemove(m, k);
      RemoveSize(m, k);
      SumNonNeg(m - {k});
    }
  }

  /**
   The total grows with the entries: if each entry of `m1` is at most the
   count `m2` holds for it (missing keys read as 0) and the keys only `m2`
   has carry non-negative counts, `m1`'s total is at most `m2`'s.
   */
  lemma {:induction false} SumLe(m1: Counts, m2: Counts)
    requires forall k :: k in m1 ==> m1[k] <= Lookup(m2, k)
    requires forall k :: k in m2 && k !in m1 ==> m2[k] >= 0
    ensures Sum(m1) <= Sum(m2)
    decreases |m1|
  {
    if m1 == map[] {
      SumNonNeg(m2);
    } else {
      var k :| k in m1;
      SumRemove(m1, k);
      RemoveSize(m1, k);
      if k in m2 {
        SumRemove(m2, k);
        RemoveSize(m2, k);
        SumLe(m1 - {k}, m2 - {k});
      } else {
        SumLe(m1 - {k}, m2);
      }
    }
  }

  /** Maps that agree once missing keys read as 0 have the same total. */
  lemma SumSameAt0(m1: Counts, m2: Counts)
    requires SameAt0(m1, m2)
    ensures Sum(m1) == Sum(m2)
  {
    forall k | k in m1 ensures m1[k] <= Lookup(m2, k) {
      assert Lookup(m1, k) == Lookup(m2, k);
    }
    forall k | k in m2 && k !in m1 ensures m2[k] >= 0 {
      assert Lookup(m1, k) == Lookup(m2, k);
    }
    SumLe(m1, m2);
    forall k | k in m2 ensures m2[k] <= Lookup(m1, k) {
      assert Lookup(m1, k) == Lookup(m2, k);
    }
    forall k | k in m1 && k !in m2 ensures m1[k] >= 0 {
      assert Lookup(m1, k) == Lookup(m2, k);
    }
    SumLe(m2, m1);
  }
}
