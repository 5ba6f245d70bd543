/**
 The G-Counter of gcounter.go: a map from node identifier to count with no
 identity of its own. `Increment` adds to any node the caller names, with
 no sign check. `Merge` raises a node's entry only when the other
 counter's count is above the local one read with a missing key as 0, so
 a node absent here is inserted only with a positive count.
 */
module NodeGCounter {
  import opened CounterMaps

  /**
   The state `Merge(other)` leaves in a counter holding `a` when `other`
   holds `b`: each node of `b` whose count is above `a`'s (missing read as
   0) takes `b`'s count, and every other entry of `a` stays.
   */
  function Merged(a: Counts, b: Counts): (r: Counts)
    ensures forall k :: k in r <==> k in a || (k in b && b[k] > 0)
    ensures forall k :: k in b ==> Lookup(r, k) == if b[k] > Lookup(a, k) then b[k] else Lookup(a, k)
    ensures forall k :: k in a && (k !in b || b[k] <= a[k]) ==> r[k] == a[k]
  {
    map k | k in a.Keys + b.Keys && (k in a || b[k] > Lookup(a, k)) ::
      if k in b && b[k] > Lookup(a, k) then b[k] else a[k]
  }

  class GCounter {
    /** Node identifier to that node's count. */
    var counts: Counts

    /** NewGCounter. */
    constructor ()
      ensures counts == map[]
    {
      counts := map[];
    }

    /** Adds `value`, of either sign, to `nodeID`'s entry (a missing entry counts as 0). */
    method Increment(nodeID: string, value: int)
      modifies this
      ensures counts == old(counts)[nodeID := Lookup(old(counts), nodeID) + value]
      ensures Sum(counts) == old(Sum(counts)) + value
    {
      SumUpdate(counts, nodeID, Lookup(counts, nodeID) + value);
      counts := counts[nodeID := Lookup(counts, nodeID) + value];
    }

    /** The total over all nodes: the sum of the map's values. */
    method Value() returns (total: int)
      ensures total == Sum(counts)
      ensures NonNeg(counts) ==> total >= 0
    {
      total := 0;
      var rest := counts;
      while rest != map[]
        invariant total + Sum(rest) == Sum(counts)
        decreases |rest|
      {
        var k :| k in rest;
        SumRemove(rest, k);
        RemoveSize(rest, k);
        total := total + rest[k];
        rest := rest - {k};
      }
      if NonNeg(counts) {
        SumNonNeg(counts);
      }
    }

    /**
     Takes the max count per node from `other`, reading missing entries as 0.
     `other` may be this counter.
     */
    method Merge(other: GCounter)
      modifies this
      ensures counts == Merged(old(counts), old(other.counts))
      ensures forall k :: k in old(other.counts) ==>
        Lookup(counts, k) == if old(other.counts)[k] > Lookup(old(counts), k)
                             then old(other.counts)[k] else Lookup(old(counts), k)
      ensures forall k :: k !in old(other.counts) ==> Lookup(counts, k) == Lookup(old(counts), k)
      ensures DominatesAt0(counts, old(counts))
      ensures Sum(counts) >= old(Sum(counts))
      ensures other == this ==> counts == old(counts)
    {
      var source := other.counts;
      var todo := source.Keys;
      while todo != {}
        invariant todo <= source.Keys
        invariant counts == Merged(old(counts), source - todo)
        decreases todo
      {
        var nodeID :| nodeID in todo;
        var count := source[nodeID];
        MergedStep(old(counts), source, todo, nodeID);
        if count > Lookup(counts, nodeID) {
          counts := counts[nodeID := count];
        }
        todo := todo - {nodeID};
      }
      assert source - {} == source;
      MergedMonotone(old(counts), source);
      MergedValueGrows(old(counts), source);
      if other == this {
        MergedSelf(source);
      }
    }
  }

  /** One iteration of Merge's loop: folding in one more node of `b`. */
  lemma MergedStep(a: Counts, b: Counts, todo: set<string>, k: string)
    requires k in todo && todo <= b.Keys
    ensures var m := Merged(a, b - todo);
      Merged(a, b - (todo - {k})) == if b[k] > Lookup(m, k) then m[k := b[k]] else m
  {
  }

  /** Merging a counter into itself changes nothing. */
  lemma MergedSelf(a: Counts)
    ensures Merged(a, a) == a
  {
  }

  /** A second merge of the same state changes nothing. */
  lemma MergedIdempotent(a: Counts, b: Counts)
    ensures Merged(Merged(a, b), b) == Merged(a, b)
  {
  }

  /** A merge never lowers any local entry, missing entries read as 0. */
  lemma MergedMonotone(a: Counts, b: Counts)
    ensures DominatesAt0(Merged(a, b), a)
  {
  }

  /**
   The merged entry per node is the max of the two, missing entries read as 0,
   whenever the target only grew; the other counter may hold any sign.
   */
  lemma MergedIsMax(a: Counts, b: Counts, k: string)
    requires NonNeg(a)
    ensures Lookup(Merged(a, b), k) == if Lookup(a, k) < Lookup(b, k) then Lookup(b, k) else Lookup(a, k)
  {
  }

  /** For counters that only grew, merging A into B agrees with merging B into A. */
  lemma MergedCommutative(a: Counts, b: Counts)
    requires NonNeg(a) && NonNeg(b)
    ensures SameAt0(Merged(a, b), Merged(b, a))
  {
  }

  /**
   The grouping of three merges does not matter, as raw maps; only the target
   of both merges needs non-negative entries.
   */
  lemma MergedAssociative(a: Counts, b: Counts, c: Counts)
    requires NonNeg(a)
    ensures Merged(Merged(a, b), c) == Merged(a, Merged(b, c))
  {
  }

  /** With no sign check on Increment, a negative entry breaks commutativity. */
  lemma MergedNotCommutativeWithNegative()
    ensures Merged(map["node1" := -1], map[]) == map["node1" := -1]
    ensures Merged(map[], map["node1" := -1]) == map[]
  {
  }

  /** A merge never lowers the local total; for a target that only grew, nor below the other's. */
  lemma MergedValueGrows(a: Counts, b: Counts)
    ensures Sum(Merged(a, b)) >= Sum(a)
    ensures NonNeg(a) ==> Sum(Merged(a, b)) >= Sum(b)
  {
    var r := Merged(a, b);
    SumLe(a, r);
    if NonNeg(a) {
      SumLe(b, r);
    }
  }

  /** For counters that only grew, both merge orders reach the same total. */
  lemma MergedValueCommutative(a: Counts, b: Counts)
    requires NonNeg(a) && NonNeg(b)
    ensures Sum(Merged(a, b)) == Sum(Merged(b, a))
  {
    MergedCommutative(a, b);
    SumSameAt0(Merged(a, b), Merged(b, a));
  }

  /** TestGCounterIncrement: node1 incremented by 5 reads 5. */
  method IncrementScenario() returns (total: int)
    ensures total == 5
  {
    var g := new GCounter();
    g.Increment("node1", 5);
    total := g.Value();
  }

  /** TestGCounterMerge: {node1: 5} merged with {node1: 3, node2: 4} reads 9. */
  method MergeScenario() returns (total: int)
    ensures total == 9
  {
    var g1 := new GCounter();
    g1.Increment("node1", 5);
    var g2 := new GCounter();
    g2.Increment("node1", 3);
    g2.Increment("node2", 4);
    g1.Merge(g2);
    assert g1.counts == map["node1" := 5]["node2" := 4];
    SumUpdate(map["node1" := 5], "node2", 4);
    total := g1.Value();
  }
}
