/**
 The PN-Counter of pncounter.go: two node-keyed G-Counters of gcounter.go,
 `inc` for increments and `dec` for decrements. Its value is the first
 total minus the second; merging merges `inc` with `inc` and `dec` with
 `dec`.
 */
module NodePNCounter {
  import opened CounterMaps
  import opened NodeGCounter

  class PNCounter {
    const inc: GCounter
    const dec: GCounter

    /** The two components are separate objects, as NewPNCounter allocates them. */
    ghost predicate Valid()
      reads this
    {
      inc != dec
    }

    /** The net value: increments total minus decrements total. */
    ghost function Net(): int
      reads this, inc, dec
    {
      Sum(inc.counts) - Sum(dec.counts)
    }

    /** NewPNCounter. */
    constructor ()
      ensures Valid() && fresh(inc) && fresh(dec)
      ensures inc.counts == map[] && dec.counts == map[]
    {
      inc := new GCounter();
      dec := new GCounter();
    }

    /** Adds `value` to `nodeID`'s entry of `inc` only. */
    method Increment(nodeID: string, value: int)
      requires Valid()
      modifies inc
      ensures inc.counts == old(inc.counts)[nodeID := Lookup(old(inc.counts), nodeID) + value]
      ensures dec.counts == old(dec.counts)
      ensures Net() == old(Net()) + value
    {
      inc.Increment(nodeID, value);
    }

    /** Adds `value` to `nodeID`'s entry of `dec` only, lowering the value by `value`. */
    method Decrement(nodeID: string, value: int)
      requires Valid()
      modifies dec
      ensures dec.counts == old(dec.counts)[nodeID := Lookup(old(dec.counts), nodeID) + value]
      ensures inc.counts == old(inc.counts)
      ensures Net() == old(Net()) - value
    {
      dec.Increment(nodeID, value);
    }

    /** The increments total minus the decrements total. */
    method Value() returns (v: int)
      ensures v == Sum(inc.counts) - Sum(dec.counts)
    {
      var p := inc.Value();
      var n := dec.Value();
      v := p - n;
    }

    /**
     Merges `inc` with `other.inc` and `dec` with `other.dec`. `other` may be
     this counter; it may not use this counter's `inc` as its `dec`, since
     `inc` has already changed when the second merge reads it.
     */
    method Merge(other: PNCounter)
      requires Valid()
      requires other.dec != inc
      modifies inc, dec
      ensures inc.counts == Merged(old(inc.counts), old(other.inc.counts))
      ensures dec.counts == Merged(old(dec.counts), old(other.dec.counts))
      ensures DominatesAt0(inc.counts, old(inc.counts)) && DominatesAt0(dec.counts, old(dec.counts))
    {
      inc.Merge(other.inc);
      dec.Merge(other.dec);
    }
  }

  /**
   Merging the same PN-Counter twice leaves both components as one merge does.
   `other` may be `pn`; its `inc` must not be `pn`'s `dec`, which the first
   merge changes.
   */
  method MergeTwice(pn: PNCounter, other: PNCounter)
    requires pn.Valid()
    requires other.dec != pn.inc && other.inc != pn.dec
    modifies pn.inc, pn.dec
    ensures pn.inc.counts == Merged(old(pn.inc.counts), old(other.inc.counts))
    ensures pn.dec.counts == Merged(old(pn.dec.counts), old(other.dec.counts))
  {
    pn.Merge(other);
    pn.Merge(other);
    MergedIdempotent(old(pn.inc.counts), old(other.inc.counts));
    MergedIdempotent(old(pn.dec.counts), old(other.dec.counts));
  }

  /** A fresh PN-Counter reads -1 after one Decrement by 1: the value may be negative. */
  method NegativeScenario() returns (v: int)
    ensures v == -1
  {
    var pn := new PNCounter();
    pn.Decrement("node1", 1);
    v := pn.Value();
  }

  /** TestPNCounterIncrementDecrement: Increment(node1, 5) then Decrement(node1, 2) reads 3. */
  method IncrementDecrementScenario() returns (v: int)
    ensures v == 3
  {
    var pn := new PNCounter();
    pn.Increment("node1", 5);
    pn.Decrement("node1", 2);
    v := pn.Value();
  }

  /** TestPNCounterMerge: {node2: +3, -1} merged into {node1: +5, -2} reads 5. */
  method MergeScenario() returns (v: int)
    ensures v == 5
  {
    var pn1 := new PNCounter();
    pn1.Increment("node1", 5);
    pn1.Decrement("node1", 2);
    var pn2 := new PNCounter();
    pn2.Increment("node2", 3);
    pn2.Decrement("node2", 1);
    pn1.Merge(pn2);
    assert pn1.inc.counts == map["node1" := 5]["node2" := 3];
    assert pn1.dec.counts == map["node1" := 2]["node2" := 1];
    SumUpdate(map["node1" := 5], "node2", 3);
    SumUpdate(map["node1" := 2], "node2", 1);
    v := pn1.Value();
  }
}
