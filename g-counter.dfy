/**
 The G-Counter of g-counter.go: a grow-only counter that owns one replica
 identity and records, per replica identity, the count that replica reached.
 Increments go to the counter's own entry; merging takes the per-replica
 maximum and inserts replicas it has not seen yet.
 */
module IdentGCounter {
  import opened CounterMaps

  /** How a call ended: normally, or with a Go panic carrying its message. */
  datatype Outcome = Ok | Panic(message: string)

  const NegativeIncrement := "cannot decrement a gcounter"

  /**
   The state `Merge(c)` leaves in a counter holding `a` when `c` holds `b`:
   every key of either map, each with the larger of its counts.
   It is the least map above both (see `JoinLeast`).
   */
  function Join(a: Counts, b: Counts): (r: Counts)
    ensures r.Keys == a.Keys + b.Keys
    ensures Dominates(r, a) && Dominates(r, b)
    ensures forall k :: k in r ==> (k in a && r[k] == a[k]) || (k in b && r[k] == b[k])
  {
    map k | k in a.Keys + b.Keys ::
      if k in b && (k !in a || a[k] < b[k]) then b[k] else a[k]
  }

  class GCounter {
    /** This replica's identity; its generation is not part of the model. */
    const ident: string
    /** Replica identity to the count that replica reached. */
    var counter: Counts

    /** NewGCounter, with the identity supplied by the caller. */
    constructor (ident: string)
      ensures this.ident == ident && counter == map[]
    {
      this.ident := ident;
      counter := map[];
    }

    /** Adds 1 to this replica's entry. */
    method Inc()
      modifies this
      ensures counter == old(counter)[ident := Lookup(old(counter), ident) + 1]
      ensures Sum(counter) == old(Sum(counter)) + 1
    {
      var outcome := IncVal(1);
    }

    /**
     Adds `incr` to this replica's entry (a missing entry counts as 0).
     A negative `incr` panics before anything changes.
     */
    method IncVal(incr: int) returns (outcome: Outcome)
      modifies this
      ensures incr < 0 ==> outcome == Panic(NegativeIncrement) && counter == old(counter)
      ensures incr >= 0 ==> outcome == Ok
      ensures incr >= 0 ==> counter == old(counter)[ident := Lookup(old(counter), ident) + incr]
      ensures Sum(counter) == old(Sum(counter)) + (if incr < 0 then 0 else incr)
      ensures NonNeg(old(counter)) ==> NonNeg(counter)
    {
      if incr < 0 {
        return Panic(NegativeIncrement);
      }
      SumUpdate(counter, ident, Lookup(counter, ident) + incr);
      counter := counter[ident := Lookup(counter, ident) + incr];
      outcome := Ok;
    }

    /** The total over all replicas: the sum of the map's values. */
    method Count() returns (total: int)
      ensures total == Sum(counter)
      ensures NonNeg(counter) ==> total >= 0
    {
      total := 0;
      var rest := counter;
      while rest != map[]
        invariant total + Sum(rest) == Sum(counter)
        decreases |rest|
      {
        var k :| k in rest;
        SumRemove(rest, k);
        RemoveSize(rest, k);
        total := total + rest[k];
        rest := rest - {k};
      }
      if NonNeg(counter) {
        SumNonNeg(counter);
      }
    }

    /**
     Folds `c`'s entries into this counter, keeping the larger count per
     replica and inserting replicas missing here. `c` may be this counter.
     */
    method Merge(c: GCounter)
      modifies this
      ensures counter == Join(old(counter), old(c.counter))
      ensures forall k :: k in old(c.counter) ==>
        counter[k] == if k in old(counter) && old(c.counter)[k] <= old(counter)[k]
                      then old(counter)[k] else old(c.counter)[k]
      ensures forall k :: k in old(counter) && k !in old(c.counter) ==> counter[k] == old(counter)[k]
      ensures counter.Keys == old(counter).Keys + old(c.counter).Keys
      ensures c == this ==> counter == old(counter)
    {
      var source := c.counter;
      var todo := source.Keys;
      while todo != {}
        invariant todo <= source.Keys
        invariant counter == Join(old(counter), source - todo)
        decreases todo
      {
        var id :| id in todo;
        var val := source[id];
        if id !in counter || counter[id] < val {
          counter := counter[id := val];
        }
        todo := todo - {id};
      }
      assert source - {} == source;
      if c == this {
        JoinSelf(source);
      }
    }
  }

  /** Merging a counter into itself changes nothing. */
  lemma JoinSelf(a: Counts)
    ensures Join(a, a) == a
  {
  }

  /** Merging the same state twice is the same as merging it once. */
  lemma JoinIdempotent(a: Counts, b: Counts)
    ensures Join(Join(a, b), b) == Join(a, b)
  {
  }

  /** Merging A into B gives the same map as merging B into A. */
  lemma JoinCommutative(a: Counts, b: Counts)
    ensures Join(a, b) == Join(b, a)
  {
  }

  /** The order in which three replicas are merged does not matter. */
  lemma JoinAssociative(a: Counts, b: Counts, c: Counts)
    ensures Join(Join(a, b), c) == Join(a, Join(b, c))
  {
  }

  /** The merge is the least upper bound: any map above both is above their join. */
  lemma JoinLeast(a: Counts, b: Counts, m: Counts)
    requires Dominates(m, a) && Dominates(m, b)
    ensures Dominates(m, Join(a, b))
  {
  }

  /** Merging counters that only grew keeps every entry non-negative. */
  lemma JoinNonNeg(a: Counts, b: Counts)
    requires NonNeg(a) && NonNeg(b)
    ensures NonNeg(Join(a, b))
  {
  }

  /** A merge never lowers the count: the result is at least either prior count. */
  lemma JoinCountBounds(a: Counts, b: Counts)
    requires NonNeg(a) && NonNeg(b)
    ensures Sum(Join(a, b)) >= Sum(a) && Sum(Join(a, b)) >= Sum(b)
  {
    var r := Join(a, b);
    SumLe(a, r);
    SumLe(b, r);
  }

  /** TestGCounter_Inc: a fresh counter reads 1 after Inc and 6 after a further IncVal(5). */
  method IncScenario(ident: string) returns (afterInc: int, afterIncVal: int)
    ensures afterInc == 1 && afterIncVal == 6
  {
    var g := new GCounter(ident);
    g.Inc();
    afterInc := g.Count();
    var outcome := g.IncVal(5);
    afterIncVal := g.Count();
  }

  /** TestGCounter_Merge: replicas with distinct identities at 3 and 5 merge to 8. */
  method MergeScenario(ident1: string, ident2: string) returns (merged: int)
    requires ident1 != ident2
    ensures merged == 8
  {
    var g1 := new GCounter(ident1);
    var g2 := new GCounter(ident2);
    var o1 := g1.IncVal(3);
    var o2 := g2.IncVal(5);
    g1.Merge(g2);
    assert g1.counter == map[ident1 := 3][ident2 := 5];
    SumUpdate(map[ident1 := 3], ident2, 5);
    merged := g1.Count();
  }

  /** Sequential analogue of the concurrent test: n unit increments read n. */
  method RepeatedIncScenario(ident: string, n: nat) returns (total: int)
    ensures total == n
  {
    var g := new GCounter(ident);
    var i := 0;
    while i < n
      invariant 0 <= i <= n
      invariant Sum(g.counter) == i
    {
      g.Inc();
      i := i + 1;
    }
    total := g.Count();
  }
}
