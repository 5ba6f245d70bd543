/**
 The PN-Counter of pn-counter.go: two G-Counters of g-counter.go, one
 recording increments (`pCounter`) and one recording decrements
 (`nCounter`). Its value is the first total minus the second; merging
 merges each component with its counterpart and nothing else.
 */
module IdentPNCounter {
  import opened CounterMaps
  import opened IdentGCounter

  const NegativeIncVal := "cannot increment with a negative value"
  const NegativeDecVal := "cannot decrement with a negative value"

  class PNCounter {
    /** Counter for increments. */
    const pCounter: GCounter
    /** Counter for decrements. */
    const nCounter: GCounter

    /** The two components are separate objects, as NewPNCounter allocates them. */
    ghost predicate Valid()
      reads this
    {
      pCounter != nCounter
    }

    /** The counter's value: positive total minus negative total; it may be negative. */
    ghost function Net(): int
      reads this, pCounter, nCounter
    {
      Sum(pCounter.counter) - Sum(nCounter.counter)
    }

    /** NewPNCounter, with the components' identities supplied by the caller. */
    constructor (pIdent: string, nIdent: string)
      ensures Valid() && fresh(pCounter) && fresh(nCounter)
      ensures pCounter.ident == pIdent && nCounter.ident == nIdent
      ensures pCounter.counter == map[] && nCounter.counter == map[]
    {
      pCounter := new GCounter(pIdent);
      nCounter := new GCounter(nIdent);
    }

    /** IncVal(1). */
    method Inc()
      requires Valid()
      modifies pCounter
      ensures pCounter.counter == old(pCounter.counter)[pCounter.ident := Lookup(old(pCounter.counter), pCounter.ident) + 1]
      ensures nCounter.counter == old(nCounter.counter)
      ensures Net() == old(Net()) + 1
    {
      var outcome := IncVal(1);
    }

    /**
     Adds `incr` to the positive component only. A negative `incr` panics
     before either component is touched.
     */
    method IncVal(incr: int) returns (outcome: Outcome)
      requires Valid()
      modifies pCounter
      ensures incr < 0 ==> outcome == Panic(NegativeIncVal) && pCounter.counter == old(pCounter.counter)
      ensures incr >= 0 ==> outcome == Ok
      ensures incr >= 0 ==>
        pCounter.counter == old(pCounter.counter)[pCounter.ident := Lookup(old(pCounter.counter), pCounter.ident) + incr]
      ensures nCounter.counter == old(nCounter.counter)
      ensures Net() == old(Net()) + (if incr < 0 then 0 else incr)
    {
      if incr < 0 {
        return Panic(NegativeIncVal);
      }
      outcome := pCounter.IncVal(incr);
    }

    /** DecVal(1). */
    method Dec()
      requires Valid()
      modifies nCounter
      ensures nCounter.counter == old(nCounter.counter)[nCounter.ident := Lookup(old(nCounter.counter), nCounter.ident) + 1]
      ensures pCounter.counter == old(pCounter.counter)
      ensures Net() == old(Net()) - 1
    {
      var outcome := DecVal(1);
    }

    /**
     Adds `decr` to the negative component only, lowering the value by `decr`.
     A negative `decr` panics before either component is touched.
     */
    method DecVal(decr: int) returns (outcome: Outcome)
      requires Valid()
      modifies nCounter
      ensures decr < 0 ==> outcome == Panic(NegativeDecVal) && nCounter.counter == old(nCounter.counter)
      ensures decr >= 0 ==> outcome == Ok
      ensures decr >= 0 ==>
        nCounter.counter == old(nCounter.counter)[nCounter.ident := Lookup(old(nCounter.counter), nCounter.ident) + decr]
      ensures pCounter.counter == old(pCounter.counter)
      ensures Net() == old(Net()) - (if decr < 0 then 0 else decr)
    {
      if decr < 0 {
        return Panic(NegativeDecVal);
      }
      outcome := nCounter.IncVal(decr);
    }

    /** The positive component's count minus the negative component's count. */
    method Count() returns (total: int)
      ensures total == Sum(pCounter.counter) - Sum(nCounter.counter)
    {
      var p := pCounter.Count();
      var n := nCounter.Count();
      total := p - n;
    }

    /**
     Merges positive into positive and negative into negative, with no
     cross terms. `other` may be this counter; what it may not do is use
     this counter's positive component as its negative one, since that
     component has already changed when the second merge reads it.
     */
    method Merge(other: PNCounter)
      requires Valid()
      requires other.nCounter != pCounter
      modifies pCounter, nCounter
      ensures pCounter.counter == Join(old(pCounter.counter), old(other.pCounter.counter))
      ensures nCounter.counter == Join(old(nCounter.counter), old(other.nCounter.counter))
      ensures Dominates(pCounter.counter, old(pCounter.counter)) && Dominates(pCounter.counter, old(other.pCounter.counter))
      ensures Dominates(nCounter.counter, old(nCounter.counter)) && Dominates(nCounter.counter, old(other.nCounter.counter))
    {
      pCounter.Merge(other.pCounter);
      nCounter.Merge(other.nCounter);
    }
  }

  /**
   Merging the same PN-Counter twice leaves both components as one merge does.
   `other` may be `pn`; its positive component must not be `pn`'s negative one,
   which the first merge changes.
   */
  method MergeTwice(pn: PNCounter, other: PNCounter)
    requires pn.Valid()
    requires other.nCounter != pn.pCounter && other.pCounter != pn.nCounter
    modifies pn.pCounter, pn.nCounter
    ensures pn.pCounter.counter == Join(old(pn.pCounter.counter), old(other.pCounter.counter))
    ensures pn.nCounter.counter == Join(old(pn.nCounter.counter), old(other.nCounter.counter))
  {
    pn.Merge(other);
    pn.Merge(other);
    JoinIdempotent(old(pn.pCounter.counter), old(other.pCounter.counter));
    JoinIdempotent(old(pn.nCounter.counter), old(other.nCounter.counter));
  }

  /** A fresh PN-Counter reads -1 after one Dec: the value may be negative. */
  method NegativeScenario(pIdent: string, nIdent: string) returns (afterDec: int)
    ensures afterDec == -1
  {
    var pn := new PNCounter(pIdent, nIdent);
    pn.Dec();
    afterDec := pn.Count();
  }

  /** TestPNCounter_Inc and TestPNCounter_Dec: Inc reads 1, a further Dec reads 0. */
  method IncDecScenario(pIdent: string, nIdent: string) returns (afterInc: int, afterDec: int)
    ensures afterInc == 1 && afterDec == 0
  {
    var pn := new PNCounter(pIdent, nIdent);
    pn.Inc();
    afterInc := pn.Count();
    pn.Dec();
    afterDec := pn.Count();
  }

  /** TestPNCounter_IncVal and TestPNCounter_DecVal: IncVal(5) reads 5, a further DecVal(2) reads 3. */
  method IncValDecValScenario(pIdent: string, nIdent: string) returns (afterInc: int, afterDec: int)
    ensures afterInc == 5 && afterDec == 3
  {
    var pn := new PNCounter(pIdent, nIdent);
    var o1 := pn.IncVal(5);
    afterInc := pn.Count();
    var o2 := pn.DecVal(2);
    afterDec := pn.Count();
  }

  /** TestPNCounter_Merge: pn2 at +3 and -1 merged into pn1 at +5 reads 7. */
  method MergeScenario(p1: string, n1: string, p2: string, n2: string) returns (merged: int)
    requires p1 != p2
    ensures merged == 7
  {
    var pn1 := new PNCounter(p1, n1);
    var pn2 := new PNCounter(p2, n2);
    var o1 := pn1.IncVal(5);
    var o2 := pn2.IncVal(3);
    var o3 := pn2.DecVal(1);
    pn1.Merge(pn2);
    assert pn1.pCounter.counter == map[p1 := 5][p2 := 3];
    assert pn1.nCounter.counter == map[][n2 := 1];
    SumUpdate(map[p1 := 5], p2, 3);
    SumUpdate(map[], n2, 1);
    merged := pn1.Count();
  }

  /** Sequential analogue of TestPNCounter_ConcurrentDecrement: IncVal(n) then n Decs read 0. */
  method RepeatedDecScenario(pIdent: string, nIdent: string, n: nat) returns (total: int)
    ensures total == 0
  {
    var pn := new PNCounter(pIdent, nIdent);
    var o := pn.IncVal(n);
    var i := 0;
    while i < n
      invariant 0 <= i <= n
      invariant pn.Valid()
      invariant pn.Net() == n - i
    {
      pn.Dec();
      i := i + 1;
    }
    total := pn.Count();
  }
}
