# State-based CRDT counters in Dafny

This project models the go-crdts counters: a grow-only counter (G-Counter)
and a positive-negative counter (PN-Counter) built from two G-Counters.
The Go package holds two independent versions of the pair, and they are
modelled as separate modules.

- **Version A** (`g-counter.go`, `pn-counter.go`; modules `IdentGCounter`,
  `IdentPNCounter`). Each G-Counter owns a replica identity `ident` and a
  map `counter` from replica identity to count. `IncVal` adds a
  non-negative delta to the counter's own entry and panics on a negative
  one. `Merge` takes the per-replica maximum and inserts replicas that are
  missing locally. The PN-Counter holds `pCounter` and `nCounter`.
- **Version B** (`gcounter.go`, `pncounter.go`; modules `NodeGCounter`,
  `NodePNCounter`). The G-Counter has no identity of its own.
  `Increment(nodeID, value)` adds to any node and has no sign check. `Merge`
  raises a node only when the other count is above the local one, with a
  missing key read as 0. So a node absent locally is inserted only with a
  positive count. The PN-Counter holds `inc` and `dec`.

`counter_maps.dfy` (module `CounterMaps`) holds what both versions share:
- `Lookup`, the map lookup that reads a missing key as 0, as Go does;
- `Sum`, the total of a map, which picks its keys in an arbitrary order;
- the lemmas `Count` and `Value` need. `SumRemove` shows that the key order
  does not matter, which stands in for Go's unordered `range`.

Each G-Counter is a class whose methods update its map field in place.
Its `Count`/`Value` loops over the map, and its `Merge` loops over a
snapshot of the other counter's keys; the argument of `Merge` may be the
counter itself. The PN-Counters hold no map of their own: they delegate
each operation to their two G-Counter components, and their
`Count`/`Value` subtract the two components' totals.
Each mutating method states its new state as a function of the old one:
- `IdentGCounter.Join` is the result of version A's merge;
- `NodeGCounter.Merged` is the result of version B's merge.

The lattice laws are proved as lemmas about those functions.

Version A's merge is an exact join on raw maps. It is idempotent,
commutative and associative, and it is the least upper bound.
Version B's merge is idempotent on raw maps and never lowers an entry.
Its commutativity holds only on lookups with missing keys read as 0, and
only for counters whose entries are non-negative. Its associativity holds
as equality of raw maps once the first target's entries are non-negative.
Because
`Increment` accepts negative values, a counter can hold a negative entry,
and then the two merge orders differ
(`NodeGCounter.MergedNotCommutativeWithNegative`).

Version A's code panics on a negative delta and version B's has no check;
the model follows the code. Version A's `IncVal`/`DecVal` return
`Panic(message)`, with Go's panic message, and leave the state unchanged.
Version B accepts any sign, so its total is guaranteed non-negative when
every entry is.

## Model

| member | source | states |
|---|---|---|
| `CounterMaps.Lookup` | gcounter.go:39 | reads a missing key as 0, as Go's map index does |
| `CounterMaps.Sum` | g-counter.go:79-85 | the total of all entries, taking the keys in an arbitrary order as Go's `range` does |
| `CounterMaps.SumUpdate` | g-counter.go:75 | writing `v` under `k` changes the total by `v` minus what `k` held before (0 if absent) |
| `CounterMaps.SumRemove` | g-counter.go:81-83 | the total is the same whichever key is taken out first, so the unordered `range` sum is well defined |
| `CounterMaps.SumNonNeg` | g-counter.go:79-85 | a map whose entries are all non-negative has a non-negative total |
| `CounterMaps.SumLe` | g-counter.go:98-99 | the total does not decrease when entries are raised and the keys added carry non-negative counts |
| `CounterMaps.SumSameAt0` | gcounter.go:24-32 | two maps that agree on every key, with missing keys read as 0, have the same total |
| `IdentGCounter.Join` | g-counter.go:96-101 | the merged map has the union of the key sets, lies above both inputs entry by entry, and takes each entry from one of them |
| `IdentGCounter.GCounter.constructor` | g-counter.go:49-54 | a new counter has the given identity and an empty map |
| `IdentGCounter.GCounter.Inc` | g-counter.go:57-59 | the own entry rises by 1 (missing counts as 0), no other key changes, and the total rises by 1 |
| `IdentGCounter.GCounter.IncVal` | g-counter.go:63-76 | for `incr >= 0`: the own entry rises by exactly `incr`, no other key changes, and the total rises by `incr`; for `incr < 0`: a panic with Go's message and an unchanged map; non-negative entries stay non-negative |
| `IdentGCounter.GCounter.Count` | g-counter.go:79-85 | returns the sum of all entries, which is non-negative when every entry is |
| `IdentGCounter.GCounter.Merge` | g-counter.go:89-101 | each key of `c` gets the larger of the two counts and is inserted if absent; keys not in `c` keep their value; the key set becomes the union; `g.Merge(g)` changes nothing |
| `IdentGCounter.JoinSelf` | g-counter.go:88-101 | merging a state into itself gives the same map |
| `IdentGCounter.JoinIdempotent` | g-counter.go:88-101 | merging the same state twice gives the same map as merging it once |
| `IdentGCounter.JoinCommutative` | g-counter.go:98-99 | merging A into B gives the same map as merging B into A |
| `IdentGCounter.JoinAssociative` | g-counter.go:96-101 | `(a ⊔ b) ⊔ c` and `a ⊔ (b ⊔ c)` are the same map |
| `IdentGCounter.JoinLeast` | g-counter.go:96-101 | any map above both inputs is above their merge, so the merge is the least upper bound |
| `IdentGCounter.JoinNonNeg` | g-counter.go:96-101 | merging counters with non-negative entries keeps every entry non-negative |
| `IdentGCounter.JoinCountBounds` | g-counter.go:98-99 | for non-negative counters, the merged total is at least each prior total |
| `IdentGCounter.IncScenario` | g-counter_test.go:9-23 | a fresh counter reads 1 after `Inc` and 6 after a further `IncVal(5)` |
| `IdentGCounter.MergeScenario` | g-counter_test.go:25-40 | counters with distinct identities at 3 and 5 read 8 after merging |
| `IdentGCounter.RepeatedIncScenario` | g-counter_test.go:42-67 | n unit increments in sequence read n |
| `IdentPNCounter.PNCounter.constructor` | pn-counter.go:13-18 | both components are fresh, distinct and empty, and carry the given identities |
| `IdentPNCounter.PNCounter.Inc` | pn-counter.go:22-24 | the positive component's own entry rises by 1, the negative component is untouched, and the value rises by 1 |
| `IdentPNCounter.PNCounter.IncVal` | pn-counter.go:30-35 | for `incr >= 0`, only the positive component changes and the value rises by `incr`; for `incr < 0`, a panic with Go's message before either component is touched |
| `IdentPNCounter.PNCounter.Dec` | pn-counter.go:39-41 | the negative component's own entry rises by 1, the positive component is untouched, and the value falls by 1 |
| `IdentPNCounter.PNCounter.DecVal` | pn-counter.go:46-51 | for `decr >= 0`, only the negative component changes and the value falls by `decr`; for `decr < 0`, a panic with Go's message before either component is touched |
| `IdentPNCounter.PNCounter.Count` | pn-counter.go:58-60 | returns the positive total minus the negative total, which may be negative |
| `IdentPNCounter.PNCounter.Merge` | pn-counter.go:66-70 | the positive map becomes the join of the two positive maps and the negative map the join of the two negative maps, with no cross terms; no entry of either component falls, and each component ends above its counterpart |
| `IdentPNCounter.MergeTwice` | pn-counter.go:66-70 | merging the same PN-Counter twice leaves both components exactly as one merge does |
| `IdentPNCounter.NegativeScenario` | pn-counter.go:53-60 | a fresh PN-Counter reads -1 after one `Dec`, so the value can be negative |
| `IdentPNCounter.IncDecScenario` | pn-counter_test.go:9-26 | `Inc` reads 1, and a further `Dec` reads 0 |
| `IdentPNCounter.IncValDecValScenario` | pn-counter_test.go:28-45 | `IncVal(5)` reads 5, and a further `DecVal(2)` reads 3 |
| `IdentPNCounter.MergeScenario` | pn-counter_test.go:47-60 | pn2 at +3 and -1 merged into pn1 at +5 reads 7, provided the positive components have distinct identities |
| `IdentPNCounter.RepeatedDecScenario` | pn-counter_test.go:82-101 | `IncVal(n)` followed by n `Dec`s reads 0 |
| `NodeGCounter.Merged` | gcounter.go:35-42 | a key is present after the merge iff it was present locally or the other count is positive; each key of `other` reads the larger of the two counts when missing keys read as 0; other entries are unchanged |
| `NodeGCounter.GCounter.constructor` | gcounter.go:12-14 | a new counter has an empty map |
| `NodeGCounter.GCounter.Increment` | gcounter.go:17-21 | `counts[nodeID]` becomes its old value (or 0) plus `value`, of any sign; no other key changes; the total changes by `value` |
| `NodeGCounter.GCounter.Value` | gcounter.go:24-32 | returns the sum of all entries, which is non-negative when every entry is |
| `NodeGCounter.GCounter.Merge` | gcounter.go:35-43 | each key of `other` reads the max of the old local and the other count, with missing keys read as 0; keys not in `other` are unchanged; no lookup falls; the total does not fall; `g.Merge(g)` changes nothing |
| `NodeGCounter.MergedStep` | gcounter.go:38-42 | one iteration of the merge loop: folding one more node of `other` raises that node only when its count is above the local one |
| `NodeGCounter.MergedSelf` | gcounter.go:35-43 | merging a state into itself gives the same map |
| `NodeGCounter.MergedIdempotent` | gcounter.go:34-42 | a second merge of the same state changes nothing |
| `NodeGCounter.MergedMonotone` | gcounter.go:39-41 | no local entry falls in a merge, with missing keys read as 0 |
| `NodeGCounter.MergedIsMax` | gcounter.go:34-42 | when the target's entries are non-negative, each merged entry is the max of the two, with missing keys read as 0; the other counter may hold any sign |
| `NodeGCounter.MergedCommutative` | gcounter.go:34-42 | for non-negative counters, merging A into B agrees with merging B into A on every lookup |
| `NodeGCounter.MergedAssociative` | gcounter.go:34-42 | when the first target is non-negative, the two groupings of three merges give the same map |
| `NodeGCounter.MergedNotCommutativeWithNegative` | gcounter.go:17-42 | with the negative entry that `Increment` allows, the two merge orders give different maps |
| `NodeGCounter.MergedValueGrows` | gcounter.go:38-42 | a merge never lowers the local total, and for a non-negative target the result is at least the other's total |
| `NodeGCounter.MergedValueCommutative` | gcounter.go:34-42 | for non-negative counters, both merge orders reach the same total |
| `NodeGCounter.IncrementScenario` | gcounter_test.go:7-13 | node1 incremented by 5 reads 5 |
| `NodeGCounter.MergeScenario` | gcounter_test.go:15-27 | {node1: 5} merged with {node1: 3, node2: 4} reads 9 |
| `NodePNCounter.PNCounter.constructor` | pncounter.go:9-14 | both components are fresh, distinct and empty |
| `NodePNCounter.PNCounter.Increment` | pncounter.go:17-19 | only `inc`'s entry for `nodeID` changes, `dec` is untouched, and the value rises by `value` |
| `NodePNCounter.PNCounter.Decrement` | pncounter.go:22-24 | only `dec`'s entry for `nodeID` changes, `inc` is untouched, and the value falls by `value` |
| `NodePNCounter.PNCounter.Value` | pncounter.go:27-29 | returns `inc`'s total minus `dec`'s total |
| `NodePNCounter.PNCounter.Merge` | pncounter.go:32-35 | `inc` merges with `other.inc` and `dec` with `other.dec`, independently; no lookup of either component falls |
| `NodePNCounter.MergeTwice` | pncounter.go:31-35 | merging the same PN-Counter twice leaves both components exactly as one merge does |
| `NodePNCounter.NegativeScenario` | pncounter.go:26-29 | a fresh PN-Counter reads -1 after one `Decrement` by 1, so the value can be negative |
| `NodePNCounter.IncrementDecrementScenario` | pncounter_test.go:7-15 | `Increment(node1, 5)` then `Decrement(node1, 2)` reads 3 |
| `NodePNCounter.MergeScenario` | pncounter_test.go:17-31 | {node2: +3, -1} merged into {node1: +5, -2} reads 5 |

## Left out

- `GenerateUUID` (g-counter.go:16-32) depends on the clock, on random bytes and on string formatting. A replica identity is a constructor parameter instead. Its panic when randomness fails is left out too.
- `sync.Mutex`, `EnableMutex` and every lock and unlock call are left out. The model is sequential, so these calls do nothing. Data races are left out for the same reason: the unlocked `Count` and the unlocked read of the peer's map during `Merge`. The model's `Merge` reads a snapshot of the peer's map.
- The concurrent and performance tests use goroutines, timing and floating-point throughput. Only their sequential analogues are modelled: `RepeatedIncScenario` and `RepeatedDecScenario`.
- The panic mechanism is replaced by a returned `Outcome`. `Panic(message)` carries Go's panic string, and the state is left unchanged.
- Go's `int` is a fixed-width (32- or 64-bit) integer that wraps around. The model uses unbounded integers, so it says nothing about overflow.
- Go's map iteration order is not modelled. Loops pick any remaining key, and `Sum` is shown to be order independent.
- `IdentPNCounter.PNCounter.Merge`: requires `other.nCounter != pCounter`. The Go code assumes this too: it allocates every component fresh and never exposes it, so no two PN-Counters share one. If the components were shared, the second merge would read a map that the first merge already changed.
- `NodePNCounter.PNCounter.Merge`: requires `other.dec != inc`, for the same reason.
- `NodeGCounter.MergedIsMax`: needs the target's entries non-negative. `Increment` has no sign check, and a negative local entry whose node the other counter lacks stays below 0 instead of reading as max(entry, 0).
- `IdentPNCounter.MergeTwice`: also requires `other.pCounter != pn.nCounter`, since the first merge changes `pn.nCounter`. No two constructed PN-Counters share a component.
- `NodePNCounter.MergeTwice`: also requires `other.inc != pn.dec`, for the same reason.
- `NodeGCounter.MergedCommutative`: is stated only for counters with non-negative entries, and only on lookups with missing keys read as 0. With negative entries the law does not hold (`MergedNotCommutativeWithNegative`).
- `NodeGCounter.MergedAssociative`: needs the first target's entries to be non-negative. A negative local entry, which `Increment` allows, stays in one grouping and is raised in the other.
