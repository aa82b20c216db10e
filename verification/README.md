# topflows top-talkers engine in Dafny

`topflows` listens for sFlow datagrams, decodes the sampled packets and keeps,
for a window of time (30 seconds by default), four counters per traffic
direction:

- bytes and packets per source label `"<source> => <destination>"`;
- bytes and packets per destination label `"<destination> <= <source>"`.

Every decoded IPv4 or IPv6 packet goes through `updateCounters`. At the end of
a window, `printTopTalkers` ranks each map by value with `sortMap` and shows
the first ten keys. Then `resetTopTalkers` empties the four maps.

The model has three modules:

- `U64` (`u64.dfy`): Go's `uint64` with its wrap-around addition.
- `Sorting` (`sort.dfy`): the `sortable` wrapper and its `Len`, `Less` and
  `Swap`, as a class over an `array<string>`, and `sortMap`.
  `sort.Sort(sort.Reverse(s))` is modelled as an in-place insertion sort that
  swaps while `Less(j-1, j)` holds. `SortMap` is proved to return a
  permutation of the map's keys in non-increasing order of value.
- `TopFlows` (`topflows.dfy`): the pure effect of one update (`Step`), the
  replay of a window of updates (`Replay`), and the class `Engine`.
  `Engine` holds the four maps as fields. Its methods `UpdateCounters`,
  `ResetTopTalkers` and `PrintTopTalkers` follow the Go functions
  statement by statement. Its invariant `Valid()` says the four maps equal
  the replay of the window's history. Around them sit the lemmas on what a
  window adds up to and on the top-ten selection (`IsTop`).

Addresses are `string`s (`seq<char>`). Most lemmas about a source and
destination pair need both addresses to contain no space
(`TopFlows.Address`). That is what makes the labels `a + " => " + b`
unambiguous, and every textual IPv4 or IPv6 address satisfies it.

## Model

| member | source | states |
|---|---|---|
| U64.Add | topflows/main.go:179-180 | `uint64` addition: the exact sum while it stays below 2^64, otherwise the sum minus 2^64 |
| Sorting.Sortable.Swap | topflows/sort.go:16-18 | exchanges the keys at positions i and j, leaves every other position unchanged, and keeps the multiset of keys |
| Sorting.SortReverse | topflows/sort.go:20-35 | after the reverse sort the keys are in non-increasing order of their map value, and they are a permutation of the keys before |
| Sorting.SortMap | topflows/sort.go:24-38 | the result lists every key of the map exactly once: as a multiset it equals the key set, and its length is the map's size. Keys are ordered from the largest value down |
| Sorting.ExactlyOnce | topflows/sort.go:25-37 | a slice whose multiset is a set has no duplicates, has exactly the set's members, and has the set's size |
| TopFlows.LabelInjective | topflows/main.go:178-186 | for space-free addresses, two labels built with the same separator are equal if and only if both address pairs are equal |
| TopFlows.BranchesAreBump | topflows/main.go:178-192 | each branch of the present/absent test in `updateCounters` is the same single-key bump of the bytes and the packet map |
| TopFlows.StepKeepsKeysAgree | topflows/main.go:178-192 | one update keeps the bytes map and the packet map of each direction on the same key set |
| TopFlows.ReplayKeysAgree | topflows/main.go:178-192 | after any window of updates, each packet map has exactly the keys of its bytes map |
| TopFlows.ReplayPacketsWithin | topflows/main.go:180-191 | after n < 2^64 updates, every packet counter lies between 1 and n |
| TopFlows.ReplaySnoc | topflows/main.go:174-193 | replaying a window extended by one observation is the previous state stepped by that observation |
| TopFlows.StepSourceEntries | topflows/main.go:178-184 | one update adds the byte count to an existing source label and one to its packets. A new label starts at the byte count and one packet. The key sets grow by that label only, and every other source entry is unchanged |
| TopFlows.StepDestinationEntries | topflows/main.go:186-192 | the same rule for the destination label `"<destination> <= <source>"` |
| TopFlows.DirectionalIndependence | topflows/main.go:178-192 | an update from a to b (distinct space-free addresses) leaves the labels of traffic from b to a untouched, in all four maps |
| TopFlows.ZeroBytesCounted | topflows/main.go:178-184 | a zero-byte packet leaves its byte counter unchanged, or creates it at zero, and still counts one packet |
| TopFlows.NoCallsNoBytes | topflows/main.go:174-193 | a pair that was never updated in a window contributes no bytes |
| TopFlows.AccumulationSource | topflows/main.go:178-184 | after a window, a pair has a source label in the byte and packet maps if and only if it was updated. Its bytes are then the sum of its byte counts mod 2^64, and its packets the number of its updates mod 2^64 |
| TopFlows.AccumulationDestination | topflows/main.go:186-192 | the same accumulation for the destination label of the pair |
| TopFlows.DistinctKeySetSize | topflows/sort.go:24-28 | a duplicate-free key slice has as many elements as its set of keys |
| TopFlows.TopValueAtMost | topflows/main.go:73-79 | for two valid top-n selections of one map, the value at any position of one is at most the value at the same position of the other |
| TopFlows.TopValuesDetermined | topflows/main.go:73-79 | any two valid top-n selections of a map have the same length and the same value at every position. Only keys with equal values can differ |
| TopFlows.RankingPrefixIsTop | topflows/main.go:73-79 | the first min(len, n) keys of a ranking by non-increasing value are distinct keys of the map. No key left out has a larger value than a key shown |
| TopFlows.TopTalkers | topflows/main.go:73-79 | `sortMap` followed by the `max` computation and the `[:max]` slice yields a top-n selection that is a prefix of the ranking. It holds the whole ranking when the map has at most n keys |
| TopFlows.ExampleWindow | topflows/main.go:174-193 | 1000 and 500 bytes from 10.0.0.1 to 10.0.0.2, then 2000 bytes from 10.0.0.3 to 10.0.0.2, give exactly the byte totals 1500 and 2000 and the packet counts 2 and 1 |
| TopFlows.ExampleRanking | topflows/main.go:73-105 | for that window, the byte report lists 10.0.0.3's label first and the packet report lists 10.0.0.1's label first |
| TopFlows.Engine.constructor | topflows/main.go:16-21 | the four maps start empty, with an empty history |
| TopFlows.Engine.UpdateCounters | topflows/main.go:174-193 | the new maps are the old maps stepped by the observation. The history grows by that observation, so the maps stay equal to the replay of the window |
| TopFlows.Engine.ResetTopTalkers | topflows/main.go:123-132 | all four maps become empty and the window's history restarts |
| TopFlows.Engine.PrintTopTalkers | topflows/main.go:58-120 | each of the four reported key lists is a top-ten selection of its map. The maps are left unchanged |

## Left out

- `main`, its command-line flags, the UDP listener and the goroutine that
  prints and resets on a timer are I/O and scheduling. The model takes updates
  and resets as calls on `Engine`.
- The sFlow and Ethernet decoding (`analyzeFlowSample`, `analyzeFlowRecord`,
  `analyzeIpv4Header`, `analyzeIpv6Header`) relies on external packages that
  are not part of this model. The addresses and byte count they extract are
  parameters of `UpdateCounters`.
- The mutex is not modelled as a lock. Each of `updateCounters`,
  `printTopTalkers` and `resetTopTalkers` holds it for its whole body, so
  each is modelled as one atomic method call.
- Printing is left out: the `float32` rates (value divided by
  `window.Seconds()`) and the output format. `PrintTopTalkers` returns the
  key lists it would print.
- Sorting.SortReverse: Go's `sort.Sort` is a pattern-defeating quicksort that
  falls back to insertion sort on short ranges. The model uses the insertion
  sort for every length. It promises what `sort.Sort` promises: the order and
  the permutation. The order among keys with equal values is not specified,
  and the code adds no tie-break, so the model adds none either.
- Sorting.SortMap: Go's map iteration order is unspecified. The model picks
  each next key arbitrarily. That `sortMap` leaves the map unchanged is
  immediate, since the map is a value here.
- TopFlows.ReplayPacketsWithin: counters are `uint64` and wrap around. The
  bound (every packet count is at least 1) is stated only for windows with
  fewer than 2^64 updates. The byte totals in the accumulation lemmas are
  stated mod 2^64.
- TopFlows.AccumulationSource, TopFlows.AccumulationDestination,
  TopFlows.DirectionalIndependence: stated for addresses without spaces. The
  Go code builds labels by plain concatenation, so addresses containing
  `" => "` or `" <= "` could produce colliding labels.
- Host statistics and `src_dst.go` from the repository's other tools are not
  part of this model.
