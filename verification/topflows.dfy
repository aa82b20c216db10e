/**
 * The windowed top-talkers engine of `topflows/main.go`: four counter maps
 * keyed by a directional pair label, the update that folds one observed
 * packet into them, the reset at the end of a window and the selection of
 * the ten largest entries of each map for the report.
 *
 * The Go program guards the maps with one mutex taken for the whole of each
 * update, report and reset, so each of those is one atomic step here.
 */
module TopFlows {
  import opened U64
  import opened Sorting

  /** How many entries of each map the report shows. */
  const ReportSize: nat := 10

  /** One decoded packet: its addresses and its byte measure. */
  datatype Observation = Observation(source: string, destination: string, bytes: uint64)

  /** The values of the four counter maps. */
  datatype Counters = Counters(
    sourceBytes: map<string, uint64>,
    destinationBytes: map<string, uint64>,
    sourcePackets: map<string, uint64>,
    destinationPackets: map<string, uint64>)

  const Empty: Counters := Counters(map[], map[], map[], map[])

  /** The source-perspective label "source => destination". */
  function SourceKey(source: string, destination: string): string
  {
    source + " => " + destination
  }

  /** The destination-perspective label "destination <= source". */
  function DestinationKey(source: string, destination: string): string
  {
    destination + " <= " + source
  }

  /** An address as `net.IP.String` writes it: never a space. */
  ghost predicate Address(a: string)
  {
    ' ' !in a
  }

  /** The position of the first space in `x`, or its length when it has none. */
  ghost function FirstSpace(x: string): nat
  {
    if x == [] || x[0] == ' ' then 0 else 1 + FirstSpace(x[1..])
  }

  lemma {:induction false} FirstSpaceAfter(a: string, rest: string)
    requires Address(a) && |rest| > 0 && rest[0] == ' '
    ensures FirstSpace(a + rest) == |a|
  {
    if a != [] {
      assert (a + rest)[1..] == a[1..] + rest;
      FirstSpaceAfter(a[1..], rest);
    }
  }

  /**
   * Two labels built with the same separator, which starts with a space,
   * from left parts without a space are equal exactly when both parts are.
   */
  lemma {:induction false} LabelInjective(a1: string, b1: string, a2: string, b2: string, sep: string)
    requires |sep| > 0 && sep[0] == ' '
    requires Address(a1) && Address(a2)
    ensures a1 + sep + b1 == a2 + sep + b2 <==> a1 == a2 && b1 == b2
  {
    var x, y := a1 + sep + b1, a2 + sep + b2;
    if x == y {
      FirstSpaceAfter(a1, sep + b1);
      FirstSpaceAfter(a2, sep + b2);
      assert a1 + sep + b1 == a1 + (sep + b1) && a2 + sep + b2 == a2 + (sep + b2);
      assert a1 == x[..|a1|] && a2 == y[..|a2|];
      assert b1 == x[|a1| + |sep|..] && b2 == y[|a2| + |sep|..];
    }
  }

  /** One counter as `updateCounters` treats it: added to, or created. */
  function Bump(m: map<string, uint64>, key: string, delta: uint64): map<string, uint64>
  {
    if key in m then m[key := Add(m[key], delta)] else m[key := delta]
  }

  /**
   * When a byte map and a packet map hold the same keys, the two branches of
   * `updateCounters`, chosen on the byte map alone, bump both maps.
   */
  lemma BranchesAreBump(bytes: map<string, uint64>, packets: map<string, uint64>, key: string, delta: uint64)
    requires bytes.Keys == packets.Keys
    ensures key in bytes ==>
      && bytes[key := Add(bytes[key], delta)] == Bump(bytes, key, delta)
      && packets[key := Add(Lookup(packets, key), 1)] == Bump(packets, key, 1)
    ensures key !in bytes ==> bytes[key := delta] == Bump(bytes, key, delta) && packets[key := 1] == Bump(packets, key, 1)
  {
  }

  /** The effect of one `updateCounters(source, destination, bytes)`. */
  function Step(c: Counters, o: Observation): Counters
  {
    var sk, dk := SourceKey(o.source, o.destination), DestinationKey(o.source, o.destination);
    Counters(
      Bump(c.sourceBytes, sk, o.bytes),
      Bump(c.destinationBytes, dk, o.bytes),
      Bump(c.sourcePackets, sk, 1),
      Bump(c.destinationPackets, dk, 1))
  }

  /** The counters after the updates `h` of one window, oldest first. */
  ghost function Replay(h: seq<Observation>): Counters
  {
    if h == [] then Empty else Step(Replay(h[..|h| - 1]), h[|h| - 1])
  }

  /** The byte map and the packet map of each perspective hold the same keys. */
  ghost predicate KeysAgree(c: Counters)
  {
    && c.sourceBytes.Keys == c.sourcePackets.Keys
    && c.destinationBytes.Keys == c.destinationPackets.Keys
  }

  /** Every packet counter lies between 1 and `n`. */
  ghost predicate PacketsWithin(c: Counters, n: nat)
  {
    && (forall k :: k in c.sourcePackets ==> 1 <= c.sourcePackets[k] <= n)
    && (forall k :: k in c.destinationPackets ==> 1 <= c.destinationPackets[k] <= n)
  }

  /** The two maps of a perspective are updated together, and keys are never lost. */
  lemma {:induction false} StepKeepsKeysAgree(c: Counters, o: Observation)
    requires KeysAgree(c)
    ensures KeysAgree(Step(c, o))
    ensures c.sourceBytes.Keys <= Step(c, o).sourceBytes.Keys
    ensures c.destinationBytes.Keys <= Step(c, o).destinationBytes.Keys
  {
  }

  /** Within a window the byte map and the packet map of each perspective hold the same keys. */
  lemma {:induction false} ReplayKeysAgree(h: seq<Observation>)
    ensures KeysAgree(Replay(h))
  {
    if h != [] {
      ReplayKeysAgree(h[..|h| - 1]);
      StepKeepsKeysAgree(Replay(h[..|h| - 1]), h[|h| - 1]);
    }
  }

  /**
   * While a window has seen fewer than 2^64 updates no packet counter has
   * wrapped: each is at least 1 and at most the number of updates.
   */
  lemma {:induction false} ReplayPacketsWithin(h: seq<Observation>)
    requires |h| < MODULUS
    ensures PacketsWithin(Replay(h), |h|)
  {
    if h != [] {
      ReplayPacketsWithin(h[..|h| - 1]);
    }
  }

  /** Replaying one more update is one more step. */
  lemma ReplaySnoc(h: seq<Observation>, o: Observation)
    ensures Replay(h + [o]) == Step(Replay(h), o)
  {
    assert (h + [o])[..|h|] == h;
  }

  /** Two entries of two maps agree on a key: both absent, or both present with one value. */
  ghost predicate SameEntry(m1: map<string, uint64>, m2: map<string, uint64>, k: string)
  {
    (k in m1 <==> k in m2) && (k in m1 ==> m1[k] == m2[k])
  }

  /**
   * What one update does in the source perspective: a label seen before gets
   * the bytes added to its total and one more packet; a new label starts at
   * the bytes and one packet; every other label keeps its entries.
   */
  lemma StepSourceEntries(c: Counters, o: Observation)
    requires KeysAgree(c)
    ensures var c', sk := Step(c, o), SourceKey(o.source, o.destination);
      && (sk in c.sourceBytes ==>
            c'.sourceBytes[sk] == Add(c.sourceBytes[sk], o.bytes) && c'.sourcePackets[sk] == Add(c.sourcePackets[sk], 1))
      && (sk !in c.sourceBytes ==> c'.sourceBytes[sk] == o.bytes && c'.sourcePackets[sk] == 1)
      && c'.sourceBytes.Keys == c.sourceBytes.Keys + {sk}
      && (forall k :: k != sk ==> SameEntry(c.sourceBytes, c'.sourceBytes, k) && SameEntry(c.sourcePackets, c'.sourcePackets, k))
  {
  }

  /** The same rules for the label "destination <= source" in the destination maps. */
  lemma StepDestinationEntries(c: Counters, o: Observation)
    requires KeysAgree(c)
    ensures var c', dk := Step(c, o), DestinationKey(o.source, o.destination);
      && (dk in c.destinationBytes ==>
            c'.destinationBytes[dk] == Add(c.destinationBytes[dk], o.bytes)
            && c'.destinationPackets[dk] == Add(c.destinationPackets[dk], 1))
      && (dk !in c.destinationBytes ==> c'.destinationBytes[dk] == o.bytes && c'.destinationPackets[dk] == 1)
      && c'.destinationBytes.Keys == c.destinationBytes.Keys + {dk}
      && (forall k :: k != dk ==>
            SameEntry(c.destinationBytes, c'.destinationBytes, k) && SameEntry(c.destinationPackets, c'.destinationPackets, k))
  {
  }

  /**
   * Traffic from `a` to `b` leaves the counters of the reverse pair alone:
   * "b => a" and "a <= b" keep their entries in all four maps.
   */
  lemma {:induction false} DirectionalIndependence(c: Counters, a: string, b: string, bytes: uint64)
    requires Address(a) && Address(b) && a != b
    ensures var c' := Step(c, Observation(a, b, bytes));
      && SameEntry(c.sourceBytes, c'.sourceBytes, SourceKey(b, a))
      && SameEntry(c.sourcePackets, c'.sourcePackets, SourceKey(b, a))
      && SameEntry(c.destinationBytes, c'.destinationBytes, DestinationKey(b, a))
      && SameEntry(c.destinationPackets, c'.destinationPackets, DestinationKey(b, a))
  {
    LabelInjective(a, b, b, a, " => ");
    LabelInjective(b, a, a, b, " <= ");
  }

  /** An observation of zero bytes still counts one packet and changes no byte total. */
  lemma ZeroBytesCounted(c: Counters, s: string, d: string)
    requires KeysAgree(c)
    ensures var c', sk, dk := Step(c, Observation(s, d, 0)), SourceKey(s, d), DestinationKey(s, d);
      && sk in c'.sourceBytes && Lookup(c'.sourceBytes, sk) == Lookup(c.sourceBytes, sk)
      && c'.sourcePackets[sk] == Add(Lookup(c.sourcePackets, sk), 1)
      && dk in c'.destinationBytes && Lookup(c'.destinationBytes, dk) == Lookup(c.destinationBytes, dk)
      && c'.destinationPackets[dk] == Add(Lookup(c.destinationPackets, dk), 1)
  {
  }

  /** The number of updates in `h` from `s` to `d`. */
  ghost function Calls(h: seq<Observation>, s: string, d: string): nat
  {
    if h == [] then 0
    else Calls(h[..|h| - 1], s, d) + (if h[|h| - 1].source == s && h[|h| - 1].destination == d then 1 else 0)
  }

  /** The bytes of the updates in `h` from `s` to `d`, summed without wrapping. */
  ghost function SumBytes(h: seq<Observation>, s: string, d: string): nat
  {
    if h == [] then 0
    else SumBytes(h[..|h| - 1], s, d) + (if h[|h| - 1].source == s && h[|h| - 1].destination == d then h[|h| - 1].bytes else 0)
  }

  /** Every address in `h` is a well-formed address. */
  ghost predicate AddressesOf(h: seq<Observation>)
  {
    forall i :: 0 <= i < |h| ==> Address(h[i].source) && Address(h[i].destination)
  }

  /**
   * One update keeps a label's byte total and packet count equal to the sum
   * and number of the updates carrying that label, modulo 2^64: `matches`
   * says whether the update's own label `ok` is the label `key` followed.
   */
  lemma BumpAccumulates(bytes: map<string, uint64>, packets: map<string, uint64>, key: string, ok: string,
                        b: uint64, matches: bool, calls: nat, sum: nat,
                        bytes': map<string, uint64>, packets': map<string, uint64>, calls': nat, sum': nat)
    requires (ok == key) == matches
    requires (key in bytes <==> calls > 0) && (key in packets <==> calls > 0)
    requires calls > 0 ==> bytes[key] == sum % MODULUS && packets[key] == calls % MODULUS
    requires calls == 0 ==> sum == 0
    requires bytes' == Bump(bytes, ok, b) && packets' == Bump(packets, ok, 1)
    requires calls' == calls + (if matches then 1 else 0) && sum' == sum + (if matches then b else 0)
    ensures (key in bytes' <==> calls' > 0) && (key in packets' <==> calls' > 0)
    ensures calls' > 0 ==> bytes'[key] == sum' % MODULUS && packets'[key] == calls' % MODULUS
  {
    if matches && calls > 0 {
      AddWrapped(sum, b);
      AddWrapped(calls, 1);
    }
  }

  /**
   * Accumulation in the source perspective: after the updates `h` of one
   * window, "s => d" has entries exactly when some update came from `s` to
   * `d`; its byte total is the sum of those updates' bytes and its packet
   * count their number, both modulo 2^64.
   */
  lemma {:induction false} AccumulationSource(h: seq<Observation>, s: string, d: string)
    requires AddressesOf(h) && Address(s)
    ensures var c, sk := Replay(h), SourceKey(s, d);
      && (sk in c.sourceBytes <==> Calls(h, s, d) > 0)
      && (sk in c.sourcePackets <==> Calls(h, s, d) > 0)
      && (Calls(h, s, d) > 0 ==>
            c.sourceBytes[sk] == SumBytes(h, s, d) % MODULUS
            && c.sourcePackets[sk] == Calls(h, s, d) % MODULUS)
  {
    if h == [] {
      return;
    }
    var h', o := h[..|h| - 1], h[|h| - 1];
    assert AddressesOf(h');
    AccumulationSource(h', s, d);
    NoCallsNoBytes(h', s, d);
    var ok := SourceKey(o.source, o.destination);
    var matches := o.source == s && o.destination == d;
    assert (ok == SourceKey(s, d)) == matches by { LabelInjective(o.source, o.destination, s, d, " => "); }
    var c' := Replay(h');
    assert Replay(h).sourceBytes == Bump(c'.sourceBytes, ok, o.bytes);
    assert Replay(h).sourcePackets == Bump(c'.sourcePackets, ok, 1);
    assert Calls(h, s, d) == Calls(h', s, d) + (if matches then 1 else 0);
    assert SumBytes(h, s, d) == SumBytes(h', s, d) + (if matches then o.bytes else 0);
    BumpAccumulates(c'.sourceBytes, c'.sourcePackets, SourceKey(s, d), ok, o.bytes, matches, Calls(h', s, d), SumBytes(h', s, d),
                    Replay(h).sourceBytes, Replay(h).sourcePackets, Calls(h, s, d), SumBytes(h, s, d));
  }

  /**
   * Accumulation in the destination perspective: the same totals, kept under
   * the label "d <= s".
   */
  lemma {:induction false} AccumulationDestination(h: seq<Observation>, s: string, d: string)
    requires AddressesOf(h) && Address(d)
    ensures var c, dk := Replay(h), DestinationKey(s, d);
      && (dk in c.destinationBytes <==> Calls(h, s, d) > 0)
      && (dk in c.destinationPackets <==> Calls(h, s, d) > 0)
      && (Calls(h, s, d) > 0 ==>
            c.destinationBytes[dk] == SumBytes(h, s, d) % MODULUS
            && c.destinationPackets[dk] == Calls(h, s, d) % MODULUS)
  {
    if h == [] {
      return;
    }
    var h', o := h[..|h| - 1], h[|h| - 1];
    assert AddressesOf(h');
    AccumulationDestination(h', s, d);
    NoCallsNoBytes(h', s, d);
    var ok := DestinationKey(o.source, o.destination);
    var matches := o.source == s && o.destination == d;
    assert (ok == DestinationKey(s, d)) == matches by { LabelInjective(o.destination, o.source, d, s, " <= "); }
    var c' := Replay(h');
    assert Replay(h).destinationBytes == Bump(c'.destinationBytes, ok, o.bytes);
    assert Replay(h).destinationPackets == Bump(c'.destinationPackets, ok, 1);
    assert Calls(h, s, d) == Calls(h', s, d) + (if matches then 1 else 0);
    assert SumBytes(h, s, d) == SumBytes(h', s, d) + (if matches then o.bytes else 0);
    BumpAccumulates(c'.destinationBytes, c'.destinationPackets, DestinationKey(s, d), ok, o.bytes, matches, Calls(h', s, d), SumBytes(h', s, d),
                    Replay(h).destinationBytes, Replay(h).destinationPackets, Calls(h, s, d), SumBytes(h, s, d));
  }

  /** A pair that no update mentions has no bytes. */
  lemma {:induction false} NoCallsNoBytes(h: seq<Observation>, s: string, d: string)
    ensures Calls(h, s, d) == 0 ==> SumBytes(h, s, d) == 0
  {
    if h != [] {
      NoCallsNoBytes(h[..|h| - 1], s, d);
    }
  }

  /** The entries of `m` that the report shows: the `n` largest, largest first. */
  ghost predicate IsTop(m: map<string, uint64>, n: nat, shown: seq<string>)
  {
    && |shown| == (if |m| < n then |m| else n)
    && Distinct(shown)
    && (forall i :: 0 <= i < |shown| ==> shown[i] in m)
    && NonIncreasing(m, shown)
    && (forall i, k :: 0 <= i < |shown| && k in m && k !in shown ==> Lookup(m, shown[i]) >= Lookup(m, k))
  }

  /** The keys a sequence holds. */
  ghost function KeySet(keys: seq<string>): set<string>
  {
    set k | k in keys
  }

  /** The keys of a sequence without repeats are as many as its positions. */
  lemma {:induction false} DistinctKeySetSize(keys: seq<string>)
    requires Distinct(keys)
    ensures |KeySet(keys)| == |keys|
  {
    if keys != [] {
      var init, last := keys[..|keys| - 1], keys[|keys| - 1];
      assert Distinct(init);
      DistinctKeySetSize(init);
      assert last !in KeySet(init);
      assert KeySet(keys) == KeySet(init) + {last};
    }
  }

  /** A sequence holds at most as many keys as it has positions. */
  lemma {:induction false} KeySetSizeBound(keys: seq<string>)
    ensures |KeySet(keys)| <= |keys|
  {
    if keys != [] {
      var init := keys[..|keys| - 1];
      KeySetSizeBound(init);
      assert KeySet(keys) == KeySet(init) + {keys[|keys| - 1]};
    }
  }

  lemma SubsetSize(small: set<string>, large: set<string>)
    ensures small <= large ==> |small| <= |large|
  {
    if small <= large {
      assert large == small + (large - small);
    }
  }

  /**
   * If a top selection `a` ranked a larger value than another top selection
   * `b` at position `i`, every key `a` ranks up to `i` would sit among the
   * first `i` keys of `b`.
   */
  lemma {:induction false} LeadersRankedFirst(m: map<string, uint64>, n: nat, a: seq<string>, b: seq<string>, i: nat)
    requires IsTop(m, n, a) && IsTop(m, n, b) && i < |a|
    ensures Lookup(m, a[i]) > Lookup(m, b[i]) ==> KeySet(a[..i + 1]) <= KeySet(b[..i])
  {
    if Lookup(m, a[i]) > Lookup(m, b[i]) {
      forall k | k in KeySet(a[..i + 1])
        ensures k in KeySet(b[..i])
      {
        var p :| 0 <= p <= i && a[p] == k;
        assert Lookup(m, k) >= Lookup(m, a[i]);
        assert k in b;
        var j :| 0 <= j < |b| && b[j] == k;
        assert j < i;
        assert b[..i][j] == k;
      }
    }
  }

  /** Position by position, one top selection never ranks a larger value than another. */
  lemma {:induction false} TopValueAtMost(m: map<string, uint64>, n: nat, a: seq<string>, b: seq<string>, i: nat)
    requires IsTop(m, n, a) && IsTop(m, n, b) && i < |a|
    ensures Lookup(m, a[i]) <= Lookup(m, b[i])
  {
    LeadersRankedFirst(m, n, a, b, i);
    assert Distinct(a[..i + 1]);
    DistinctKeySetSize(a[..i + 1]);
    KeySetSizeBound(b[..i]);
    SubsetSize(KeySet(a[..i + 1]), KeySet(b[..i]));
  }

  /**
   * The report's values are determined by the map: any two selections of
   * the `n` largest entries agree on the value at every position, so they
   * can differ only in which of several equal-valued keys they show, and in
   * what order.
   */
  lemma {:induction false} TopValuesDetermined(m: map<string, uint64>, n: nat, a: seq<string>, b: seq<string>)
    requires IsTop(m, n, a) && IsTop(m, n, b)
    ensures |a| == |b|
    ensures forall i :: 0 <= i < |a| ==> Lookup(m, a[i]) == Lookup(m, b[i])
  {
    forall i | 0 <= i < |a|
      ensures Lookup(m, a[i]) == Lookup(m, b[i])
    {
      TopValueAtMost(m, n, a, b, i);
      TopValueAtMost(m, n, b, a, i);
    }
  }

  /**
   * The first `min(|m|, n)` keys of a ranking of every key of `m` are the
   * `n` largest entries of `m`: none left out is larger than one kept.
   */
  lemma {:induction false} RankingPrefixIsTop(m: map<string, uint64>, sortedKeys: seq<string>, n: nat)
    requires multiset(sortedKeys) == multiset(m.Keys) && NonIncreasing(m, sortedKeys)
    ensures IsTop(m, n, sortedKeys[..if |sortedKeys| < n then |sortedKeys| else n])
  {
    ExactlyOnce(sortedKeys, m.Keys);
    var max := if |sortedKeys| < n then |sortedKeys| else n;
    var shown := sortedKeys[..max];
    assert forall i :: 0 <= i < |shown| ==> shown[i] == sortedKeys[i];
    assert Distinct(shown);
    assert NonIncreasing(m, shown);
    assert forall i :: 0 <= i < |shown| ==> shown[i] in m;
    forall i, k | 0 <= i < |shown| && k in m && k !in shown
      ensures Lookup(m, shown[i]) >= Lookup(m, k)
    {
      var p :| 0 <= p < |sortedKeys| && sortedKeys[p] == k;
      assert p >= max;
    }
  }

  /**
   * One ranking of the report: the keys of `m` sorted by `sortMap` and the
   * first `min(len, n)` of them, which is what the report prints.
   */
  method TopTalkers(m: map<string, uint64>, n: nat) returns (sortedKeys: seq<string>, shown: seq<string>)
    ensures multiset(sortedKeys) == multiset(m.Keys) && NonIncreasing(m, sortedKeys)
    ensures IsTop(m, n, shown)
    ensures |shown| <= |sortedKeys| && shown == sortedKeys[..|shown|]
    ensures |m| <= n ==> shown == sortedKeys
  {
    sortedKeys := SortMap(m);
    var max: nat;
    if |sortedKeys| < n {
      max := |sortedKeys|;
    } else {
      max := n;
    }
    shown := sortedKeys[..max];
    RankingPrefixIsTop(m, sortedKeys, n);
  }

  /**
   * A worked window: 1000 and 500 bytes from 10.0.0.1 to 10.0.0.2, then 2000
   * bytes from 10.0.0.3 to 10.0.0.2.
   */
  lemma ExampleWindow(h: seq<Observation>)
    requires h == [Observation("10.0.0.1", "10.0.0.2", 1000), Observation("10.0.0.1", "10.0.0.2", 500),
                   Observation("10.0.0.3", "10.0.0.2", 2000)]
    ensures var s1, s3 := SourceKey("10.0.0.1", "10.0.0.2"), SourceKey("10.0.0.3", "10.0.0.2");
      && Replay(h).sourceBytes == map[s1 := 1500, s3 := 2000]
      && Replay(h).sourcePackets == map[s1 := 2, s3 := 1]
    ensures var d1, d3 := DestinationKey("10.0.0.1", "10.0.0.2"), DestinationKey("10.0.0.3", "10.0.0.2");
      && Replay(h).destinationBytes == map[d1 := 1500, d3 := 2000]
      && Replay(h).destinationPackets == map[d1 := 2, d3 := 1]
  {
    var o1, o2, o3 := h[0], h[1], h[2];
    var s1, s3 := SourceKey("10.0.0.1", "10.0.0.2"), SourceKey("10.0.0.3", "10.0.0.2");
    var d1, d3 := DestinationKey("10.0.0.1", "10.0.0.2"), DestinationKey("10.0.0.3", "10.0.0.2");
    var c1 := Counters(map[s1 := 1000], map[d1 := 1000], map[s1 := 1], map[d1 := 1]);
    var c2 := Counters(map[s1 := 1500], map[d1 := 1500], map[s1 := 2], map[d1 := 2]);
    assert h[..1][..0] == [] && h[..2][..1] == h[..1] && h[..3] == h;
    assert Replay(h[..1]) == c1;
    assert Replay(h[..2]) == c2;
    LabelInjective("10.0.0.1", "10.0.0.2", "10.0.0.3", "10.0.0.2", " => ");
    LabelInjective("10.0.0.2", "10.0.0.1", "10.0.0.2", "10.0.0.3", " <= ");
    assert Replay(h) == Step(c2, o3);
  }

  /** In that window the report ranks 10.0.0.3's bytes above 10.0.0.1's, and the reverse for packets. */
  lemma ExampleRanking(byBytes: seq<string>, byPackets: seq<string>)
    requires var s1, s3 := SourceKey("10.0.0.1", "10.0.0.2"), SourceKey("10.0.0.3", "10.0.0.2");
      && IsTop(map[s1 := 1500, s3 := 2000], ReportSize, byBytes)
      && IsTop(map[s1 := 2, s3 := 1], ReportSize, byPackets)
    ensures byBytes == [SourceKey("10.0.0.3", "10.0.0.2"), SourceKey("10.0.0.1", "10.0.0.2")]
    ensures byPackets == [SourceKey("10.0.0.1", "10.0.0.2"), SourceKey("10.0.0.3", "10.0.0.2")]
  {
    var s1, s3 := SourceKey("10.0.0.1", "10.0.0.2"), SourceKey("10.0.0.3", "10.0.0.2");
    LabelInjective("10.0.0.1", "10.0.0.2", "10.0.0.3", "10.0.0.2", " => ");
    var bytes, packets := map[s1 := 1500, s3 := 2000], map[s1 := 2, s3 := 1];
    assert |bytes| == 2 && |packets| == 2;
    assert byBytes[0] != byBytes[1] && Lookup(bytes, byBytes[0]) >= Lookup(bytes, byBytes[1]);
    assert byPackets[0] != byPackets[1] && Lookup(packets, byPackets[0]) >= Lookup(packets, byPackets[1]);
  }

  /** The four counter maps of `topflows/main.go`, one window's worth. */
  class Engine {
    var sourceBytes: map<string, uint64>
    var destinationBytes: map<string, uint64>
    var sourcePackets: map<string, uint64>
    var destinationPackets: map<string, uint64>

    /** The updates made since the window began, oldest first. */
    ghost var history: seq<Observation>

    function State(): Counters
      reads this
    {
      Counters(sourceBytes, destinationBytes, sourcePackets, destinationPackets)
    }

    ghost predicate Valid()
      reads this
    {
      State() == Replay(history)
    }

    /** The maps as the program starts: all empty. */
    constructor ()
      ensures Valid() && history == []
      ensures State() == Empty
    {
      sourceBytes, destinationBytes := map[], map[];
      sourcePackets, destinationPackets := map[], map[];
      history := [];
    }

    /** `updateCounters`: folds one packet into both perspectives. */
    method UpdateCounters(source: string, destination: string, bytes: uint64)
      requires Valid()
      modifies this
      ensures Valid() && history == old(history) + [Observation(source, destination, bytes)]
      ensures State() == Step(old(State()), Observation(source, destination, bytes))
    {
      ghost var c, o := State(), Observation(source, destination, bytes);
      ReplayKeysAgree(history);
      var sk := source + " => " + destination;
      BranchesAreBump(sourceBytes, sourcePackets, sk, bytes);
      if sk in sourceBytes {
        var sb := sourceBytes[sk];
        sourceBytes := sourceBytes[sk := Add(sb, bytes)];
        sourcePackets := sourcePackets[sk := Add(Lookup(sourcePackets, sk), 1)];
      } else {
        sourceBytes := sourceBytes[sk := bytes];
        sourcePackets := sourcePackets[sk := 1];
      }
      assert sourceBytes == Bump(c.sourceBytes, sk, bytes) && sourcePackets == Bump(c.sourcePackets, sk, 1);

      var dk := destination + " <= " + source;
      BranchesAreBump(destinationBytes, destinationPackets, dk, bytes);
      if dk in destinationBytes {
        var db := destinationBytes[dk];
        destinationBytes := destinationBytes[dk := Add(db, bytes)];
        destinationPackets := destinationPackets[dk := Add(Lookup(destinationPackets, dk), 1)];
      } else {
        destinationBytes := destinationBytes[dk := bytes];
        destinationPackets := destinationPackets[dk := 1];
      }
      assert destinationBytes == Bump(c.destinationBytes, dk, bytes) && destinationPackets == Bump(c.destinationPackets, dk, 1);
      assert State() == Step(c, o);

      ReplaySnoc(history, o);
      history := history + [o];
    }

    /** `resetTopTalkers`: ends the window by replacing every map with an empty one. */
    method ResetTopTalkers()
      modifies this
      ensures Valid() && history == []
      ensures sourceBytes == map[] && destinationBytes == map[]
      ensures sourcePackets == map[] && destinationPackets == map[]
    {
      sourceBytes, destinationBytes := map[], map[];
      sourcePackets, destinationPackets := map[], map[];
      history := [];
    }

    /**
     * The selection `printTopTalkers` makes: the ten largest entries of each
     * map, largest first, in the order the report prints them.
     */
    method PrintTopTalkers() returns (bySourceBytes: seq<string>, byDestinationBytes: seq<string>,
                                      bySourcePackets: seq<string>, byDestinationPackets: seq<string>)
      ensures IsTop(sourceBytes, ReportSize, bySourceBytes)
      ensures IsTop(destinationBytes, ReportSize, byDestinationBytes)
      ensures IsTop(sourcePackets, ReportSize, bySourcePackets)
      ensures IsTop(destinationPackets, ReportSize, byDestinationPackets)
    {
      var sorted;
      sorted, bySourceBytes := TopTalkers(sourceBytes, ReportSize);
      sorted, byDestinationBytes := TopTalkers(destinationBytes, ReportSize);
      sorted, bySourcePackets := TopTalkers(sourcePackets, ReportSize);
      sorted, byDestinationPackets := TopTalkers(destinationPackets, ReportSize);
    }
  }
}
