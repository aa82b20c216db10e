/**
 * Ranking of a counter map by value, as `topflows/sort.go` does it: the keys
 * of the map are collected into a slice, wrapped with the map in a `sortable`
 * and sorted in descending order of value with `sort.Reverse`.
 */
module Sorting {
  import opened U64

  /** Go's `m[k]`: the zero value for a key the map does not hold. */
  function Lookup(m: map<string, uint64>, k: string): uint64
  {
    if k in m then m[k] else 0
  }

  /** The keys are ranked from the largest value down (ties in any order). */
  ghost predicate NonIncreasing(m: map<string, uint64>, keys: seq<string>)
  {
    forall i, j :: 0 <= i < j < |keys| ==> Lookup(m, keys[i]) >= Lookup(m, keys[j])
  }

  /** No key occurs twice. */
  ghost predicate Distinct(keys: seq<string>)
  {
    forall i, j :: 0 <= i < j < |keys| ==> keys[i] != keys[j]
  }

  /**
   * A sequence whose multiset is that of a set holds every element of the set
   * exactly once, and nothing else.
   */
  lemma {:induction false} ExactlyOnce(keys: seq<string>, s: set<string>)
    requires multiset(keys) == multiset(s)
    ensures |keys| == |s|
    ensures forall k :: k in keys <==> k in s
    ensures Distinct(keys)
  {
    assert |multiset(keys)| == |keys|;
    forall k ensures k in keys <==> k in s {
      assert k in keys <==> k in multiset(keys);
    }
    forall i, j | 0 <= i < j < |keys| ensures keys[i] != keys[j] {
      var k := keys[j];
      assert keys == keys[..j] + keys[j..];
      assert multiset(keys)[k] == multiset(keys[..j])[k] + multiset(keys[j..])[k];
      assert k in keys[j..];
      assert multiset(keys)[k] <= 1;
      assert keys[i] in keys[..j];
    }
    SetMultisetSize(s);
  }

  lemma {:induction false} SetMultisetSize(s: set<string>)
    ensures |multiset(s)| == |s|
  {
    if s != {} {
      var k :| k in s;
      SetMultisetSize(s - {k});
      assert multiset(s) == multiset(s - {k}) + multiset{k};
    }
  }

  /** The `sortable` of `topflows/sort.go`: a key slice and the map it ranks. */
  class Sortable {
    const keys: array<string>
    const m: map<string, uint64>

    constructor (keys: array<string>, m: map<string, uint64>)
      ensures this.keys == keys && this.m == m
    {
      this.keys := keys;
      this.m := m;
    }

    function Len(): int
    {
      keys.Length
    }

    /** Compares values only: keys with equal values are never ordered. */
    predicate Less(i: int, j: int)
      requires 0 <= i < keys.Length && 0 <= j < keys.Length
      reads keys
    {
      Lookup(m, keys[i]) < Lookup(m, keys[j])
    }

    /** Exchanges positions `i` and `j`; every other position keeps its key. */
    method Swap(i: int, j: int)
      requires 0 <= i < keys.Length && 0 <= j < keys.Length
      modifies keys
      ensures keys[i] == old(keys[j]) && keys[j] == old(keys[i])
      ensures forall p :: 0 <= p < keys.Length && p != i && p != j ==> keys[p] == old(keys[p])
      ensures multiset(keys[..]) == multiset(old(keys[..]))
    {
      keys[i], keys[j] := keys[j], keys[i];
    }
  }

  /**
   * `sort.Sort(sort.Reverse(s))`. The library's sort is modelled by the
   * insertion sort it runs on short ranges; `sort.Reverse` turns the test
   * `Less(j, j - 1)` into `s.Less(j - 1, j)`.
   */
  method SortReverse(s: Sortable)
    modifies s.keys
    ensures NonIncreasing(s.m, s.keys[..])
    ensures multiset(s.keys[..]) == multiset(old(s.keys[..]))
  {
    var n := s.Len();
    var i := 0;
    while i < n
      invariant 0 <= i <= n
      invariant forall p, q :: 0 <= p < q < i ==> Lookup(s.m, s.keys[p]) >= Lookup(s.m, s.keys[q])
      invariant multiset(s.keys[..]) == multiset(old(s.keys[..]))
    {
      var j := i;
      while j > 0 && s.Less(j - 1, j)
        invariant 0 <= j <= i
        invariant forall p, q :: 0 <= p < q <= i && p != j && q != j ==> Lookup(s.m, s.keys[p]) >= Lookup(s.m, s.keys[q])
        invariant forall q :: j < q <= i ==> Lookup(s.m, s.keys[j]) >= Lookup(s.m, s.keys[q])
        invariant multiset(s.keys[..]) == multiset(old(s.keys[..]))
      {
        s.Swap(j, j - 1);
        j := j - 1;
      }
      i := i + 1;
    }
  }

  /**
   * `sortMap`: every key of `m` exactly once, ranked from the largest value
   * down. The keys are gathered in an unspecified order, as Go's map
   * iteration gives them.
   */
  method SortMap(m: map<string, uint64>) returns (sorted: seq<string>)
    ensures multiset(sorted) == multiset(m.Keys)
    ensures |sorted| == |m|
    ensures NonIncreasing(m, sorted)
  {
    var keys := new string[|m|];
    var rest := m.Keys;
    var n := 0;
    while rest != {}
      invariant n + |rest| == |m| == keys.Length
      invariant multiset(keys[..n]) + multiset(rest) == multiset(m.Keys)
      decreases rest
    {
      var k :| k in rest;
      keys[n] := k;
      assert keys[..n + 1] == keys[..n] + [k];
      assert multiset(rest) == multiset(rest - {k}) + multiset{k};
      rest := rest - {k};
      n := n + 1;
    }
    assert keys[..n] == keys[..];
    var s := new Sortable(keys, m);
    SortReverse(s);
    sorted := s.keys[..];
    ExactlyOnce(sorted, m.Keys);
  }
}
