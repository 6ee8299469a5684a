/** The selection rule of `manageCacheSize` (sw.js:531-570): once the scanned
    entries of the dynamic cache add up to more than the ceiling, entries are
    taken from the front of the scan until the reclaimed size reaches 30% of
    the ceiling.

    Every entry is stamped with `Date.now()` while the scan runs and then
    sorted by that stamp with a stable sort, so with a clock that does not go
    back during the scan the sorted order is the scan order; the model uses
    the scan order directly. */
module Eviction {

  /** `CONFIG.MAX_DYNAMIC_CACHE_SIZE`, 10 MiB */
  const MAX_DYNAMIC_CACHE_SIZE: nat := 10 * 1024 * 1024

  /** `CONFIG.MAX_DYNAMIC_CACHE_SIZE * 0.3`; the product of the two doubles is
      exactly this integer. */
  const RECLAIM_TARGET: nat := 3145728

  /** One scanned entry: the request key and the size of its response body. */
  datatype Entry = Entry(key: string, size: nat)

  /** Sum of the sizes of `entries`. */
  function Total(entries: seq<Entry>): nat
  {
    if entries == [] then 0
    else Total(entries[..|entries| - 1]) + entries[|entries| - 1].size
  }

  /** The keys of `entries`, in order. */
  function Keys(entries: seq<Entry>): (keys: seq<string>)
    ensures |keys| == |entries|
    ensures forall i :: 0 <= i < |entries| ==> keys[i] == entries[i].key
  {
    if entries == [] then []
    else Keys(entries[..|entries| - 1]) + [entries[|entries| - 1].key]
  }

  /** The first `n` at or after `from` at which the first `n` entries reclaim
      at least the target, or all of them if none does. */
  function FirstReaching(entries: seq<Entry>, from: nat): (n: nat)
    requires from <= |entries|
    ensures from <= n <= |entries|
    ensures forall j :: from <= j < n ==> Total(entries[..j]) < RECLAIM_TARGET
    ensures n < |entries| ==> Total(entries[..n]) >= RECLAIM_TARGET
    decreases |entries| - from
  {
    if from == |entries| || Total(entries[..from]) >= RECLAIM_TARGET then from
    else FirstReaching(entries, from + 1)
  }

  /** How many entries from the front of the scan are deleted once the
      ceiling is exceeded: the shortest prefix of the scan that reaches the
      target, so every entry taken was needed, or the whole scan when none
      does. */
  function EvictionCount(entries: seq<Entry>): (n: nat)
    ensures n <= |entries|
    ensures forall j :: 0 <= j < n ==> Total(entries[..j]) < RECLAIM_TARGET
    ensures n < |entries| ==> Total(entries[..n]) >= RECLAIM_TARGET
  {
    FirstReaching(entries, 0)
  }

  /** When the scan exceeds the ceiling, the deleted entries always reclaim at
      least 30% of it (the ceiling is larger than the target). */
  lemma EvictionReachesTarget(entries: seq<Entry>)
    requires Total(entries) > MAX_DYNAMIC_CACHE_SIZE
    ensures Total(entries[..EvictionCount(entries)]) >= RECLAIM_TARGET
  {
    var n := EvictionCount(entries);
    if n == |entries| {
      assert entries[..n] == entries;
    }
  }

  /** The ceiling itself is not restored: after one pass the entries that are
      left can still add up to more than the ceiling. */
  lemma EvictionMayLeaveCacheOverCeiling()
    ensures var entries := [Entry("a", RECLAIM_TARGET), Entry("b", MAX_DYNAMIC_CACHE_SIZE + 1)];
            Total(entries) > MAX_DYNAMIC_CACHE_SIZE
            && EvictionCount(entries) == 1
            && Total(entries[1..]) > MAX_DYNAMIC_CACHE_SIZE
  {
    var entries := [Entry("a", RECLAIM_TARGET), Entry("b", MAX_DYNAMIC_CACHE_SIZE + 1)];
    assert entries[..0] == [];
    assert entries[..1] == [entries[0]];
    assert entries[1..] == [entries[1]];
    assert entries[..2][..1] == entries[..1];
    assert Total(entries[..1]) == RECLAIM_TARGET;
  }

  /** The selection loop of `manageCacheSize`: walk the scan, stop as soon as
      the reclaimed size has reached the target, otherwise add the entry. */
  method PlanEviction(entries: seq<Entry>) returns (toRemove: seq<string>, reclaimed: nat)
    ensures toRemove == Keys(entries[..EvictionCount(entries)])
    ensures reclaimed == Total(entries[..EvictionCount(entries)])
  {
    toRemove, reclaimed := [], 0;
    var i := 0;
    while i < |entries|
      invariant i <= |entries|
      invariant reclaimed == Total(entries[..i])
      invariant toRemove == Keys(entries[..i])
      invariant EvictionCount(entries) == FirstReaching(entries, i)
    {
      if reclaimed >= RECLAIM_TARGET {
        break;
      }
      assert entries[..i + 1][..i] == entries[..i];
      reclaimed := reclaimed + entries[i].size;
      toRemove := toRemove + [entries[i].key];
      i := i + 1;
    }
  }
}
