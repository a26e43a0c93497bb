/**
 * Keeping the project-name cache bounded: least-recently-used eviction and
 * a "smart" eviction that spares recently used projects.
 */
module MemoryManager {
  import opened Wrappers
  import opened Timestamps
  import opened StableSort
  import opened ProjectModels

  function LastAccessed(x: Named): int
  {
    x.info.lastAccessed
  }

  /** `get_memory_stats`, without the floating-point utilisation figure. */
  datatype MemoryStats = MemoryStats(currentEntries: nat, maxEntries: nat, availableSlots: nat, excessEntries: nat)

  function Stats(size: nat, maxEntries: nat): (r: MemoryStats)
    ensures r.currentEntries == size && r.maxEntries == maxEntries
    ensures r.availableSlots == if maxEntries > size then maxEntries - size else 0
    ensures r.excessEntries == if size > maxEntries then size - maxEntries else 0
  {
    MemoryStats(size, maxEntries,
                if maxEntries > size then maxEntries - size else 0,
                if size > maxEntries then size - maxEntries else 0)
  }

  /** Free slots and excess entries never coexist, and their difference is the headroom; excess means cleanup is due. */
  lemma StatsBalance(size: nat, maxEntries: nat)
    ensures Stats(size, maxEntries).availableSlots * Stats(size, maxEntries).excessEntries == 0
    ensures Stats(size, maxEntries).availableSlots - Stats(size, maxEntries).excessEntries == maxEntries - size
    ensures Stats(size, maxEntries).excessEntries > 0 <==> size > maxEntries
  {
  }

  /** In a list sorted by access time, everything after a split point was used no earlier than anything before it. */
  lemma SortedSplit(c: CacheData, k: nat)
    requires SortedBy(c, LastAccessed) && k <= |c|
    ensures forall x, y | x in c[k..] && y in c[..k] :: LastAccessed(y) <= LastAccessed(x)
  {
    forall x, y | x in c[k..] && y in c[..k] ensures LastAccessed(y) <= LastAccessed(x) {
      var i :| 0 <= i < |c| - k && c[k..][i] == x;
      var j :| 0 <= j < k && c[..k][j] == y;
      assert c[j] == y && c[k + i] == x;
    }
  }

  /** What `cleanup_cache` keeps: the most recently used `maxEntries` entries, oldest first. */
  function LruKeep(d: CacheData, maxEntries: nat): CacheData
  {
    if |d| <= maxEntries then d else Sort(d, LastAccessed)[|d| - maxEntries..]
  }

  /** What `cleanup_cache` evicts. */
  function LruDropped(d: CacheData, maxEntries: nat): CacheData
  {
    if |d| <= maxEntries then [] else Sort(d, LastAccessed)[..|d| - maxEntries]
  }

  /**
   * An oversized cache shrinks to exactly `maxEntries` of its own entries,
   * unchanged, and nothing evicted was used more recently than anything kept.
   */
  lemma LruKeepSpec(d: CacheData, maxEntries: nat)
    ensures |d| <= maxEntries ==> LruKeep(d, maxEntries) == d
    ensures |d| > maxEntries ==> |LruKeep(d, maxEntries)| == maxEntries
    ensures multiset(LruKeep(d, maxEntries)) + multiset(LruDropped(d, maxEntries)) == multiset(d)
    ensures forall x, y | x in LruKeep(d, maxEntries) && y in LruDropped(d, maxEntries) :: LastAccessed(y) <= LastAccessed(x)
    ensures DistinctNames(d) ==> DistinctNames(LruKeep(d, maxEntries))
  {
    if |d| > maxEntries {
      var s := Sort(d, LastAccessed);
      var k := |d| - maxEntries;
      SortSorted(d, LastAccessed);
      assert s == s[..k] + s[k..];
      SortedSplit(s, k);
      if DistinctNames(d) {
        DistinctNamesSub(d, s[k..]);
      }
    }
  }

  /** The decisions of `cleanup_cache` on loaded entries: whether it evicts, and what it keeps. */
  method LruSelect(d: CacheData, maxEntries: nat) returns (data: CacheData, evicts: bool)
    ensures data == LruKeep(d, maxEntries)
    ensures evicts <==> |d| > maxEntries
    ensures evicts && DistinctNames(d) ==> DistinctNames(data)
  {
    if |d| <= maxEntries {
      return d, false;
    }
    var sorted := Sort(d, LastAccessed);
    var excess := |d| - maxEntries;
    data := sorted[excess..];
    LruKeepSpec(d, maxEntries);
    evicts := true;
  }

  /** The entries last used before the cutoff, in dict order. */
  function Cleanable(d: CacheData, cutoff: int): CacheData
  {
    if d == [] then []
    else Cleanable(d[..|d| - 1], cutoff) + (if LastAccessed(d[|d| - 1]) < cutoff then [d[|d| - 1]] else [])
  }

  /** The entries used at or after the cutoff, in dict order: too recent to evict. */
  function Protected(d: CacheData, cutoff: int): CacheData
  {
    if d == [] then []
    else Protected(d[..|d| - 1], cutoff) + (if LastAccessed(d[|d| - 1]) >= cutoff then [d[|d| - 1]] else [])
  }

  /** The cleanable entries are exactly those used before the cutoff, the protected ones the others. */
  lemma {:induction false} PartitionMembers(d: CacheData, cutoff: int)
    ensures forall x :: x in Cleanable(d, cutoff) <==> x in d && LastAccessed(x) < cutoff
    ensures forall x :: x in Protected(d, cutoff) <==> x in d && LastAccessed(x) >= cutoff
  {
    if d != [] {
      var n := |d| - 1;
      PartitionMembers(d[..n], cutoff);
      assert d == d[..n] + [d[n]];
    }
  }

  /** The two parts split the entries between them. */
  lemma {:induction false} Partition(d: CacheData, cutoff: int)
    ensures multiset(Protected(d, cutoff)) + multiset(Cleanable(d, cutoff)) == multiset(d)
    ensures |Protected(d, cutoff)| + |Cleanable(d, cutoff)| == |d|
  {
    if d != [] {
      var n := |d| - 1;
      var last := d[n];
      Partition(d[..n], cutoff);
      assert multiset(d) == multiset(d[..n]) + multiset{last} by {
        assert d == d[..n] + [last];
      }
      if LastAccessed(last) >= cutoff {
        assert Protected(d, cutoff) == Protected(d[..n], cutoff) + [last];
        assert Cleanable(d, cutoff) == Cleanable(d[..n], cutoff) + [];
      } else {
        assert Protected(d, cutoff) == Protected(d[..n], cutoff) + [];
        assert Cleanable(d, cutoff) == Cleanable(d[..n], cutoff) + [last];
      }
    }
  }

  lemma PartitionStep(d: CacheData, i: nat, cutoff: int)
    requires i < |d|
    ensures Cleanable(d[..i + 1], cutoff) == Cleanable(d[..i], cutoff) + (if LastAccessed(d[i]) < cutoff then [d[i]] else [])
    ensures Protected(d[..i + 1], cutoff) == Protected(d[..i], cutoff) + (if LastAccessed(d[i]) >= cutoff then [d[i]] else [])
  {
    assert d[..i + 1][..i] == d[..i];
  }

  /** Python's `s[-k:]` for a positive `k`: the last `k` items, or all of them. */
  function LastN<T>(s: seq<T>, k: int): (r: seq<T>)
    requires k > 0
    ensures |r| == if k < |s| then k else |s|
    ensures r == s[|s| - |r|..]
  {
    if k >= |s| then s else s[|s| - k..]
  }

  /** A sequence is what precedes its last `k` items followed by them. */
  lemma LastNSplit<T>(s: seq<T>, k: int)
    requires 0 < k <= |s|
    ensures |LastN(s, k)| == k && s == s[..|s| - k] + LastN(s, k)
  {
    assert s == s[..|s| - k] + s[|s| - k..];
  }

  /**
   * The size `smart_cleanup` aims for: seventy per cent of the limit when the
   * cache has grown past `aggressive` times the limit, else the limit.
   */
  function SmartTarget(size: nat, maxEntries: nat, aggressive: real): (t: nat)
    ensures t <= maxEntries
  {
    if size as real >= maxEntries as real * aggressive then (maxEntries * 7) / 10 else maxEntries
  }

  /**
   * Whether `smart_cleanup` evicts anything: the cache is over its limit and
   * fewer entries are protected than the target size.
   */
  predicate Evicting(d: CacheData, maxEntries: nat, aggressive: real, cutoff: int)
  {
    |d| > maxEntries && |Protected(d, cutoff)| < SmartTarget(|d|, maxEntries, aggressive)
  }

  /** How many cleanable entries `smart_cleanup` keeps beside the protected ones. */
  function KeepCount(d: CacheData, maxEntries: nat, aggressive: real, cutoff: int): int
  {
    SmartTarget(|d|, maxEntries, aggressive) - |Protected(d, cutoff)|
  }

  /** What `smart_cleanup` keeps: every protected entry, then the most recent cleanable ones. */
  function SmartKeep(d: CacheData, maxEntries: nat, aggressive: real, cutoff: int): CacheData
  {
    if !Evicting(d, maxEntries, aggressive, cutoff) then d
    else
      var keep := KeepCount(d, maxEntries, aggressive, cutoff);
      Protected(d, cutoff) + (if keep > 0 then LastN(Sort(Cleanable(d, cutoff), LastAccessed), keep) else [])
  }

  /** What `smart_cleanup` evicts, when it evicts anything. */
  function SmartDropped(d: CacheData, maxEntries: nat, aggressive: real, cutoff: int): CacheData
  {
    if !Evicting(d, maxEntries, aggressive, cutoff) then []
    else
      var c := Sort(Cleanable(d, cutoff), LastAccessed);
      var keep := KeepCount(d, maxEntries, aggressive, cutoff);
      if keep < |c| then c[..|c| - keep] else []
  }

  /** In the eviction case the kept cleanable entries are the last `keep` of the sorted ones. */
  lemma SmartEvictsKeep(d: CacheData, maxEntries: nat, aggressive: real, cutoff: int)
    requires Evicting(d, maxEntries, aggressive, cutoff)
    ensures SmartKeep(d, maxEntries, aggressive, cutoff)
            == Protected(d, cutoff) + LastN(Sort(Cleanable(d, cutoff), LastAccessed), KeepCount(d, maxEntries, aggressive, cutoff))
  {
    assert KeepCount(d, maxEntries, aggressive, cutoff) > 0;
  }

  /** In the eviction case the evicted entries are the sorted cleanable ones before the kept ones. */
  lemma SmartEvictsDrop(d: CacheData, maxEntries: nat, aggressive: real, cutoff: int, c: CacheData, keep: int)
    requires Evicting(d, maxEntries, aggressive, cutoff)
    requires c == Sort(Cleanable(d, cutoff), LastAccessed)
    requires keep == KeepCount(d, maxEntries, aggressive, cutoff) <= |c|
    ensures SmartDropped(d, maxEntries, aggressive, cutoff) == c[..|c| - keep]
  {
  }

  /** The eviction case of `smart_cleanup`, spelled out. */
  lemma SmartEvicts(d: CacheData, maxEntries: nat, aggressive: real, cutoff: int)
    returns (target: nat, dropped: CacheData, kept: CacheData)
    requires Evicting(d, maxEntries, aggressive, cutoff)
    ensures target == SmartTarget(|d|, maxEntries, aggressive)
    ensures |kept| == target - |Protected(d, cutoff)|
    ensures Sort(Cleanable(d, cutoff), LastAccessed) == dropped + kept
    ensures SmartKeep(d, maxEntries, aggressive, cutoff) == Protected(d, cutoff) + kept
    ensures SmartDropped(d, maxEntries, aggressive, cutoff) == dropped
  {
    target := SmartTarget(|d|, maxEntries, aggressive);
    var c := Sort(Cleanable(d, cutoff), LastAccessed);
    var keep := KeepCount(d, maxEntries, aggressive, cutoff);
    kept := LastN(c, keep);
    dropped := c[..|c| - |kept|];
    SmartEvictsKeep(d, maxEntries, aggressive, cutoff);
    Partition(d, cutoff);
    SmartEvictsDrop(d, maxEntries, aggressive, cutoff, c, keep);
    LastNSplit(c, keep);
  }

  /**
   * `smart_cleanup` never evicts a protected entry; it changes nothing when
   * the cache is within its limit or too many entries are protected, and
   * otherwise keeps exactly the target number of entries.
   */
  lemma SmartKeepBounds(d: CacheData, maxEntries: nat, aggressive: real, cutoff: int)
    ensures forall x | x in Protected(d, cutoff) :: x in SmartKeep(d, maxEntries, aggressive, cutoff)
    ensures !Evicting(d, maxEntries, aggressive, cutoff) ==> SmartKeep(d, maxEntries, aggressive, cutoff) == d
    ensures Evicting(d, maxEntries, aggressive, cutoff) ==> |SmartKeep(d, maxEntries, aggressive, cutoff)| == SmartTarget(|d|, maxEntries, aggressive)
  {
    PartitionMembers(d, cutoff);
    if Evicting(d, maxEntries, aggressive, cutoff) {
      var _, _, _ := SmartEvicts(d, maxEntries, aggressive, cutoff);
    }
  }

  /** What `smart_cleanup` keeps and evicts are the cache's own entries, each exactly once. */
  lemma SmartKeepPermutes(d: CacheData, maxEntries: nat, aggressive: real, cutoff: int)
    ensures multiset(SmartKeep(d, maxEntries, aggressive, cutoff)) + multiset(SmartDropped(d, maxEntries, aggressive, cutoff))
            == multiset(d)
  {
    if Evicting(d, maxEntries, aggressive, cutoff) {
      var target, dropped, kept := SmartEvicts(d, maxEntries, aggressive, cutoff);
      Partition(d, cutoff);
      assert multiset(dropped + kept) == multiset(dropped) + multiset(kept);
    }
  }

  /** Nothing `smart_cleanup` evicts was used more recently than anything it keeps. */
  lemma SmartKeepRecency(d: CacheData, maxEntries: nat, aggressive: real, cutoff: int)
    ensures forall x, y | x in SmartKeep(d, maxEntries, aggressive, cutoff) && y in SmartDropped(d, maxEntries, aggressive, cutoff)
            :: LastAccessed(y) <= LastAccessed(x)
  {
    var protected := Protected(d, cutoff);
    if Evicting(d, maxEntries, aggressive, cutoff) {
      var target, dropped, kept := SmartEvicts(d, maxEntries, aggressive, cutoff);
      var c := Sort(Cleanable(d, cutoff), LastAccessed);
      var k := |dropped|;
      assert c[..k] == dropped && c[k..] == kept;
      PartitionMembers(d, cutoff);
      SortSorted(Cleanable(d, cutoff), LastAccessed);
      SortedSplit(c, k);
      forall y | y in c[..k] ensures LastAccessed(y) < cutoff {
        assert y in multiset(c);
        assert y in Cleanable(d, cutoff);
      }
      assert forall x | x in protected + kept :: x in protected || x in kept;
    }
  }

  /** Keeping a sub-collection keeps project names distinct. */
  lemma SmartKeepDistinct(d: CacheData, maxEntries: nat, aggressive: real, cutoff: int)
    requires DistinctNames(d)
    ensures DistinctNames(SmartKeep(d, maxEntries, aggressive, cutoff))
  {
    SmartKeepPermutes(d, maxEntries, aggressive, cutoff);
    DistinctNamesSub(d, SmartKeep(d, maxEntries, aggressive, cutoff));
  }

  /** The loop of `smart_cleanup` that sorts the entries into cleanable and protected ones. */
  method Split(d: CacheData, cutoff: int) returns (cleanable: CacheData, protected: CacheData)
    ensures cleanable == Cleanable(d, cutoff)
    ensures protected == Protected(d, cutoff)
  {
    cleanable, protected := [], [];
    var i := 0;
    while i < |d|
      invariant 0 <= i <= |d|
      invariant cleanable == Cleanable(d[..i], cutoff)
      invariant protected == Protected(d[..i], cutoff)
    {
      PartitionStep(d, i, cutoff);
      if d[i].info.lastAccessed < cutoff {
        cleanable := cleanable + [d[i]];
      } else {
        protected := protected + [d[i]];
      }
      i := i + 1;
    }
    assert d[..i] == d;
  }

  /** The moment before which an entry may be evicted: `min_retention_hours` before `now`. */
  function RetentionCutoff(now: int, hours: int): int
  {
    now - hours * HOUR
  }

  /**
   * The decisions of `smart_cleanup` on loaded entries: whether it evicts at
   * all, and what it keeps when it does.
   */
  method SmartSelect(d: CacheData, maxEntries: nat, aggressive: real, cutoff: int) returns (data: CacheData, evicts: bool)
    ensures data == SmartKeep(d, maxEntries, aggressive, cutoff)
    ensures evicts <==> data != d
    ensures evicts && DistinctNames(d) ==> DistinctNames(data)
  {
    if |d| <= maxEntries {
      return d, false;
    }
    var target := SmartTarget(|d|, maxEntries, aggressive);
    var cleanable, protected := Split(d, cutoff);
    if |protected| >= target {
      return d, false;
    }
    var sorted := Sort(cleanable, LastAccessed);
    var keep := target - |protected|;
    var kept := if keep > 0 then LastN(sorted, keep) else [];
    data := protected + kept;
    SmartEvictsKeep(d, maxEntries, aggressive, cutoff);
    SmartKeepBounds(d, maxEntries, aggressive, cutoff);
    if DistinctNames(d) {
      SmartKeepDistinct(d, maxEntries, aggressive, cutoff);
    }
    assert |data| < |d|;
    evicts := true;
  }

  /** `MemoryManager` over a project cache. */
  class Manager {
    const cache: ProjectCache
    const maxEntries: nat
    const minRetentionHours: int
    const aggressiveThreshold: real
    var lastCleanup: int

    constructor(cache: ProjectCache, maxEntries: nat, minRetentionHours: int, aggressiveThreshold: real, now: int)
      ensures this.cache == cache && this.maxEntries == maxEntries
      ensures this.minRetentionHours == minRetentionHours && this.aggressiveThreshold == aggressiveThreshold
      ensures lastCleanup == now
    {
      this.cache := cache;
      this.maxEntries := maxEntries;
      this.minRetentionHours := minRetentionHours;
      this.aggressiveThreshold := aggressiveThreshold;
      lastCleanup := now;
    }

    function Current(now: int): CacheData
      reads cache
    {
      Loaded(cache.file, cache.codec, cache.iso, now)
    }

    /** `get_cache_size`. */
    method CacheSize(now: int) returns (n: nat)
      ensures n == |Current(now)|
    {
      var data := cache.Load(now);
      n := |data|;
    }

    /** `needs_cleanup`: strictly more entries than allowed. */
    method NeedsCleanup(now: int) returns (b: bool)
      ensures b <==> |Current(now)| > maxEntries
      ensures b <==> Stats(|Current(now)|, maxEntries).excessEntries > 0
    {
      var n := CacheSize(now);
      b := n > maxEntries;
    }

    /** `get_memory_stats`. */
    method MemoryStatsNow(now: int) returns (s: MemoryStats)
      ensures s == Stats(|Current(now)|, maxEntries)
    {
      var n := CacheSize(now);
      s := MemoryStats(n, maxEntries, if maxEntries > n then maxEntries - n else 0, if n > maxEntries then n - maxEntries else 0);
    }

    /** `cleanup_cache`: within the limit nothing is saved; otherwise the kept entries are saved and the time noted. */
    method CleanupCache(now: int) returns (data: CacheData)
      modifies cache`file, this`lastCleanup
      ensures data == LruKeep(old(Current(now)), maxEntries)
      ensures |old(Current(now))| <= maxEntries ==> cache.file == old(cache.file) && lastCleanup == old(lastCleanup)
      ensures |old(Current(now))| > maxEntries ==>
        cache.file == Some(cache.codec.encode(EncodeAll(data, cache.iso))) && lastCleanup == now
    {
      var loaded := cache.Load(now);
      assert loaded == Current(now);
      var evicts;
      data, evicts := LruSelect(loaded, maxEntries);
      if evicts {
        cache.Save(data);
        lastCleanup := now;
      }
    }

    /** `smart_cleanup`: partition by the retention cutoff, then keep the protected and the freshest cleanable entries. */
    method SmartCleanup(now: int) returns (data: CacheData)
      modifies cache`file
      ensures data == SmartKeep(old(Current(now)), maxEntries, aggressiveThreshold, RetentionCutoff(now, minRetentionHours))
      ensures data == old(Current(now)) ==> cache.file == old(cache.file)
      ensures data != old(Current(now)) ==> cache.file == Some(cache.codec.encode(EncodeAll(data, cache.iso)))
    {
      var loaded := cache.Load(now);
      assert loaded == Current(now);
      var evicts;
      data, evicts := SmartSelect(loaded, maxEntries, aggressiveThreshold, RetentionCutoff(now, minRetentionHours));
      if evicts {
        cache.Save(data);
        assert data != loaded;
      }
    }
  }
}
