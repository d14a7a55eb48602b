/**
 * The client-side sliding-window rate limiter: per key, a list of timestamps in
 * storage under `rate_limiter_<key>`. `check` prunes the list to the window and
 * compares its length to the limit; `record` appends the current time.
 */
module RateLimiter {
  import opened Seqs

  const StorageKeyPrefix := "rate_limiter_"

  /** What the storage slot holds: a parsed list, or text that does not parse. */
  datatype Stored = Timestamps(ts: seq<int>) | Unparseable

  /** The storage key of an operation key. */
  function StorageKey(key: string): (k: string)
    ensures |k| == |StorageKeyPrefix| + |key|
    ensures k[..|StorageKeyPrefix|] == StorageKeyPrefix && k[|StorageKeyPrefix|..] == key
  {
    StorageKeyPrefix + key
  }

  /** Different operation keys never share a storage slot. */
  lemma StorageKeyInjective(a: string, b: string)
    ensures StorageKey(a) == StorageKey(b) ==> a == b
  {
    if StorageKey(a) == StorageKey(b) {
      assert a == StorageKey(a)[|StorageKeyPrefix|..];
    }
  }

  /** The window length in milliseconds. */
  function WindowMs(windowMinutes: int): int {
    windowMinutes * 60 * 1000
  }

  /** `ts => now - ts < windowMs`: the timestamp is still inside the window. */
  function InWindow(now: int, windowMs: int): int -> bool {
    (t: int) => now - t < windowMs
  }

  /** `timestamps.filter(ts => now - ts < windowMs)`. */
  function Recent(ts: seq<int>, now: int, windowMs: int): (r: seq<int>)
    ensures |r| <= |ts|
    ensures forall t :: t in r <==> t in ts && now - t < windowMs
  {
    Filter(ts, InWindow(now, windowMs))
  }

  /** Pruning keeps the timestamps inside the window, in order and with their repetitions. */
  lemma RecentSpec(ts: seq<int>, now: int, windowMs: int)
    ensures IsSubseq(Recent(ts, now, windowMs), ts)
    ensures forall t :: multiset(Recent(ts, now, windowMs))[t] == if now - t < windowMs then multiset(ts)[t] else 0
  {
    FilterSpec(ts, InWindow(now, windowMs));
  }

  /** Pruning twice at the same time is pruning once. */
  lemma RecentIdempotent(ts: seq<int>, now: int, windowMs: int)
    ensures Recent(Recent(ts, now, windowMs), now, windowMs) == Recent(ts, now, windowMs)
  {
    FilterIdempotent(ts, InWindow(now, windowMs));
  }

  /** Pruning at one time and again later is the same as pruning only later: an early prune loses nothing a later check counts. */
  lemma {:induction false} RecentLater(ts: seq<int>, now: int, later: int, windowMs: int)
    requires now <= later
    ensures Recent(Recent(ts, now, windowMs), later, windowMs) == Recent(ts, later, windowMs)
  {
    if ts != [] {
      var init := ts[..|ts| - 1];
      var t := ts[|ts| - 1];
      RecentLater(init, now, later, windowMs);
      var p := Recent(init, now, windowMs);
      if now - t < windowMs {
        assert (p + [t])[..|p|] == p;
      }
    }
  }

  /** So the count in the window never grows as time passes without records. */
  lemma RecentCountFalls(ts: seq<int>, now: int, later: int, windowMs: int)
    requires now <= later
    ensures |Recent(ts, later, windowMs)| <= |Recent(ts, now, windowMs)|
  {
    RecentLater(ts, now, later, windowMs);
  }

  /**
   * A `record` made only after `check` allowed it, at the same time, leaves at most
   * `limit` timestamps in the window.
   */
  lemma CheckThenRecordWithinLimit(ts: seq<int>, now: int, windowMs: int, limit: int)
    requires windowMs > 0
    requires |Recent(ts, now, windowMs)| < limit
    ensures |Recent(Recent(ts, now, windowMs) + [now], now, windowMs)| <= limit
  {
    var p := Recent(ts, now, windowMs);
    RecentIdempotent(ts, now, windowMs);
    assert (p + [now])[..|p|] == p;
  }

  /** `rateLimiter` together with the storage it reads and writes. */
  class RateLimiter {
    var storage: map<string, Stored>

    constructor(storage: map<string, Stored>)
      ensures this.storage == storage
    {
      this.storage := storage;
    }

    /** The list under the key; missing or unparseable data reads as empty. */
    function Stamps(key: string): (ts: seq<int>)
      reads this
      ensures StorageKey(key) !in storage ==> ts == []
      ensures StorageKey(key) in storage && storage[StorageKey(key)].Unparseable? ==> ts == []
      ensures StorageKey(key) in storage && storage[StorageKey(key)].Timestamps? ==> ts == storage[StorageKey(key)].ts
    {
      var k := StorageKey(key);
      if k in storage && storage[k].Timestamps? then storage[k].ts else []
    }

    /**
     * `check(key, limit, windowMinutes)` at time `now`: the slot is rewritten with the
     * pruned list, nothing else changes, and the answer is whether there is room left.
     */
    method Check(key: string, limit: int, windowMinutes: int, now: int) returns (allowed: bool)
      modifies this
      ensures storage == old(storage)[StorageKey(key) := Timestamps(Recent(old(Stamps(key)), now, WindowMs(windowMinutes)))]
      ensures allowed <==> |Stamps(key)| < limit
      ensures |Stamps(key)| <= |old(Stamps(key))|
    {
      var storageKey := StorageKey(key);
      var windowMs := windowMinutes * 60 * 1000;
      var timestamps: seq<int> := [];
      if storageKey in storage && storage[storageKey].Timestamps? {
        timestamps := storage[storageKey].ts;
      }
      var recentTimestamps := Recent(timestamps, now, windowMs);
      storage := storage[storageKey := Timestamps(recentTimestamps)];
      if |recentTimestamps| >= limit {
        return false;
      }
      return true;
    }

    /** `record(key)` at time `now`: the time is appended to the key's list and nothing else changes. */
    method Record(key: string, now: int)
      modifies this
      ensures storage == old(storage)[StorageKey(key) := Timestamps(old(Stamps(key)) + [now])]
      ensures |Stamps(key)| == |old(Stamps(key))| + 1
    {
      var storageKey := StorageKey(key);
      var timestamps: seq<int> := [];
      if storageKey in storage && storage[storageKey].Timestamps? {
        timestamps := storage[storageKey].ts;
      }
      timestamps := timestamps + [now];
      storage := storage[storageKey := Timestamps(timestamps)];
    }
  }
}
