/**
 * The quota ledger and response cache of the YouTube client (src/services/quotaManager.js).
 *
 * Browser storage holds two records: the ledger under 'youtube_api_quota' and the cache
 * under 'youtube_api_cache'. The class keeps each as a field (None when the key is absent);
 * the clock is the `now` parameter of every operation that reads Date.now().
 */
module Quota {
  import opened Wrappers
  import opened Text

  const DailyLimit: int := 10000
  const MsPerDay: int := 86400000
  const MsPerHour: int := 3600000
  const MsPerMinute: int := 60000
  /** setCache's default time to live: one hour. */
  const DefaultTtl: int := 3600000

  datatype Usage = Usage(used: int, limit: int, resetTime: int)

  datatype CacheEntry<D> = CacheEntry(data: D, timestamp: int, ttl: int)

  type Cache<D> = map<string, CacheEntry<D>>

  // ---------------------------------------------------------------- ledger

  /** The next UTC midnight strictly after `now` (getNextResetTime). */
  function NextResetTime(now: int): (r: int)
    ensures now < r <= now + MsPerDay
    ensures r % MsPerDay == 0
  {
    (now / MsPerDay + 1) * MsPerDay
  }

  /** No UTC midnight lies strictly between `now` and NextResetTime(now). */
  lemma NextResetIsFirstMidnightAfter(now: int, m: int)
    requires m % MsPerDay == 0 && m > now
    ensures NextResetTime(now) <= m
  {
    var q := m / MsPerDay;
    var day := now / MsPerDay;
    assert m == q * MsPerDay;
    assert day * MsPerDay <= now;
    assert (q - day) * MsPerDay > 0;
    assert q - day >= 1;
    assert (q - (day + 1)) * MsPerDay >= 0;
  }

  /** The record resetQuota writes. */
  function FreshUsage(now: int): Usage
  {
    Usage(0, DailyLimit, NextResetTime(now))
  }

  /** A stored ledger carries the daily limit. */
  predicate ValidLedger(stored: Option<Usage>)
  {
    stored.Some? ==> stored.value.limit == DailyLimit
  }

  /** What getQuotaUsage reports, given the stored ledger and the reset time fixed at construction. */
  function Reported(stored: Option<Usage>, initialReset: int, now: int): Usage
  {
    match stored
    case None => Usage(0, DailyLimit, initialReset)
    case Some(d) => if now > d.resetTime then FreshUsage(now) else d
  }

  /** The stored ledger after getQuotaUsage: rolled over past the reset time, never created. */
  function StoredAfterRead(stored: Option<Usage>, now: int): Option<Usage>
  {
    match stored
    case None => None
    case Some(d) => if now > d.resetTime then Some(FreshUsage(now)) else stored
  }

  /** The record addQuotaUsage stores and returns. */
  function Charged(stored: Option<Usage>, initialReset: int, cost: int, now: int): Usage
  {
    var current := Reported(stored, initialReset, now);
    Usage(current.used + cost, current.limit, current.resetTime)
  }

  /** hasQuotaAvailable(cost). */
  predicate Available(stored: Option<Usage>, initialReset: int, cost: int, now: int)
  {
    var usage := Reported(stored, initialReset, now);
    usage.used + cost <= usage.limit
  }

  /** getTimeUntilReset: the milliseconds left until the reported reset time, never negative. */
  function TimeUntilReset(stored: Option<Usage>, initialReset: int, now: int): (t: nat)
    ensures t == 0 || Reported(stored, initialReset, now).resetTime == now + t
    ensures now + t >= Reported(stored, initialReset, now).resetTime
  {
    var usage := Reported(stored, initialReset, now);
    if usage.resetTime - now > 0 then usage.resetTime - now else 0
  }

  /** formatTimeUntilReset's text "{hours}h {minutes}m". */
  function FormatDuration(t: nat): string
  {
    NatToString(t / MsPerHour) + "h " + NatToString((t % MsPerHour) / MsPerMinute) + "m"
  }

  /** The text names whole hours and whole minutes of `t`, minutes below 60, the remainder below a minute. */
  lemma FormatDurationParts(t: nat) returns (hours: nat, minutes: nat, rest: nat)
    ensures FormatDuration(t) == NatToString(hours) + "h " + NatToString(minutes) + "m"
    ensures minutes < 60 && rest < MsPerMinute
    ensures t == hours * MsPerHour + minutes * MsPerMinute + rest
  {
    hours := t / MsPerHour;
    var within: nat := t % MsPerHour;
    minutes := within / MsPerMinute;
    rest := within % MsPerMinute;
    assert t == hours * MsPerHour + within;
    assert within == minutes * MsPerMinute + rest;
    assert minutes < 60 by {
      assert minutes * MsPerMinute <= within < 60 * MsPerMinute;
    }
  }

  /** Reading the ledger twice at the same instant changes nothing more than reading it once. */
  lemma ReadIsIdempotent(stored: Option<Usage>, initialReset: int, now: int)
    ensures StoredAfterRead(StoredAfterRead(stored, now), now) == StoredAfterRead(stored, now)
    ensures Reported(StoredAfterRead(stored, now), initialReset, now) == Reported(stored, initialReset, now)
  {
  }

  /** The rollover comparison is strict: at the reset instant itself the ledger is kept, one millisecond later it is zeroed. */
  lemma RolloverIsStrict(d: Usage, initialReset: int)
    ensures Reported(Some(d), initialReset, d.resetTime) == d
    ensures StoredAfterRead(Some(d), d.resetTime) == Some(d)
    ensures Reported(Some(d), initialReset, d.resetTime + 1) == Usage(0, DailyLimit, NextResetTime(d.resetTime + 1))
    ensures StoredAfterRead(Some(d), d.resetTime + 1) == Some(FreshUsage(d.resetTime + 1))
  {
  }

  /** Charges applied one after another, in order, each through addQuotaUsage. */
  function ChargeAll(stored: Option<Usage>, initialReset: int, costs: seq<int>, now: int): Option<Usage>
    decreases |costs|
  {
    if costs == [] then stored
    else ChargeAll(Some(Charged(stored, initialReset, costs[0], now)), initialReset, costs[1..], now)
  }

  function Sum(costs: seq<int>): int
  {
    if costs == [] then 0 else costs[0] + Sum(costs[1..])
  }

  /** While no reset intervenes, `used` is the reported usage plus the sum of the charges. */
  lemma {:induction false} ChargesAccumulate(stored: Option<Usage>, initialReset: int, costs: seq<int>, now: int)
    requires costs != []
    requires now <= Reported(stored, initialReset, now).resetTime
    ensures var start := Reported(stored, initialReset, now);
            ChargeAll(stored, initialReset, costs, now) == Some(Usage(start.used + Sum(costs), start.limit, start.resetTime))
    decreases |costs|
  {
    var start := Reported(stored, initialReset, now);
    var next := Some(Charged(stored, initialReset, costs[0], now));
    assert Reported(next, initialReset, now) == Usage(start.used + costs[0], start.limit, start.resetTime);
    if costs[1..] != [] {
      ChargesAccumulate(next, initialReset, costs[1..], now);
    }
  }

  /**
   * With no stored ledger, addQuotaUsage stores the reset time fixed when the manager was built;
   * once that instant has passed, the very next read zeroes the charge just recorded.
   */
  lemma StaleInitialResetDropsCharge(initialReset: int, cost: int, now: int)
    requires initialReset < now
    ensures Charged(None, initialReset, cost, now).used == cost
    ensures Reported(Some(Charged(None, initialReset, cost, now)), initialReset, now).used == 0
  {
  }

  /** With 9999 of 10000 units used, one more unit fits and two do not. */
  lemma CapacityBoundaryExample(resetTime: int, now: int)
    requires now <= resetTime
    ensures Available(Some(Usage(9999, DailyLimit, resetTime)), resetTime, 1, now)
    ensures !Available(Some(Usage(9999, DailyLimit, resetTime)), resetTime, 2, now)
  {
  }

  // ---------------------------------------------------------------- cache

  /** An entry is stale once more than `ttl` milliseconds have passed since it was stored. */
  predicate Expired<D>(e: CacheEntry<D>, now: int)
  {
    now - e.timestamp > e.ttl
  }

  /** The cache map the stored record holds; an absent record reads as the empty map. */
  function CacheOf<D>(stored: Option<Cache<D>>): Cache<D>
  {
    if stored.Some? then stored.value else map[]
  }

  /** What getCache(key) returns. */
  function Lookup<D>(c: Cache<D>, key: string, now: int): Option<D>
  {
    if key in c && !Expired(c[key], now) then Some(c[key].data) else None
  }

  /** The stored cache after getCache(key): an expired entry for `key` is deleted and written back. */
  function StoreAfterLookup<D>(stored: Option<Cache<D>>, key: string, now: int): Option<Cache<D>>
  {
    if stored.Some? && key in stored.value && Expired(stored.value[key], now)
    then Some(stored.value - {key})
    else stored
  }

  /** The stored cache after setCache(key, data, ttl). */
  function StoreAfterSet<D>(stored: Option<Cache<D>>, key: string, data: D, ttl: int, now: int): Option<Cache<D>>
  {
    Some(CacheOf(stored)[key := CacheEntry(data, now, ttl)])
  }

  /** The entries that are still fresh at `now`. */
  function Purge<D>(c: Cache<D>, now: int): (r: Cache<D>)
    ensures forall k :: k in r <==> k in c && !Expired(c[k], now)
    ensures forall k :: k in r ==> r[k] == c[k]
  {
    map k | k in c && !Expired(c[k], now) :: c[k]
  }

  predicate HasExpired<D>(c: Cache<D>, now: int)
  {
    exists k :: k in c && Expired(c[k], now)
  }

  /** The stored cache after clearExpiredCache: written only when an entry was removed. */
  function StoreAfterPurge<D>(stored: Option<Cache<D>>, now: int): Option<Cache<D>>
  {
    if HasExpired(CacheOf(stored), now) then Some(Purge(CacheOf(stored), now)) else stored
  }

  /** After setCache(key, data, ttl) at time t, getCache(key) yields `data` exactly while now - t <= ttl, and no other key is affected. */
  lemma SetThenLookup<D>(stored: Option<Cache<D>>, key: string, data: D, ttl: int, t: int, other: string, now: int)
    requires other != key
    ensures Lookup(CacheOf(StoreAfterSet(stored, key, data, ttl, t)), key, now)
            == (if now - t <= ttl then Some(data) else None)
    ensures Lookup(CacheOf(StoreAfterSet(stored, key, data, ttl, t)), other, now) == Lookup(CacheOf(stored), other, now)
  {
  }

  /** A second setCache on the same key replaces the first. */
  lemma SetOverwrites<D>(stored: Option<Cache<D>>, key: string, d1: D, d2: D, ttl1: int, ttl2: int, t1: int, t2: int)
    ensures StoreAfterSet(StoreAfterSet(stored, key, d1, ttl1, t1), key, d2, ttl2, t2) == StoreAfterSet(stored, key, d2, ttl2, t2)
  {
    var c := CacheOf(stored);
    assert c[key := CacheEntry(d1, t1, ttl1)][key := CacheEntry(d2, t2, ttl2)] == c[key := CacheEntry(d2, t2, ttl2)];
  }

  /** Once stale, an entry stays stale. */
  lemma ExpiryIsPermanent<D>(e: CacheEntry<D>, now: int, later: int)
    requires Expired(e, now) && now <= later
    ensures Expired(e, later)
  {
  }

  /** A TTL of 1000 ms: served 999 ms after storing, gone 1001 ms after. */
  lemma TtlExample<D>(stored: Option<Cache<D>>, key: string, data: D, t: int)
    ensures Lookup(CacheOf(StoreAfterSet(stored, key, data, 1000, t)), key, t + 999) == Some(data)
    ensures Lookup(CacheOf(StoreAfterSet(stored, key, data, 1000, t)), key, t + 1001) == None
  {
  }

  /** The eviction done by getCache deletes exactly `key`, and only when its entry is stale; lookups at that instant are unaffected. */
  lemma LookupEvictsOnlyStaleKey<D>(stored: Option<Cache<D>>, key: string, other: string, now: int)
    ensures CacheOf(StoreAfterLookup(stored, key, now)).Keys
            == if Lookup(CacheOf(stored), key, now).None? && key in CacheOf(stored)
               then CacheOf(stored).Keys - {key} else CacheOf(stored).Keys
    ensures Lookup(CacheOf(StoreAfterLookup(stored, key, now)), other, now) == Lookup(CacheOf(stored), other, now)
  {
  }

  /** Purging removes exactly the stale entries, so every lookup at that instant answers as before. */
  lemma PurgeKeepsLookups<D>(c: Cache<D>, key: string, now: int)
    ensures Lookup(Purge(c, now), key, now) == Lookup(c, key, now)
    ensures !HasExpired(Purge(c, now), now)
  {
  }

  /** Purging twice at the same instant is purging once. */
  lemma PurgeIsIdempotent<D>(stored: Option<Cache<D>>, now: int)
    ensures StoreAfterPurge(StoreAfterPurge(stored, now), now) == StoreAfterPurge(stored, now)
  {
    if HasExpired(CacheOf(stored), now) {
      PurgeKeepsLookups(CacheOf(stored), "", now);
    }
  }

  // ---------------------------------------------------------------- the manager

  class QuotaManager<D> {
    /** this.resetTime: the next midnight as seen when the manager was constructed. */
    const initialReset: int
    /** localStorage['youtube_api_quota']. */
    var ledger: Option<Usage>
    /** localStorage['youtube_api_cache']. */
    var cacheStore: Option<Cache<D>>

    /** Every ledger this class writes carries the daily limit. */
    ghost predicate Valid()
      reads this
    {
      ValidLedger(ledger)
    }

    /** The manager over the records already in storage. */
    constructor (now: int, storedLedger: Option<Usage>, storedCache: Option<Cache<D>>)
      requires storedLedger.Some? ==> storedLedger.value.limit == DailyLimit
      ensures Valid()
      ensures initialReset == NextResetTime(now)
      ensures ledger == storedLedger && cacheStore == storedCache
    {
      initialReset := NextResetTime(now);
      ledger := storedLedger;
      cacheStore := storedCache;
    }

    method GetQuotaUsage(now: int) returns (usage: Usage)
      requires Valid()
      modifies this`ledger
      ensures Valid()
      ensures usage == Reported(old(ledger), initialReset, now)
      ensures ledger == StoredAfterRead(old(ledger), now)
      ensures usage.limit == DailyLimit
    {
      if ledger.None? {
        return Usage(0, DailyLimit, initialReset);
      }
      var data := ledger.value;
      if now > data.resetTime {
        var _ := ResetQuota(now);
        return Usage(0, DailyLimit, NextResetTime(now));
      }
      usage := data;
    }

    method AddQuotaUsage(cost: int, now: int) returns (usage: Usage)
      requires Valid()
      modifies this`ledger
      ensures Valid()
      ensures usage == Charged(old(ledger), initialReset, cost, now)
      ensures usage.used == Reported(old(ledger), initialReset, now).used + cost
      ensures usage.limit == DailyLimit && usage.resetTime == Reported(old(ledger), initialReset, now).resetTime
      ensures ledger == Some(usage)
    {
      var current := GetQuotaUsage(now);
      usage := Usage(current.used + cost, current.limit, current.resetTime);
      ledger := Some(usage);
    }

    method HasQuotaAvailable(now: int, cost: int := 1) returns (available: bool)
      requires Valid()
      modifies this`ledger
      ensures Valid()
      ensures available == Available(old(ledger), initialReset, cost, now)
      ensures available <==> Reported(old(ledger), initialReset, now).used + cost <= DailyLimit
      ensures ledger == StoredAfterRead(old(ledger), now)
    {
      var usage := GetQuotaUsage(now);
      available := usage.used + cost <= usage.limit;
    }

    method ResetQuota(now: int) returns (usage: Usage)
      modifies this`ledger
      ensures Valid()
      ensures usage == Usage(0, DailyLimit, NextResetTime(now)) && ledger == Some(usage)
    {
      usage := Usage(0, DailyLimit, NextResetTime(now));
      ledger := Some(usage);
    }

    method GetTimeUntilReset(now: int) returns (timeLeft: int)
      requires Valid()
      modifies this`ledger
      ensures Valid()
      ensures timeLeft == TimeUntilReset(old(ledger), initialReset, now) && timeLeft >= 0
      ensures ledger == StoredAfterRead(old(ledger), now)
    {
      var usage := GetQuotaUsage(now);
      var left := usage.resetTime - now;
      timeLeft := if 0 > left then 0 else left;
    }

    method FormatTimeUntilReset(now: int) returns (text: string)
      requires Valid()
      modifies this`ledger
      ensures Valid()
      ensures text == FormatDuration(TimeUntilReset(old(ledger), initialReset, now))
      ensures ledger == StoredAfterRead(old(ledger), now)
    {
      var timeLeft := GetTimeUntilReset(now);
      var hours := timeLeft / MsPerHour;
      var minutes := (timeLeft % MsPerHour) / MsPerMinute;
      text := NatToString(hours) + "h " + NatToString(minutes) + "m";
    }

    method SetCache(key: string, data: D, now: int, ttl: int := DefaultTtl)
      modifies this`cacheStore
      ensures cacheStore == StoreAfterSet(old(cacheStore), key, data, ttl, now)
      ensures key in CacheOf(cacheStore) && CacheOf(cacheStore)[key] == CacheEntry(data, now, ttl)
      ensures forall k :: k != key ==> (k in CacheOf(cacheStore) <==> k in CacheOf(old(cacheStore)))
    {
      var cache := CacheOf(cacheStore);
      cache := cache[key := CacheEntry(data, now, ttl)];
      cacheStore := Some(cache);
    }

    /** getCache(key) for a non-empty key; getCache() without a key is CacheOf(cacheStore). */
    method GetCache(key: string, now: int) returns (data: Option<D>)
      requires key != ""
      modifies this`cacheStore
      ensures data == Lookup(CacheOf(old(cacheStore)), key, now)
      ensures cacheStore == StoreAfterLookup(old(cacheStore), key, now)
    {
      var cache := CacheOf(cacheStore);
      if key !in cache {
        return None;
      }
      var item := cache[key];
      if now - item.timestamp > item.ttl {
        cache := cache - {key};
        cacheStore := Some(cache);
        return None;
      }
      data := Some(item.data);
    }

    method ClearExpiredCache(now: int)
      modifies this`cacheStore
      ensures cacheStore == StoreAfterPurge(old(cacheStore), now)
      ensures forall k :: k in CacheOf(cacheStore) <==> k in CacheOf(old(cacheStore)) && !Expired(CacheOf(old(cacheStore))[k], now)
    {
      var cache := CacheOf(cacheStore);
      var pending := cache.Keys;
      var kept := cache;
      var hasChanges := false;
      while pending != {}
        invariant pending <= cache.Keys
        invariant forall k :: k in kept ==> k in cache && kept[k] == cache[k]
        invariant forall k :: k in cache ==> (k in kept <==> k in pending || !Expired(cache[k], now))
        invariant hasChanges <==> exists k :: k in cache && k !in pending && Expired(cache[k], now)
        decreases pending
      {
        var key :| key in pending;
        if now - kept[key].timestamp > kept[key].ttl {
          kept := kept - {key};
          hasChanges := true;
        }
        pending := pending - {key};
      }
      assert kept == Purge(cache, now);
      if hasChanges {
        cacheStore := Some(kept);
      }
    }
  }
}
