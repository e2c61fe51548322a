/**
 * `DiscoveryCacheImpl`, whose source is not part of this model: its contract
 * is the one its unit tests fix. Entries are keyed by MCC and MNC, and an
 * entry whose time-to-live has passed reads as absent.
 */
module DiscoveryCache {
  import opened Wrappers
  import opened Documents
  import opened Errors
  import opened DiscoveryCacheValues

  /** `DiscoveryCacheKey`: one operator. */
  datatype CacheKey = CacheKey(mcc: string, mnc: string)

  class DiscoveryCacheImpl {
    var entries: map<CacheKey, DiscoveryCacheValue>

    constructor ()
      ensures entries == map[]
    {
      entries := map[];
    }

    /** `add`: a null key or value is refused and leaves the cache as it was. */
    method Add(key: Option<CacheKey>, value: Option<DiscoveryCacheValue>) returns (o: Outcome<Failure>)
      modifies this
      ensures key.None? ==> o == Fail(InvalidArgument("key"))
      ensures key.Some? && value.None? ==> o == Fail(InvalidArgument("value"))
      ensures o.Fail? ==> entries == old(entries)
      ensures key.Some? && value.Some? ==> o.Pass? && entries == old(entries)[key.value := value.value]
    {
      if key.None? {
        return Fail(InvalidArgument("key"));
      }
      if value.None? {
        return Fail(InvalidArgument("value"));
      }
      entries := entries[key.value := value.value];
      o := Pass;
    }

    /** `get`: the stored entry, unless there is none or it has expired by `now`. */
    function Get(key: CacheKey, now: int): (r: Option<DiscoveryCacheValue>)
      reads this
      ensures r.Some? <==> key in entries && !entries[key].HasExpired(now)
      ensures r.Some? ==> r.value == entries[key]
    {
      if key in entries && !entries[key].HasExpired(now) then Some(entries[key]) else None
    }

    method Remove(key: CacheKey)
      modifies this
      ensures entries == old(entries) - {key}
    {
      entries := entries - {key};
    }

    method Clear()
      modifies this
      ensures entries == map[]
    {
      entries := map[];
    }
  }

  /** An unexpired value added under a key is read back. */
  method TestAddAndGetWithValue(key: CacheKey, value: DiscoveryCacheValue, now: int)
    returns (got: Option<DiscoveryCacheValue>)
    requires !value.HasExpired(now)
    ensures got == Some(value)
  {
    var cache := new DiscoveryCacheImpl();
    var _ := cache.Add(Some(key), Some(value));
    got := cache.Get(key, now);
  }

  /** An already expired value added under a key reads as absent. */
  method TestAddAndGetWithExpiredValue(key: CacheKey, value: DiscoveryCacheValue, now: int)
    returns (got: Option<DiscoveryCacheValue>)
    requires value.HasExpired(now)
    ensures got.None?
  {
    var cache := new DiscoveryCacheImpl();
    var _ := cache.Add(Some(key), Some(value));
    got := cache.Get(key, now);
  }

  /** A present entry reads as absent once removed. */
  method TestRemove(key: CacheKey, value: DiscoveryCacheValue, now: int)
    returns (before: Option<DiscoveryCacheValue>, after: Option<DiscoveryCacheValue>)
    requires !value.HasExpired(now)
    ensures before.Some? && after.None?
  {
    var cache := new DiscoveryCacheImpl();
    var _ := cache.Add(Some(key), Some(value));
    before := cache.Get(key, now);
    cache.Remove(key);
    after := cache.Get(key, now);
  }

  /** Removing one key leaves every other entry as it was. */
  method TestRemoveKeepsOthers(key: CacheKey, other: CacheKey, value: DiscoveryCacheValue, now: int)
    returns (got: Option<DiscoveryCacheValue>)
    requires key != other && !value.HasExpired(now)
    ensures got == Some(value)
  {
    var cache := new DiscoveryCacheImpl();
    var _ := cache.Add(Some(other), Some(value));
    cache.Remove(key);
    got := cache.Get(other, now);
  }

  /** A null key or a null value is refused with an invalid-argument failure. */
  method TestNullKeyOrValue(key: CacheKey, value: DiscoveryCacheValue)
    returns (nullKey: Outcome<Failure>, nullValue: Outcome<Failure>)
    ensures nullKey.Fail? && nullKey.error.InvalidArgument?
    ensures nullValue.Fail? && nullValue.error.InvalidArgument?
  {
    var cache := new DiscoveryCacheImpl();
    nullKey := cache.Add(None, Some(value));
    nullValue := cache.Add(Some(key), None);
  }

  /** A present entry reads as absent once the cache is cleared. */
  method TestCacheClear(key: CacheKey, value: DiscoveryCacheValue, now: int)
    returns (before: Option<DiscoveryCacheValue>, after: Option<DiscoveryCacheValue>)
    requires !value.HasExpired(now)
    ensures before == Some(value) && after.None?
  {
    var cache := new DiscoveryCacheImpl();
    var _ := cache.Add(Some(key), Some(value));
    before := cache.Get(key, now);
    cache.Clear();
    after := cache.Get(key, now);
  }
}
