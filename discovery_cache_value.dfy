/** `DiscoveryCacheValue`: an immutable time-to-live and discovery document. */
module DiscoveryCacheValues {
  import opened Wrappers
  import opened Documents
  import opened Errors

  datatype DiscoveryCacheValue = DiscoveryCacheValue(ttl: int, value: Document)
  {
    /** Expired once the time-to-live lies strictly before `now`. */
    predicate HasExpired(now: int)
    {
      ttl < now
    }
  }

  /** The constructor refuses a null time-to-live and stores its arguments otherwise. */
  function NewDiscoveryCacheValue(ttl: Option<int>, value: Document)
    : (r: Result<DiscoveryCacheValue, Failure>)
    ensures r.Failure? <==> ttl.None?
    ensures r.Failure? ==> r.error == InvalidArgument("ttl")
    ensures r.Success? ==> r.value.ttl == ttl.value && r.value.value == value
  {
    if ttl.None? then Failure(InvalidArgument("ttl")) else Success(DiscoveryCacheValue(ttl.value, value))
  }

  /** An entry is still live at the very instant of its time-to-live. */
  lemma NotExpiredAtTtl(v: DiscoveryCacheValue)
    ensures !v.HasExpired(v.ttl)
  {
  }

  /** Once expired, an entry stays expired as time advances. */
  lemma ExpiryIsMonotonic(v: DiscoveryCacheValue, now: int, later: int)
    requires now <= later && v.HasExpired(now)
    ensures v.HasExpired(later)
  {
  }

  /** A time-to-live one day in the past has expired; one a day ahead has not. */
  method TestHasExpired(now: int, value: Document) returns (past: bool, future: bool)
    ensures past && !future
  {
    var day := 24 * 60 * 60;
    var expired := NewDiscoveryCacheValue(Some(now - day), value);
    var live := NewDiscoveryCacheValue(Some(now + day), value);
    past := expired.value.HasExpired(now);
    future := live.value.HasExpired(now);
  }
}
