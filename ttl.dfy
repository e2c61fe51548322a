/**
 * `DiscoveryImpl::determineTtl`: the time-to-live given to a fresh discovery
 * response. Its documented intent is to keep a ttl hint between
 * `now + MINIMUM_TTL_MS` and `now + MAXIMUM_TTL_MS`, using `now + MINIMUM_TTL_MS`
 * when there is no hint.
 *
 * PHP's `DateTime::setTimestamp` changes the object it is called on and
 * returns that same object, and `<` on two `DateTime` handles compares their
 * times. The clock is the parameter `now`, read once.
 */
module Ttl {
  import opened Wrappers
  import opened Constants

  /** A PHP `DateTime`: one mutable instant. */
  class DateTime {
    var timestamp: int

    constructor (timestamp: int)
      ensures this.timestamp == timestamp
    {
      this.timestamp := timestamp;
    }

    /** `setTimestamp`: sets this object's instant and returns this object. */
    method SetTimestamp(t: int) returns (self: DateTime)
      modifies this
      ensures timestamp == t && self == this
    {
      timestamp := t;
      self := this;
    }
  }

  /**
   * `determineTtl` as written. `$min`, `$max` and `$currentTtl` are all the
   * one `DateTime` created on entry, so with a hint the two comparisons see
   * the same instant on both sides and never hold, and without one `$min`
   * already reads the maximum.
   */
  method DetermineTtlAsWritten(hint: Option<int>, now: int) returns (r: DateTime)
    ensures fresh(r)
    ensures hint.None? ==> r.timestamp == now + MaximumTtlMs
    ensures hint.Some? ==> r.timestamp == hint.value
  {
    var dateTimeInstance := new DateTime(now);
    var min := dateTimeInstance.SetTimestamp(now + MinimumTtlMs);
    var max := dateTimeInstance.SetTimestamp(now + MaximumTtlMs);
    if hint.None? {
      r := dateTimeInstance.SetTimestamp(min.timestamp);
      return;
    }
    var currentTtl := dateTimeInstance.SetTimestamp(hint.value);
    r := currentTtl;
    if currentTtl.timestamp < min.timestamp {
      assert false;
    }
    if currentTtl.timestamp > max.timestamp {
      assert false;
    }
  }

  /**
   * As written, neither bound is applied: a hint past the maximum comes back
   * unchanged, and no hint gives the maximum instead of the minimum.
   */
  method DetermineTtlAsWrittenDoesNotClamp(now: int)
    returns (aboveMax: int, noHint: int)
    ensures aboveMax == now + MaximumTtlMs + 1
    ensures noHint == now + MaximumTtlMs
  {
    var r1 := DetermineTtlAsWritten(Some(now + MaximumTtlMs + 1), now);
    aboveMax := r1.timestamp;
    var r2 := DetermineTtlAsWritten(None, now);
    noHint := r2.timestamp;
  }

  /** The documented time-to-live: the hint kept between the two bounds. */
  function ClampTtl(hint: Option<int>, now: int): (t: int)
    ensures hint.None? ==> t == now + MinimumTtlMs
    ensures hint.Some? && hint.value < now + MinimumTtlMs ==> t == now + MinimumTtlMs
    ensures hint.Some? && now + MinimumTtlMs <= hint.value <= now + MaximumTtlMs ==> t == hint.value
    ensures MinimumTtlMs <= MaximumTtlMs ==> now + MinimumTtlMs <= t <= now + MaximumTtlMs
  {
    if hint.None? || hint.value < now + MinimumTtlMs then now + MinimumTtlMs
    else if hint.value > now + MaximumTtlMs then now + MaximumTtlMs
    else hint.value
  }

  /** Clamping twice changes nothing more. */
  lemma ClampTtlIdempotent(hint: Option<int>, now: int)
    requires MinimumTtlMs <= MaximumTtlMs
    ensures ClampTtl(Some(ClampTtl(hint, now)), now) == ClampTtl(hint, now)
  {
  }

  /**
   * `determineTtl` with one `DateTime` per bound, as the comparisons need:
   * the result is the clamped hint, in a new object.
   */
  method DetermineTtl(hint: Option<int>, now: int) returns (r: DateTime)
    ensures fresh(r)
    ensures r.timestamp == ClampTtl(hint, now)
  {
    var min := new DateTime(now + MinimumTtlMs);
    var max := new DateTime(now + MaximumTtlMs);
    if hint.None? {
      r := new DateTime(min.timestamp);
      return;
    }
    var currentTtl := new DateTime(hint.value);
    if currentTtl.timestamp < min.timestamp {
      r := new DateTime(min.timestamp);
      return;
    }
    if currentTtl.timestamp > max.timestamp {
      r := new DateTime(max.timestamp);
      return;
    }
    r := currentTtl;
  }
}
