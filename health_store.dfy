/**
 * Per-provider health flags kept in the shared cache under
 * "larai:health:<provider>". A provider with no live flag is healthy; a
 * failure mark makes it unhealthy until its TTL runs out.
 */
module Health {
  import opened Wrappers
  import opened Php
  import opened CacheStore

  const DefaultTtl: int := 300

  function HealthKey(provider: string): string {
    "larai:health:" + provider
  }

  /** `isHealthy`: the stored flag is strictly `true`; no flag reads as `true`. */
  predicate Healthy(m: map<string, Stored>, now: int, provider: string) {
    GetOr(m, now, HealthKey(provider), Bool(true)) == Bool(true)
  }

  function AfterFailure(m: map<string, Stored>, now: int, provider: string, ttl: int): map<string, Stored> {
    AfterPut(m, now, HealthKey(provider), Bool(false), ttl)
  }

  function AfterHealthy(m: map<string, Stored>, now: int, provider: string, ttl: int): map<string, Stored> {
    AfterPut(m, now, HealthKey(provider), Bool(true), ttl)
  }

  /** Different providers have different keys. */
  lemma HealthKeyInjective(p: string, q: string)
    ensures HealthKey(p) == HealthKey(q) ==> p == q
  {
    var pre := "larai:health:";
    if HealthKey(p) == HealthKey(q) {
      assert p == HealthKey(p)[|pre|..];
    }
  }

  /** A provider without a live entry is healthy. */
  lemma UnknownIsHealthy(m: map<string, Stored>, now: int, provider: string)
    requires Lookup(m, now, HealthKey(provider)).None?
    ensures Healthy(m, now, provider)
  {
  }

  /** Only a live entry holding exactly `true` (or null, read as the default) is healthy. */
  lemma HealthyIsStrictlyTrue(m: map<string, Stored>, now: int, provider: string)
    ensures Healthy(m, now, provider) <==>
      match Lookup(m, now, HealthKey(provider))
      case None => true
      case Some(v) => v == Null || v == Bool(true)
  {
  }

  /** After a failure mark the provider is unhealthy exactly until the TTL has passed. */
  lemma FailureExpires(m: map<string, Stored>, now: int, provider: string, ttl: int, t: int)
    requires ttl > 0 && now <= t
    ensures Healthy(AfterFailure(m, now, provider, ttl), t, provider) <==> t >= now + ttl
  {
  }

  /** After a healthy mark the provider is healthy. */
  lemma MarkedHealthy(m: map<string, Stored>, now: int, provider: string, ttl: int)
    ensures Healthy(AfterHealthy(m, now, provider, ttl), now, provider)
  {
  }

  /** Marking one provider never changes another's health. */
  lemma MarkIsolated(m: map<string, Stored>, now: int, p: string, q: string, flag: bool, ttl: int, t: int)
    requires p != q
    ensures Healthy(AfterPut(m, now, HealthKey(p), Bool(flag), ttl), t, q) == Healthy(m, t, q)
  {
    HealthKeyInjective(p, q);
  }

  /** A later mark overwrites an earlier one and restarts the TTL. */
  lemma LaterMarkWins(m: map<string, Stored>, now: int, later: int, p: string, first: bool, second: bool, ttl: int)
    requires now <= later && ttl > 0
    ensures var m1 := AfterPut(m, now, HealthKey(p), Bool(first), ttl);
            AfterPut(m1, later, HealthKey(p), Bool(second), ttl)
              == AfterPut(m, later, HealthKey(p), Bool(second), ttl)
  {
  }

  class HealthStore {
    const cache: KeyValueCache

    constructor (cache: KeyValueCache)
      ensures this.cache == cache
    {
      this.cache := cache;
    }

    method MarkFailure(provider: string, ttl: int)
      modifies cache
      ensures cache.entries == AfterFailure(old(cache.entries), cache.clock, provider, ttl)
      ensures cache.clock == old(cache.clock)
    {
      cache.Put(HealthKey(provider), Bool(false), ttl);
    }

    method MarkHealthy(provider: string, ttl: int)
      modifies cache
      ensures cache.entries == AfterHealthy(old(cache.entries), cache.clock, provider, ttl)
      ensures cache.clock == old(cache.clock)
    {
      cache.Put(HealthKey(provider), Bool(true), ttl);
    }

    predicate IsHealthy(provider: string)
      reads cache
    {
      Healthy(cache.entries, cache.clock, provider)
    }
  }
}
