/**
 * The Laravel cache the core shares between health flags, cached responses
 * and queue rate counters: a key/value map whose entries expire, and a clock
 * in whole seconds.
 */
module CacheStore {
  import opened Wrappers
  import opened Php

  /** A cached value and the time it expires at; None means it never does. */
  datatype Stored = Stored(value: Value, expiresAt: Option<int>)

  predicate Live(s: Stored, now: int) {
    s.expiresAt.None? || now < s.expiresAt.value
  }

  /** What the store holds for `key` at time `now`. */
  function Lookup(m: map<string, Stored>, now: int, key: string): (r: Option<Value>)
    ensures key !in m ==> r.None?
  {
    if key in m && Live(m[key], now) then Some(m[key].value) else None
  }

  /** `Cache::get($key, $default)`: a missing, expired or null entry gives the default. */
  function GetOr(m: map<string, Stored>, now: int, key: string, default: Value): (r: Value)
    ensures Lookup(m, now, key).None? ==> r == default
    ensures Lookup(m, now, key).Some? && Lookup(m, now, key).value != Null ==> r == Lookup(m, now, key).value
  {
    match Lookup(m, now, key)
    case Some(v) => if v == Null then default else v
    case None => default
  }

  /** `Cache::put($key, $value, $ttl)`: a TTL of zero or less forgets the key. */
  function AfterPut(m: map<string, Stored>, now: int, key: string, v: Value, ttl: int): (r: map<string, Stored>)
    ensures forall k :: k != key ==> (k in r <==> k in m) && (k in m ==> r[k] == m[k])
    ensures ttl > 0 ==> forall t :: now <= t ==> Lookup(r, t, key) == (if t < now + ttl then Some(v) else None)
    ensures ttl <= 0 ==> key !in r
  {
    if ttl <= 0 then m - {key} else m[key := Stored(v, Some(now + ttl))]
  }

  /**
   * `Cache::increment($key)`: a live entry is cast to int and increased by one
   * keeping its expiry; otherwise the key is stored forever with value 1.
   */
  function AfterIncrement(m: map<string, Stored>, now: int, key: string): (r: (map<string, Stored>, int))
    ensures forall k :: k != key ==> (k in r.0 <==> k in m) && (k in m ==> r.0[k] == m[k])
    ensures Lookup(r.0, now, key) == Some(Int(r.1))
    ensures r.1 == match Lookup(m, now, key) case Some(v) => if v == Null then 1 else IntOf(v) + 1 case None => 1
  {
    match Lookup(m, now, key)
    case Some(v) =>
      if v == Null then (m[key := Stored(Int(1), None)], 1)
      else (m[key := Stored(Int(IntOf(v) + 1), m[key].expiresAt)], IntOf(v) + 1)
    case None => (m[key := Stored(Int(1), None)], 1)
  }

  class KeyValueCache {
    var entries: map<string, Stored>
    var clock: int

    constructor (now: int)
      ensures entries == map[] && clock == now
    {
      entries := map[];
      clock := now;
    }

    function Get(key: string, default: Value): Value
      reads this
    {
      GetOr(entries, clock, key, default)
    }

    method Put(key: string, v: Value, ttl: int)
      modifies this
      ensures entries == AfterPut(old(entries), clock, key, v, ttl)
      ensures clock == old(clock)
    {
      entries := AfterPut(entries, clock, key, v, ttl);
    }

    method Increment(key: string) returns (count: int)
      modifies this
      ensures (entries, count) == AfterIncrement(old(entries), clock, key)
      ensures clock == old(clock)
    {
      var r := AfterIncrement(entries, clock, key);
      entries, count := r.0, r.1;
    }

    /** Time passing. */
    method Advance(seconds: nat)
      modifies this
      ensures clock == old(clock) + seconds && entries == old(entries)
    {
      clock := clock + seconds;
    }
  }
}
