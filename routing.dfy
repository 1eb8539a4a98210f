/**
 * Which providers a request is tried on, in order: the explicit override, the
 * primary provider with its fallbacks, or the router's cost/latency order with
 * unhealthy providers moved out of the way.
 */
module Routing {
  import opened Wrappers
  import opened Php
  import opened Ranking
  import opened CacheStore
  import opened Health
  import opened Settings

  predicate NoDup<T(==)>(s: seq<T>) {
    forall i, j :: 0 <= i < j < |s| ==> s[i] != s[j]
  }

  /** `array_filter($vs)`: the truthy values, in order. */
  function Truthies(vs: seq<Value>): (r: seq<Value>)
    ensures forall v :: v in r <==> v in vs && Truthy(v)
    ensures |r| <= |vs|
  {
    if vs == [] then []
    else (if Truthy(vs[0]) then [vs[0]] else []) + Truthies(vs[1..])
  }

  /** The string each value stands for as a provider name (PHP's coercion to `string`). */
  function Names(vs: seq<Value>): (r: seq<string>)
    ensures |r| == |vs|
    ensures forall i :: 0 <= i < |vs| ==> r[i] == StringOf(vs[i])
  {
    seq(|vs|, i requires 0 <= i < |vs| => StringOf(vs[i]))
  }

  /** `array_values(array_unique($ss))`: keep the first of every repeated name. */
  function Unique(ss: seq<string>): (r: seq<string>)
    ensures NoDup(r)
    ensures forall s :: s in r <==> s in ss
    ensures |r| <= |ss|
  {
    if ss == [] then []
    else
      var u := Unique(ss[..|ss| - 1]);
      assert ss == ss[..|ss| - 1] + [ss[|ss| - 1]];
      if ss[|ss| - 1] in u then u else u + [ss[|ss| - 1]]
  }

  /** A list without repeats is left as it is. */
  lemma {:induction false} UniqueOfDistinct(ss: seq<string>)
    requires NoDup(ss)
    ensures Unique(ss) == ss
  {
    if ss != [] {
      var init := ss[..|ss| - 1];
      UniqueOfDistinct(init);
      assert ss[|ss| - 1] !in init;
      assert ss == init + [ss[|ss| - 1]];
    }
  }

  /** Where `s` first occurs in `ss`. */
  function FirstIndex(ss: seq<string>, s: string): (i: nat)
    requires s in ss
    ensures i < |ss| && ss[i] == s && s !in ss[..i]
  {
    if ss[0] == s then 0
    else
      var j := FirstIndex(ss[1..], s);
      assert ss[..j + 1] == [ss[0]] + ss[1..][..j];
      j + 1
  }

  /** A first occurrence within a prefix is the first occurrence in the whole list. */
  lemma FirstIndexPrefix(ss: seq<string>, n: nat, s: string)
    requires n <= |ss| && s in ss[..n]
    ensures FirstIndex(ss, s) == FirstIndex(ss[..n], s)
  {
    var i := FirstIndex(ss[..n], s);
    assert ss[..n][..i] == ss[..i];
  }

  /**
   * `array_unique` keeps first occurrences in their original order: of two
   * names in the result, the earlier one first occurs earlier in the input.
   * With `NoDup` and the members this fixes the result completely.
   */
  lemma {:induction false} UniqueOrder(ss: seq<string>, a: nat, b: nat)
    requires a < b < |Unique(ss)|
    ensures FirstIndex(ss, Unique(ss)[a]) < FirstIndex(ss, Unique(ss)[b])
  {
    var n := |ss| - 1;
    var init := ss[..n];
    var u := Unique(init);
    assert ss == init + [ss[n]];
    assert Unique(ss)[a] == u[a] && u[a] in init;
    FirstIndexPrefix(ss, n, u[a]);
    if b < |u| {
      assert Unique(ss)[b] == u[b];
      UniqueOrder(init, a, b);
      FirstIndexPrefix(ss, n, u[b]);
    } else {
      assert Unique(ss)[b] == ss[n] && ss[n] !in init;
    }
  }

  /** Appending a value appends its name. */
  lemma NamesSnoc(vs: seq<Value>, v: Value)
    ensures Names(vs + [v]) == Names(vs) + [StringOf(v)]
  {
  }

  /**
   * `array_values(array_unique($vs))` on values: the first value of every
   * string image is kept, as it is, in order.
   */
  function UniqueValues(vs: seq<Value>): (r: seq<Value>)
    ensures Names(r) == Unique(Names(vs))
    ensures forall v :: v in r ==> v in vs
  {
    if vs == [] then []
    else
      var init := vs[..|vs| - 1];
      var last := vs[|vs| - 1];
      var u := UniqueValues(init);
      assert vs == init + [last];
      NamesSnoc(init, last);
      NamesSnoc(u, last);
      if StringOf(last) in Names(u) then u else u + [last]
  }

  /** The first value survives de-duplication in first place. */
  lemma {:induction false} UniqueValuesHead(vs: seq<Value>)
    requires vs != []
    ensures UniqueValues(vs) != [] && UniqueValues(vs)[0] == vs[0]
  {
    if |vs| > 1 {
      var init := vs[..|vs| - 1];
      UniqueValuesHead(init);
      assert init[0] == vs[0];
    }
  }

  /** `array_values(array_unique(array_filter($vs)))`: the candidates, no two with the same name. */
  function CandidateList(vs: seq<Value>): (r: seq<Value>)
    ensures NoDup(Names(r))
    ensures Names(r) == Unique(Names(Truthies(vs)))
    ensures forall v :: v in r ==> v in vs && Truthy(v)
  {
    UniqueValues(Truthies(vs))
  }

  /** The names listed are exactly those of the truthy values. */
  lemma CandidateListMembers(vs: seq<Value>, s: string)
    ensures s in Names(CandidateList(vs)) <==> exists v :: v in vs && Truthy(v) && StringOf(v) == s
  {
    var t := Truthies(vs);
    if s in Names(t) {
      var i :| 0 <= i < |t| && Names(t)[i] == s;
      assert t[i] in vs;
    }
    if exists v :: v in vs && Truthy(v) && StringOf(v) == s {
      var v :| v in vs && Truthy(v) && StringOf(v) == s;
      var i :| 0 <= i < |t| && t[i] == v;
      assert Names(t)[i] == s;
    }
  }

  /* ------------------------------------------------------------- the router */

  function KeyName(k: Key): string {
    match k
    case IntKey(n) => IntText(n)
    case StrKey(s) => s
  }

  function KeyNames(ks: seq<Key>): (r: seq<string>)
    ensures |r| == |ks|
    ensures forall i :: 0 <= i < |ks| ==> r[i] == KeyName(ks[i])
  {
    seq(|ks|, i requires 0 <= i < |ks| => KeyName(ks[i]))
  }

  /** A table key as `array_keys` gives it: integer keys stay integers. */
  function KeyValue(k: Key): Value {
    match k
    case IntKey(n) => Int(n)
    case StrKey(s) => Str(s)
  }

  function KeyValues(ks: seq<Key>): (r: seq<Value>)
    ensures |r| == |ks|
    ensures Names(r) == KeyNames(ks)
  {
    seq(|ks|, i requires 0 <= i < |ks| => KeyValue(ks[i]))
  }

  /** The `provider` option the router reads. */
  function Override(options: seq<Entry>): Value {
    Coalesce(options, StrKey("provider"), Null)
  }

  /** `larai.routing.providers`: the routing table. */
  function RoutingTable(config: Value): Value {
    ConfigPath(config, ["larai", "routing", "providers"], Arr([]))
  }

  /** `$options['routing'] ?? Config::get('larai.routing.strategy', 'cost')`. */
  function Strategy(config: Value, options: seq<Entry>): Value {
    Coalesce(options, StrKey("routing"), ConfigPath(config, ["larai", "routing", "strategy"], Str("cost")))
  }

  /** A strategy `sortProviders(array, string)` accepts: anything but null and an array is coerced to a string. */
  predicate StrategyAccepted(strategy: Value) {
    !strategy.Null? && !strategy.Arr?
  }

  /** The error `sortProviders` raises for a strategy it does not accept. */
  function StrategyError(strategy: Value): Throwable {
    TypeError("ProviderRouter::sortProviders(): Argument #2 ($strategy) must be of type string, "
              + (if strategy.Null? then "null" else "array") + " given")
  }

  /** The field a strategy orders by: "latency" for the latency strategy, otherwise "cost". */
  function RankField(strategy: string): string {
    if strategy == "latency" then "latency" else "cost"
  }

  /** `$providers[$k][$field] ?? 999`, compared as a number. */
  function Rank(table: seq<Entry>, field: string, k: Key): real {
    var row := Get(table, k).GetOr(Null);
    FloatOf(if row.Arr? then Coalesce(row.entries, StrKey(field), Int(999)) else Int(999))
  }

  /** `sortProviders`: the routing table's keys in stable ascending order of rank. */
  function SortProviders(table: seq<Entry>, field: string): (r: seq<Key>)
    ensures multiset(r) == multiset(KeysInOrder(table))
    ensures SortedBy(r, k => Rank(table, field, k))
  {
    SortBy(KeysInOrder(table), k => Rank(table, field, k))
  }

  /** The candidates whose health flag reads healthy, in order. */
  function HealthyOnly(ks: seq<Key>, m: map<string, Stored>, now: int): (r: seq<Key>)
    ensures forall k :: k in r <==> k in ks && Healthy(m, now, KeyName(k))
    ensures multiset(r) <= multiset(ks)
  {
    if ks == [] then []
    else
      var init := ks[..|ks| - 1];
      var last := ks[|ks| - 1];
      assert ks == init + [last];
      HealthyOnly(init, m, now) + (if Healthy(m, now, KeyName(last)) then [last] else [])
  }

  /** Filtering one candidate more adds it when it is healthy. */
  lemma HealthyOnlyPrefix(ks: seq<Key>, i: nat, m: map<string, Stored>, now: int)
    requires i < |ks|
    ensures HealthyOnly(ks[..i + 1], m, now)
         == HealthyOnly(ks[..i], m, now) + (if Healthy(m, now, KeyName(ks[i])) then [ks[i]] else [])
  {
    var p := ks[..i + 1];
    assert p[..|p| - 1] == ks[..i];
  }

  /** No healthy candidate leaves nothing. */
  lemma {:induction false} HealthyOnlyNone(ks: seq<Key>, m: map<string, Stored>, now: int)
    requires forall k :: k in ks ==> !Healthy(m, now, KeyName(k))
    ensures HealthyOnly(ks, m, now) == []
  {
    if ks != [] {
      HealthyOnlyNone(ks[..|ks| - 1], m, now);
    }
  }

  /** Keeping some elements of a sorted list keeps it sorted. */
  lemma {:induction false} HealthyOnlySorted(ks: seq<Key>, m: map<string, Stored>, now: int, rank: Key -> real)
    requires SortedBy(ks, rank)
    ensures SortedBy(HealthyOnly(ks, m, now), rank)
  {
    if ks != [] {
      var init := ks[..|ks| - 1];
      var last := ks[|ks| - 1];
      SortedInit(ks, rank);
      HealthyOnlySorted(init, m, now, rank);
      var h := HealthyOnly(init, m, now);
      if Healthy(m, now, KeyName(last)) {
        forall k | k in h
          ensures rank(k) <= rank(last)
        {
          var i :| 0 <= i < |init| && init[i] == k;
          assert ks[i] == k;
        }
        SnocSorted(h, last, rank);
      } else {
        assert h + [] == h;
      }
    }
  }

  /** The table path of `resolve`: the healthy candidates, or all of them when none is healthy. */
  function RouteTable(table: seq<Entry>, field: string, m: map<string, Stored>, now: int): (r: seq<Key>)
    ensures multiset(r) <= multiset(KeysInOrder(table))
  {
    var candidates := SortProviders(table, field);
    var healthy := HealthyOnly(candidates, m, now);
    if healthy == [] then candidates else healthy
  }

  /**
   * `ProviderRouter::resolve`: the candidates as the values the caller gets,
   * or the type error `sortProviders` raises for a null or array strategy.
   */
  function Route(config: Value, options: seq<Entry>, m: map<string, Stored>, now: int): (r: Result<seq<Value>, Throwable>)
    ensures Override(options).Arr? ==> r.Success? && NoDup(Names(r.value))
    ensures r.Failure? <==>
      && !Override(options).Arr?
      && RoutingTable(config).Arr? && RoutingTable(config).entries != []
      && !StrategyAccepted(Strategy(config, options))
    ensures r.Failure? ==> r.error == StrategyError(Strategy(config, options))
    ensures r.Success? && !Override(options).Arr? && |r.value| != 1 ==>
      RoutingTable(config).Arr? && RoutingTable(config).entries != []
  {
    var override := Override(options);
    if override.Arr? then Success(CandidateList(ValuesOf(override.entries)))
    else
      var providers := RoutingTable(config);
      if !providers.Arr? || providers.entries == [] then
        Success([if Truthy(override) then override else ConfigPath(config, ["larai", "default"], Str("openai"))])
      else
        var strategy := Strategy(config, options);
        if !StrategyAccepted(strategy) then Failure(StrategyError(strategy))
        else Success(KeyValues(RouteTable(providers.entries, RankField(StringOf(strategy)), m, now)))
  }

  /** Two lists with the same multiset have the same members. */
  lemma SameMembers<T>(a: seq<T>, b: seq<T>)
    requires multiset(a) == multiset(b)
    ensures forall x :: x in a <==> x in b
  {
    forall x
      ensures x in a <==> x in b
    {
      assert x in a <==> x in multiset(a);
      assert x in b <==> x in multiset(b);
    }
  }

  /** The router's result is in ascending rank. */
  lemma RouteTableSorted(table: seq<Entry>, field: string, m: map<string, Stored>, now: int)
    ensures SortedBy(RouteTable(table, field, m, now), k => Rank(table, field, k))
  {
    HealthyOnlySorted(SortProviders(table, field), m, now, k => Rank(table, field, k));
  }

  /** When some provider of the table is healthy, the router keeps exactly the healthy ones. */
  lemma RouteTableHealthy(table: seq<Entry>, field: string, m: map<string, Stored>, now: int, k0: Key)
    requires k0 in KeysInOrder(table) && Healthy(m, now, KeyName(k0))
    ensures forall k :: k in RouteTable(table, field, m, now) <==> k in KeysInOrder(table) && Healthy(m, now, KeyName(k))
  {
    var candidates := SortProviders(table, field);
    SameMembers(candidates, KeysInOrder(table));
    assert k0 in HealthyOnly(candidates, m, now);
  }

  /** The router only ever names providers of the table. */
  lemma RouteTableWithin(table: seq<Entry>, field: string, m: map<string, Stored>, now: int, k: Key)
    requires k in RouteTable(table, field, m, now)
    ensures k in KeysInOrder(table)
  {
    SameMembers(SortProviders(table, field), KeysInOrder(table));
  }

  /** When no provider of the table is healthy, the router tries them all. */
  lemma RouteTableNoneHealthy(table: seq<Entry>, field: string, m: map<string, Stored>, now: int)
    requires forall k :: k in KeysInOrder(table) ==> !Healthy(m, now, KeyName(k))
    ensures multiset(RouteTable(table, field, m, now)) == multiset(KeysInOrder(table))
  {
    var candidates := SortProviders(table, field);
    SameMembers(candidates, KeysInOrder(table));
    HealthyOnlyNone(candidates, m, now);
  }

  /** Without a list override, a router that does not fail names at least one provider. */
  lemma RouteNonEmpty(config: Value, options: seq<Entry>, m: map<string, Stored>, now: int)
    requires !Override(options).Arr?
    ensures Route(config, options, m, now).Success? ==> |Route(config, options, m, now).value| >= 1
  {
    var providers := RoutingTable(config);
    var strategy := Strategy(config, options);
    if providers.Arr? && providers.entries != [] && StrategyAccepted(strategy) {
      var candidates := SortProviders(providers.entries, RankField(StringOf(strategy)));
      assert |candidates| == |providers.entries| by {
        assert |multiset(candidates)| == |multiset(KeysInOrder(providers.entries))|;
      }
    }
  }

  /**
   * A list override is taken as given: its truthy names, first occurrences
   * only, in the caller's order, whatever the table and the health flags say.
   */
  lemma RouteOverride(config: Value, options: seq<Entry>, m: map<string, Stored>, now: int,
                      m': map<string, Stored>, now': int, s: string)
    requires Override(options).Arr?
    ensures var r := Route(config, options, m, now);
      && r.Success?
      && NoDup(Names(r.value))
      && (s in Names(r.value) <==> exists v :: v in ValuesOf(Override(options).entries) && Truthy(v) && StringOf(v) == s)
      && (forall v :: v in r.value ==> v in ValuesOf(Override(options).entries))
      && r == Route(config, options, m', now')
  {
    CandidateListMembers(ValuesOf(Override(options).entries), s);
  }

  /** A list override keeps the caller's order: names appear in the order of their first truthy occurrence. */
  lemma RouteOverrideOrder(config: Value, options: seq<Entry>, m: map<string, Stored>, now: int, a: nat, b: nat)
    requires Override(options).Arr?
    requires Route(config, options, m, now).Success? && a < b < |Route(config, options, m, now).value|
    ensures var given := Names(Truthies(ValuesOf(Override(options).entries)));
      var r := Names(Route(config, options, m, now).value);
      FirstIndex(given, r[a]) < FirstIndex(given, r[b])
  {
    UniqueOrder(Names(Truthies(ValuesOf(Override(options).entries))), a, b);
  }

  /** Count of `x` in a list without repeats is at most one. */
  lemma {:induction false} NoDupCount<T>(s: seq<T>, x: T)
    requires NoDup(s)
    ensures multiset(s)[x] <= 1
  {
    if s != [] {
      var init := s[..|s| - 1];
      assert s == init + [s[|s| - 1]];
      assert forall i :: 0 <= i < |init| ==> init[i] == s[i];
      NoDupCount(init, x);
      if x == s[|s| - 1] {
        assert x !in init;
      }
    }
  }

  /** A sub-multiset of a list without repeats has no repeats. */
  lemma NoDupBelow<T>(a: seq<T>, b: seq<T>)
    requires multiset(a) <= multiset(b) && NoDup(b)
    ensures NoDup(a)
  {
    forall i, j | 0 <= i < j < |a|
      ensures a[i] != a[j]
    {
      if a[i] == a[j] {
        var x := a[i];
        assert a == a[..j] + a[j..];
        assert a[..j][i] == x && a[j..][0] == x;
        assert multiset(a)[x] == multiset(a[..j])[x] + multiset(a[j..])[x];
        NoDupCount(b, x);
      }
    }
  }

  /** Distinct names mean distinct keys. */
  lemma KeysDistinct(keys: seq<Key>)
    requires NoDup(KeyNames(keys))
    ensures NoDup(keys)
  {
    forall i, j | 0 <= i < j < |keys|
      ensures keys[i] != keys[j]
    {
      assert KeyNames(keys)[i] != KeyNames(keys)[j];
    }
  }

  /** Distinct keys drawn from a distinctly named list have distinct names. */
  lemma NamesDistinct(r: seq<Key>, keys: seq<Key>)
    requires NoDup(r) && NoDup(KeyNames(keys))
    requires forall k :: k in r ==> k in keys
    ensures NoDup(KeyNames(r))
  {
    forall i, j | 0 <= i < j < |r|
      ensures KeyNames(r)[i] != KeyNames(r)[j]
    {
      assert r[i] in keys && r[j] in keys;
      var p :| 0 <= p < |keys| && keys[p] == r[i];
      var q :| 0 <= q < |keys| && keys[q] == r[j];
      assert KeyNames(keys)[p] == KeyName(r[i]) && KeyNames(keys)[q] == KeyName(r[j]);
    }
  }

  /** When the table names its providers distinctly, the router tries no provider twice. */
  lemma RouteTableDistinct(table: seq<Entry>, field: string, m: map<string, Stored>, now: int)
    requires NoDup(KeyNames(KeysInOrder(table)))
    ensures NoDup(KeyNames(RouteTable(table, field, m, now)))
  {
    var keys := KeysInOrder(table);
    var r := RouteTable(table, field, m, now);
    assert multiset(r) <= multiset(keys);
    KeysDistinct(keys);
    NoDupBelow(r, keys);
    SameMembers(SortProviders(table, field), keys);
    NamesDistinct(r, keys);
  }

  /**
   * The router never names a provider twice: a list override is de-duplicated,
   * the default is a single name, and a table with distinct provider names
   * gives distinct candidates.
   */
  lemma RouteDistinct(config: Value, options: seq<Entry>, m: map<string, Stored>, now: int)
    requires RoutingTable(config).Arr? ==> NoDup(KeyNames(KeysInOrder(RoutingTable(config).entries)))
    ensures Route(config, options, m, now).Success? ==> NoDup(Names(Route(config, options, m, now).value))
  {
    var providers := RoutingTable(config);
    var strategy := Strategy(config, options);
    if !Override(options).Arr? && providers.Arr? && providers.entries != [] && StrategyAccepted(strategy) {
      RouteTableDistinct(providers.entries, RankField(StringOf(strategy)), m, now);
    }
  }

  /**
   * With a non-empty routing table a scalar `provider` override plays no
   * part, and every name returned is a key of the table.
   */
  lemma RouteTableDecides(config: Value, options: seq<Entry>, m: map<string, Stored>, now: int, s: string)
    requires !Override(options).Arr?
    requires RoutingTable(config).Arr? && RoutingTable(config).entries != []
    ensures Route(config, options, m, now) == Route(config, Set(options, StrKey("provider"), Null), m, now)
    ensures Route(config, options, m, now).Success? && s in Names(Route(config, options, m, now).value) ==>
      exists k :: k in KeysInOrder(RoutingTable(config).entries) && KeyName(k) == s
  {
    var table := RoutingTable(config).entries;
    var default := ConfigPath(config, ["larai", "routing", "strategy"], Str("cost"));
    var strategy := Strategy(config, options);
    var cleared := Set(options, StrKey("provider"), Null);
    assert Override(cleared) == Null;
    CoalesceSetOther(options, StrKey("provider"), Null, StrKey("routing"), default);
    assert Strategy(config, cleared) == strategy;
    if StrategyAccepted(strategy) {
      var ks := RouteTable(table, RankField(StringOf(strategy)), m, now);
      assert Route(config, options, m, now) == Success(KeyValues(ks));
      if s in KeyNames(ks) {
        var i :| 0 <= i < |ks| && KeyNames(ks)[i] == s;
        RouteTableWithin(table, RankField(StringOf(strategy)), m, now, ks[i]);
        assert ks[i] in KeysInOrder(table) && KeyName(ks[i]) == s;
      }
    }
  }

  class ProviderRouter {
    const health: HealthStore

    constructor (health: HealthStore)
      ensures this.health == health
    {
      this.health := health;
    }

    /** The loop of `resolve` that keeps the healthy candidates. */
    method KeepHealthy(candidates: seq<Key>) returns (result: seq<Key>)
      ensures result == HealthyOnly(candidates, health.cache.entries, health.cache.clock)
    {
      result := [];
      for i := 0 to |candidates|
        invariant result == HealthyOnly(candidates[..i], health.cache.entries, health.cache.clock)
      {
        HealthyOnlyPrefix(candidates, i, health.cache.entries, health.cache.clock);
        if health.IsHealthy(KeyName(candidates[i])) {
          result := result + [candidates[i]];
        }
      }
      assert candidates[..|candidates|] == candidates;
    }

    method Resolve(config: Value, options: seq<Entry>) returns (r: Result<seq<Value>, Throwable>)
      ensures r == Route(config, options, health.cache.entries, health.cache.clock)
    {
      var override := Override(options);
      if override.Arr? {
        return Success(CandidateList(ValuesOf(override.entries)));
      }
      var providers := RoutingTable(config);
      if !providers.Arr? || providers.entries == [] {
        var default := if Truthy(override) then override else ConfigPath(config, ["larai", "default"], Str("openai"));
        return Success([default]);
      }
      var strategy := Strategy(config, options);
      if strategy.Null? || strategy.Arr? {
        return Failure(StrategyError(strategy));
      }
      var candidates := SortProviders(providers.entries, RankField(StringOf(strategy)));
      var result := KeepHealthy(candidates);
      if result == [] {
        result := candidates;
      }
      return Success(KeyValues(result));
    }
  }

  /* --------------------------------------------------- LarAI::resolveProviders */

  /** The fallback list: configured providers when fallback is on, else none. */
  function Fallbacks(config: Value, options: seq<Entry>): seq<Value> {
    var enabled := ArrGet(options, StrKey("fallback"), ConfigPath(config, ["larai", "fallback", "enabled"], Bool(true)));
    var configured := ConfigPath(config, ["larai", "fallback", "providers"], Arr([]));
    var fallbacks := if Truthy(enabled) && Truthy(configured) then configured else Arr([]);
    if fallbacks.Arr? then ValuesOf(fallbacks.entries) else []
  }

  /** `resolveProviders` when routing is disabled. */
  function Candidates(config: Value, options: seq<Entry>): (r: seq<Value>)
    ensures NoDup(Names(r))
    ensures forall v :: v in r ==> Truthy(v)
  {
    var override := ArrGet(options, StrKey("provider"), Null);
    if override.Arr? then CandidateList(ValuesOf(override.entries))
    else
      var primary := if Truthy(override) then override else ConfigPath(config, ["larai", "default"], Str("openai"));
      CandidateList([primary] + Fallbacks(config, options))
  }

  predicate RoutingEnabled(config: Value) {
    Truthy(ConfigPath(config, ["larai", "routing", "enabled"], Bool(false)))
  }

  /** `resolveProviders`. */
  function ResolveProviders(config: Value, options: seq<Entry>, m: map<string, Stored>, now: int): (r: Result<seq<Value>, Throwable>)
    ensures !RoutingEnabled(config) ==> r.Success? && NoDup(Names(r.value)) && forall v :: v in r.value ==> Truthy(v)
    ensures RoutingEnabled(config) ==> r == Route(config, options, m, now)
  {
    if RoutingEnabled(config) then Route(config, options, m, now) else Success(Candidates(config, options))
  }

  /** Without routing, a usable primary provider is tried first and no provider twice. */
  lemma CandidatesPrimaryFirst(config: Value, options: seq<Entry>)
    requires !ArrGet(options, StrKey("provider"), Null).Arr?
    ensures var override := ArrGet(options, StrKey("provider"), Null);
      var primary := if Truthy(override) then override else ConfigPath(config, ["larai", "default"], Str("openai"));
      var r := Candidates(config, options);
      NoDup(Names(r)) && (Truthy(primary) ==> |r| >= 1 && r[0] == primary)
  {
    var override := ArrGet(options, StrKey("provider"), Null);
    var primary := if Truthy(override) then override else ConfigPath(config, ["larai", "default"], Str("openai"));
    if Truthy(primary) {
      var vs := [primary] + Fallbacks(config, options);
      assert Truthies(vs) == [primary] + Truthies(vs[1..]);
      UniqueValuesHead(Truthies(vs));
    }
  }

  /** With fallback switched off, only the primary provider is tried. */
  lemma NoFallbackOnlyPrimary(config: Value, options: seq<Entry>)
    requires !ArrGet(options, StrKey("provider"), Null).Arr?
    requires !Truthy(ArrGet(options, StrKey("fallback"), ConfigPath(config, ["larai", "fallback", "enabled"], Bool(true))))
    ensures |Candidates(config, options)| <= 1
  {
    var override := ArrGet(options, StrKey("provider"), Null);
    var primary := if Truthy(override) then override else ConfigPath(config, ["larai", "default"], Str("openai"));
    assert Fallbacks(config, options) == [];
    assert [primary] + [] == [primary];
    assert [primary][1..] == [];
  }
}
