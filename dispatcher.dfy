/**
 * The dispatcher (`LarAI`): resolves the candidate providers of a request and
 * tries them in order, running the before-middleware, the response cache, the
 * provider call, the after-middleware and the structured-output check, marking
 * every candidate that throws as failed and moving to the next. Around it: the
 * provider memo, the queue with its per-provider minute budget, streaming,
 * configured prompts and `recommend`.
 */
module Dispatcher {
  import opened Wrappers
  import opened Php
  import opened PhpStrings
  import opened Foreign
  import opened Ranking
  import opened CacheStore
  import opened Health
  import opened Settings
  import opened Routing
  import opened Policies
  import opened Middlewares
  import opened Schema
  import opened Dtos
  import opened Similarity
  import opened Prompts

  /* ------------------------------------------------------------- providers */

  /**
   * A provider instance: the name it reports, the contracts it implements
   * (`VisionProvider`, `AudioProvider`, `StreamingProvider`) and its calls,
   * each a function of the method name and the spread arguments.
   */
  datatype Provider = Provider(
    name: string,
    vision: bool,
    audio: bool,
    streaming: bool,
    call: (string, seq<Entry>) -> Result<seq<Entry>, Throwable>,
    stream: (string, seq<Entry>) -> Emitted)

  /**
   * What a provider's streaming iterable produces when it is walked: the
   * chunks it yields, then the exception it throws after them, if any.
   */
  datatype Emitted = Emitted(chunks: seq<string>, error: Option<Throwable>)

  /** The vendors `provider()` can build from configuration. */
  const Vendors: set<string> := {"openai", "claude", "llama"}

  /** The methods whose candidates must implement a capability contract. */
  const Gated: set<string> := {"vision", "transcribe", "speak"}

  /** `resolveProviderType`: vision needs a vision provider, transcribe and speak an audio one. */
  predicate Supports(p: Provider, action: string) {
    if action == "vision" then p.vision
    else if action == "transcribe" || action == "speak" then p.audio
    else true
  }

  /** `$name ?: Config::get('larai.default', 'openai')`. */
  function ProviderName(config: Value, name: string): string {
    if Truthy(Str(name)) then name else StringOf(ConfigPath(config, ["larai", "default"], Str("openai")))
  }

  /**
   * `provider($name)`: the memoised instance, else one built from
   * `larai.providers.<name>` for a known vendor and memoised; the memo after
   * the call comes second.
   */
  function Instantiate(config: Value, vendor: (string, Value) -> Provider, memo: map<string, Provider>, name: string)
    : (r: (Result<Provider, Throwable>, map<string, Provider>))
    ensures var n := ProviderName(config, name);
      && (n in memo ==> r == (Success(memo[n]), memo))
      && (r.0.Failure? ==> r.1 == memo)
      && (r.0.Success? ==> n in r.1 && r.1[n] == r.0.value && forall k :: k != n ==> (k in r.1 <==> k in memo) && (k in memo ==> r.1[k] == memo[k]))
      && (n !in memo && r.0.Success? ==> n in Vendors)
  {
    var n := ProviderName(config, name);
    if n in memo then (Success(memo[n]), memo)
    else
      var settings := ConfigGet(config, "larai.providers." + n, Null);
      if !Truthy(settings) then (Failure(LarAIException("LarAI provider [" + n + "] is not configured.")), memo)
      else if n in Vendors then (Success(vendor(n, settings)), memo[n := vendor(n, settings)])
      else (Failure(LarAIException("LarAI provider [" + n + "] is not supported.")), memo)
  }

  /** A provider once resolved is resolved again to the same instance, without touching the memo. */
  lemma InstantiateMemoised(config: Value, vendor: (string, Value) -> Provider, memo: map<string, Provider>, name: string)
    requires Instantiate(config, vendor, memo, name).0.Success?
    ensures var (r, memo') := Instantiate(config, vendor, memo, name);
      Instantiate(config, vendor, memo', name) == (r, memo')
  {
  }

  /** A registered provider is used under its name whatever the configuration says. */
  lemma RegisteredWins(config: Value, vendor: (string, Value) -> Provider, memo: map<string, Provider>, name: string, p: Provider)
    requires name != "" && name != "0"
    ensures Instantiate(config, vendor, memo[name := p], name) == (Success(p), memo[name := p])
  {
  }

  /** `provider(?string $name)` refuses an array before its body runs. */
  const ProviderNameError := TypeError("LarAI::provider(): Argument #1 ($name) must be of type ?string, array given")

  /**
   * `provider($name)` for a candidate as the caller holds it: an array is
   * refused by the `?string` parameter; anything else is coerced to a string,
   * null to "", which `?:` then replaces by the default.
   */
  function Provide(config: Value, vendor: (string, Value) -> Provider, memo: map<string, Provider>, name: Value)
    : (Result<Provider, Throwable>, map<string, Provider>)
  {
    if name.Arr? then (Failure(ProviderNameError), memo)
    else Instantiate(config, vendor, memo, StringOf(name))
  }

  /** A memoised name is resolved to its instance, the memo untouched. */
  lemma ProvideMemoised(config: Value, vendor: (string, Value) -> Provider, memo: map<string, Provider>, name: Value, n: string)
    requires !name.Arr? && n == ProviderName(config, StringOf(name)) && n in memo
    ensures Provide(config, vendor, memo, name) == (Success(memo[n]), memo)
  {
  }

  /** A null candidate resolves like the configured default does, unless that default is an array. */
  lemma NullNameIsDefault(config: Value, vendor: (string, Value) -> Provider, memo: map<string, Provider>)
    requires !ConfigPath(config, ["larai", "default"], Str("openai")).Arr?
    ensures Provide(config, vendor, memo, Null) == Provide(config, vendor, memo, ConfigPath(config, ["larai", "default"], Str("openai")))
  {
    var d := StringOf(ConfigPath(config, ["larai", "default"], Str("openai")));
    assert ProviderName(config, "") == d;
    assert ProviderName(config, d) == d;
  }

  /* ---------------------------------------------------------- request state */

  /** The collaborators a call consults but the model does not define. */
  datatype Oracles = Oracles(
    x: Externals,
    /** a `LarAIBeforeRequest` listener answering `false`, for (provider, method, args, options) */
    vetoes: (string, string, seq<Entry>, seq<Entry>) -> bool,
    /** the `Str::uuid()` the trace middleware would draw in the attempt with this index */
    uuid: nat -> string)

  /** What one `callProvider` works with and never changes. */
  datatype Env = Env(
    o: Oracles,
    config: Value,
    policies: seq<Policy>,
    vendor: (string, Value) -> Provider,
    now: int,
    action: string,
    cacheOn: bool,
    /** whether a DTO may leave the call; false as written, see `CallAsWrittenNeverDto` */
    dtoReturns: bool)

  /** What the attempts thread from one candidate to the next. */
  datatype World = World(
    args: seq<Entry>,
    options: seq<Entry>,
    store: map<string, Stored>,
    memo: map<string, Provider>,
    last: Option<Throwable>,
    supported: bool)

  /** A job as `queue` builds it. */
  datatype QueuedJob = QueuedJob(action: string, args: seq<Entry>, provider: Option<string>)

  /** What `callProvider` returns. */
  datatype Reply = Plain(response: seq<Entry>) | Dto(dto: Response) | Queued(job: QueuedJob)

  /**
   * One candidate's attempt ends the call, hands the next candidate its
   * state, or raises a throwable from inside the catch block, which ends the
   * call as well.
   */
  datatype Step = Continue(w: World) | Done(w: World, reply: Reply) | Thrown(w: World, error: Throwable)

  /* ------------------------------------------------------------- settings */

  predicate CacheOn(config: Value, options: seq<Entry>) {
    Truthy(ArrGet(options, StrKey("cache"), ConfigPath(config, ["larai", "cache", "enabled"], Bool(false))))
  }

  function CacheTtl(config: Value, options: seq<Entry>): int {
    IntOf(ArrGet(options, StrKey("cache_ttl"), ConfigPath(config, ["larai", "cache", "ttl"], Int(300))))
  }

  predicate DtoOn(config: Value, options: seq<Entry>) {
    Truthy(ArrGet(options, StrKey("dto"), ConfigPath(config, ["larai", "dto", "enabled"], Bool(false))))
  }

  predicate HooksOn(config: Value) {
    Truthy(ConfigPath(config, ["larai", "hooks", "enabled"], Bool(true)))
  }

  /** The options that never take part in a cache key. */
  const Volatile: set<Key> := {StrKey("async"), StrKey("cache"), StrKey("cache_ttl"), StrKey("provider"), StrKey("fallback"),
                               StrKey("routing"), StrKey("response_schema"), StrKey("dto"), StrKey("trace_id")}

  /** `normalizeOptionsForCache`. */
  function NormalizeOptions(options: seq<Entry>): (r: seq<Entry>)
    ensures forall k :: k in Volatile ==> Get(r, k).None?
    ensures forall k :: k !in Volatile ==> Get(r, k) == Get(options, k)
  {
    Except(options, Volatile)
  }

  /** `cacheKey`: the prefix and the SHA-256 of the JSON of provider, method, args and normalised options. */
  function CacheKey(x: Externals, config: Value, provider: string, action: string, args: seq<Entry>, options: seq<Entry>): string {
    var payload := Arr([Entry(StrKey("provider"), Str(provider)), Entry(StrKey("method"), Str(action)),
                        Entry(StrKey("args"), Arr(args)), Entry(StrKey("options"), Arr(NormalizeOptions(options)))]);
    var json := match x.jsonEncode(payload) case Some(s) => s case None => "";
    StringOf(ConfigPath(config, ["larai", "cache", "prefix"], Str("larai:"))) + x.sha256(json)
  }

  /** Setting a volatile option, present or not, leaves the normalised options as they were. */
  lemma {:induction false} ExceptSet(options: seq<Entry>, ks: set<Key>, k: Key, v: Value)
    requires k in ks
    ensures Except(Set(options, k, v), ks) == Except(options, ks)
  {
    if options != [] && options[0].key != k {
      ExceptSet(options[1..], ks, k, v);
      assert Set(options, k, v)[1..] == Set(options[1..], k, v);
    }
  }

  /** Normalising twice is normalising once. */
  lemma {:induction false} ExceptTwice(options: seq<Entry>, ks: set<Key>)
    ensures Except(Except(options, ks), ks) == Except(options, ks)
  {
    if options != [] {
      ExceptTwice(options[1..], ks);
    }
  }

  /** Requests whose options differ only in volatile keys share a cache key. */
  lemma CacheKeyIgnoresVolatile(x: Externals, config: Value, provider: string, action: string, args: seq<Entry>, options: seq<Entry>, k: Key, v: Value)
    requires k in Volatile
    ensures CacheKey(x, config, provider, action, args, Set(options, k, v)) == CacheKey(x, config, provider, action, args, options)
    ensures CacheKey(x, config, provider, action, args, NormalizeOptions(options)) == CacheKey(x, config, provider, action, args, options)
  {
    ExceptSet(options, Volatile, k, v);
    ExceptTwice(options, Volatile);
  }

  /* ------------------------------------------------------------ one attempt */

  /** The middlewares `loadMiddlewares` builds from `larai.middlewares`. */
  function ConfiguredMiddlewares(config: Value): seq<Middleware> {
    var names := ConfigPath(config, ["larai", "middlewares"], Arr([]));
    LoadMiddlewares(if names.Arr? then ValuesOf(names.entries) else [])
  }

  /** The request context an attempt starts from; `microtime` is read as the clock. */
  function Context(options: seq<Entry>, now: int): seq<Entry> {
    [Entry(TraceKey, Coalesce(options, TraceKey, Null)), Entry(StrKey("started_at"), Float(now as real))]
  }

  /** The state after a caught throwable: the candidate marked failed for the default TTL, the throwable kept. */
  function Failed(env: Env, w: World, name: string, e: Throwable): (r: World)
    ensures r.last == Some(e) && !Healthy(r.store, env.now, name)
  {
    assert DefaultTtl > 0;
    FailureExpires(w.store, env.now, name, DefaultTtl, env.now);
    w.(store := AfterFailure(w.store, env.now, name, DefaultTtl), last := Some(e))
  }

  /** A name `markFailure(string $provider)` accepts: null and arrays are refused, anything else is coerced. */
  predicate Markable(name: Value) {
    !name.Null? && !name.Arr?
  }

  /** The error `markFailure` raises for a name it refuses. */
  function MarkError(name: Value): Throwable {
    TypeError("HealthStore::markFailure(): Argument #1 ($provider) must be of type string, "
              + (if name.Null? then "null" else "array") + " given")
  }

  /** What `markFailure($providerName)` does with a candidate: the name it marks, or the type error it raises. */
  datatype Mark = Marks(provider: string) | Refuses(error: Throwable)

  function MarkOf(name: Value): (m: Mark)
    ensures m.Marks? <==> Markable(name)
    ensures m.Marks? ==> m.provider == StringOf(name)
    ensures m.Refuses? ==> m.error == MarkError(name)
  {
    if Markable(name) then Marks(StringOf(name)) else Refuses(MarkError(name))
  }

  /**
   * The catch block: the candidate is marked failed and the throwable kept;
   * a name `markFailure` refuses raises its type error from the catch block,
   * so it escapes the loop.
   */
  function Caught(env: Env, w: World, mark: Mark, e: Throwable): Step {
    match mark
    case Marks(provider) => Continue(Failed(env, w, provider, e))
    case Refuses(error) => Thrown(w, error)
  }

  const Blocked := "LarAI request blocked by a moderation hook."

  /** The error a `callProvider` declared to return an array raises when handed a DTO. */
  const DtoReturnError := TypeError("LarAI::callProvider(): Return value must be of type array, object returned")

  /** The try block for candidate `i`, named `name`. */
  function Attempt(env: Env, w: World, name: Value, i: nat): (r: Step)
    ensures r.Done? ==> !r.reply.Queued? && (r.reply.Dto? ==> env.dtoReturns) && r.w.last == w.last && r.w.supported
    ensures r.Thrown? ==> !Markable(name) && r.error == MarkError(name) && r.w.last == w.last
  {
    var (res, memo) := Provide(env.config, env.vendor, w.memo, name);
    var w1 := w.(memo := memo);
    match res
    case Failure(e) => Caught(env, w1, MarkOf(name), e)
    case Success(p) =>
      if !Supports(p, env.action) then Continue(w1)
      else Prepare(env, w1.(supported := true), MarkOf(name), i, p)
  }

  /** The before-middleware, then the cache lookup. */
  function Prepare(env: Env, w: World, mark: Mark, i: nat, p: Provider): (r: Step)
    ensures r.Done? ==> !r.reply.Queued? && (r.reply.Dto? ==> env.dtoReturns) && r.w.last == w.last && r.w.supported == w.supported
    ensures r.Continue? ==> mark.Marks? && r.w.last.Some? && !Healthy(r.w.store, env.now, mark.provider)
    ensures r.Thrown? ==> mark.Refuses? && r.error == mark.error && r.w.last == w.last
  {
    match BeforeChain(env.o.x, env.policies, env.o.uuid(i), ConfiguredMiddlewares(env.config),
                      Prepared(w.args, w.options, Context(w.options, env.now)))
    case Failure(e) => Caught(env, w, mark, e)
    case Success(q) =>
      var w2 := w.(args := q.args, options := q.options);
      var key := CacheKey(env.o.x, env.config, p.name, env.action, q.args, q.options);
      var cached := if env.cacheOn then GetOr(w2.store, env.now, key, Null) else Null;
      if cached.Arr? then Done(w2, Plain(cached.entries))
      else Invoke(env, w2, mark, p, key, q.context)
  }

  /** The moderation hook, the provider call and the cache write. */
  function Invoke(env: Env, w: World, mark: Mark, p: Provider, key: string, context: seq<Entry>): (r: Step)
    ensures r.Done? ==> !(HooksOn(env.config) && env.o.vetoes(p.name, env.action, w.args, w.options)) && p.call(env.action, w.args).Success?
    ensures r.Done? ==> !r.reply.Queued? && (r.reply.Dto? ==> env.dtoReturns)
    ensures r.Done? ==> r.w.args == w.args && r.w.options == w.options && r.w.last == w.last && r.w.supported == w.supported
    ensures r.Continue? ==> mark.Marks? && r.w.last.Some? && !Healthy(r.w.store, env.now, mark.provider)
    ensures r.Thrown? ==> mark.Refuses? && r.error == mark.error && r.w.last == w.last
  {
    if HooksOn(env.config) && env.o.vetoes(p.name, env.action, w.args, w.options) then
      Caught(env, w, mark, LarAIException(Blocked))
    else
      match p.call(env.action, w.args)
      case Failure(e) => Caught(env, w, mark, e)
      case Success(response) =>
        var w3 := if env.cacheOn then w.(store := AfterPut(w.store, env.now, key, Arr(response), CacheTtl(env.config, w.options))) else w;
        var done := AfterChain(ConfiguredMiddlewares(env.config), Finished(response, context));
        Conclude(env, w3, mark, done.response)
  }

  /** A truthy `usage` that is not an array fails the typed usage event. */
  function UsageCheck(response: seq<Entry>): Outcome<Throwable> {
    var usage := Coalesce(response, StrKey("usage"), Null);
    if Truthy(usage) && !usage.Arr? then Fail(TypeError("LarAI::dispatchUsageEvent(): Argument #4 ($usage) must be of type array"))
    else Pass
  }

  /** Usage reporting, the structured-output check and the DTO projection. */
  function Conclude(env: Env, w: World, mark: Mark, response: seq<Entry>): (r: Step)
    ensures r.Done? ==> r.w == w && !r.reply.Queued? && (r.reply.Dto? ==> env.dtoReturns)
    ensures r.Done? ==> UsageCheck(response).Pass? && StructuredOutput(env.o.x, response, w.options).Success?
    ensures r.Continue? ==> mark.Marks? && r.w.last.Some? && !Healthy(r.w.store, env.now, mark.provider)
    ensures r.Thrown? ==> mark.Refuses? && r.error == mark.error && r.w.last == w.last
  {
    if UsageCheck(response).Fail? then Caught(env, w, mark, UsageCheck(response).error)
    else match StructuredOutput(env.o.x, response, w.options)
      case Failure(e) => Caught(env, w, mark, e)
      case Success(checked) =>
        if !DtoOn(env.config, w.options) then Done(w, Plain(checked))
        else if env.dtoReturns then Done(w, Dto(Make(env.action, checked)))
        else Caught(env, w, mark, DtoReturnError)
  }

  /** After the last candidate: the last throwable, else the unsupported-feature or resolution error. */
  function Exhausted(env: Env, w: World): Result<Reply, Throwable> {
    if w.last.Some? then Failure(w.last.value)
    else if !w.supported && env.action in Gated then Failure(UnsupportedFeatureException("LarAI provider does not support this feature."))
    else Failure(LarAIException("LarAI provider resolution failed."))
  }

  /** The candidate loop of `callProvider` from candidate `i` on. */
  function DispatchFrom(env: Env, w: World, names: seq<Value>, i: nat): (r: (World, Result<Reply, Throwable>))
    requires i <= |names|
    ensures r.1.Success? ==> !r.1.value.Queued?
    ensures r.1.Failure? ==>
      || r.1 == Exhausted(env, r.0)
      || exists j :: i <= j < |names| && !Markable(names[j]) && r.1.error == MarkError(names[j])
    decreases |names| - i
  {
    if i == |names| then (w, Exhausted(env, w))
    else
      match Attempt(env, w, names[i], i)
      case Done(w', reply) => (w', Success(reply))
      case Thrown(w', e) => (w', Failure(e))
      case Continue(w') => DispatchFrom(env, w', names, i + 1)
  }

  /* --------------------------------------------------- properties of a call */

  /**
   * Every attempt either skips its candidate (it lacks the capability: nothing
   * but the memo changes, and no health mark), or catches a throwable (it is
   * kept and the candidate is unhealthy), or ends the call with a success that
   * keeps the last throwable as it was, or ends it with the type error of a
   * name `markFailure` refuses.
   */
  lemma AttemptCases(env: Env, w: World, name: Value, i: nat)
    ensures match Attempt(env, w, name, i)
      case Done(w', reply) =>
        && w'.last == w.last && w'.supported
        && (reply.Dto? ==> env.dtoReturns) && !reply.Queued?
      case Continue(w') =>
        || (w'.args == w.args && w'.options == w.options && w'.store == w.store && w'.last == w.last && w'.supported == w.supported
            && var (res, _) := Provide(env.config, env.vendor, w.memo, name); res.Success? && !Supports(res.value, env.action))
        || (Markable(name) && w'.last.Some? && !Healthy(w'.store, env.now, StringOf(name)))
      case Thrown(w', e) =>
        !Markable(name) && e == MarkError(name) && w'.last == w.last
  {
    var (res, memo) := Provide(env.config, env.vendor, w.memo, name);
    if res.Failure? {
      FailedSettles(env, w.(memo := memo), MarkOf(name), res.error);
    } else if Supports(res.value, env.action) {
      PrepareSettles(env, w.(memo := memo, supported := true), MarkOf(name), i, res.value);
    }
  }

  /**
   * What each stage after provider resolution keeps: a success leaves the
   * caught throwable, the capability flag and the memo as they were and is
   * never a queued job; a caught throwable is kept and marks the candidate.
   */
  ghost predicate Settled(env: Env, w: World, mark: Mark, step: Step) {
    match step
    case Done(w', reply) =>
      w'.last == w.last && w'.supported == w.supported && w'.memo == w.memo && (reply.Dto? ==> env.dtoReturns) && !reply.Queued?
    case Continue(w') =>
      mark.Marks? && w'.last.Some? && !Healthy(w'.store, env.now, mark.provider) && w'.memo == w.memo
    case Thrown(w', e) =>
      mark.Refuses? && e == mark.error && w'.last == w.last && w'.memo == w.memo
  }

  /**
   * A caught throwable settles the attempt: the next candidate starts from
   * the args and options as they were, or a refused name ends the call keeping
   * the state as it was.
   */
  lemma FailedSettles(env: Env, w: World, mark: Mark, e: Throwable)
    ensures Settled(env, w, mark, Caught(env, w, mark, e))
    ensures Caught(env, w, mark, e).w.args == w.args && Caught(env, w, mark, e).w.options == w.options
  {
    if mark.Marks? {
      var w' := Failed(env, w, mark.provider, e);
      assert Caught(env, w, mark, e) == Continue(w');
    }
  }

  lemma ConcludeSettles(env: Env, w: World, mark: Mark, response: seq<Entry>)
    ensures Settled(env, w, mark, Conclude(env, w, mark, response))
    ensures Conclude(env, w, mark, response).w.args == w.args && Conclude(env, w, mark, response).w.options == w.options
  {
    if UsageCheck(response).Fail? {
      FailedSettles(env, w, mark, UsageCheck(response).error);
    } else if StructuredOutput(env.o.x, response, w.options).Failure? {
      FailedSettles(env, w, mark, StructuredOutput(env.o.x, response, w.options).error);
    } else if DtoOn(env.config, w.options) && !env.dtoReturns {
      FailedSettles(env, w, mark, DtoReturnError);
    }
  }

  lemma InvokeSettles(env: Env, w: World, mark: Mark, p: Provider, key: string, context: seq<Entry>)
    ensures Settled(env, w, mark, Invoke(env, w, mark, p, key, context))
    ensures Invoke(env, w, mark, p, key, context).w.args == w.args && Invoke(env, w, mark, p, key, context).w.options == w.options
  {
    if !(HooksOn(env.config) && env.o.vetoes(p.name, env.action, w.args, w.options)) && p.call(env.action, w.args).Success? {
      var response := p.call(env.action, w.args).value;
      var w3 := if env.cacheOn then w.(store := AfterPut(w.store, env.now, key, Arr(response), CacheTtl(env.config, w.options))) else w;
      var done := AfterChain(ConfiguredMiddlewares(env.config), Finished(response, context));
      ConcludeSettles(env, w3, mark, done.response);
    }
  }

  lemma PrepareSettles(env: Env, w: World, mark: Mark, i: nat, p: Provider)
    ensures Settled(env, w, mark, Prepare(env, w, mark, i, p))
  {
    var before := BeforeChain(env.o.x, env.policies, env.o.uuid(i), ConfiguredMiddlewares(env.config),
                              Prepared(w.args, w.options, Context(w.options, env.now)));
    if before.Success? {
      var q := before.value;
      var w2 := w.(args := q.args, options := q.options);
      var key := CacheKey(env.o.x, env.config, p.name, env.action, q.args, q.options);
      InvokeSettles(env, w2, mark, p, key, q.context);
    }
  }

  /**
   * On a cache hit the cached array is the result: no hook, no provider call,
   * no after-middleware, no schema check and no DTO.
   */
  lemma CacheHitShortCircuits(env: Env, w: World, name: Value, i: nat, p: Provider, q: Prepared, cached: seq<Entry>)
    requires Provide(env.config, env.vendor, w.memo, name).0 == Success(p) && Supports(p, env.action)
    requires BeforeChain(env.o.x, env.policies, env.o.uuid(i), ConfiguredMiddlewares(env.config),
                         Prepared(w.args, w.options, Context(w.options, env.now))) == Success(q)
    requires env.cacheOn
    requires GetOr(w.store, env.now, CacheKey(env.o.x, env.config, p.name, env.action, q.args, q.options), Null) == Arr(cached)
    ensures Attempt(env, w, name, i).Done? && Attempt(env, w, name, i).reply == Plain(cached)
  {
  }

  /**
   * On a miss, the raw provider response, before after-middleware and the
   * schema check, is what the cache then holds for the key.
   */
  lemma MissStoresRawResponse(env: Env, w: World, mark: Mark, p: Provider, key: string, context: seq<Entry>, response: seq<Entry>)
    requires env.cacheOn && CacheTtl(env.config, w.options) > 0
    requires !(HooksOn(env.config) && env.o.vetoes(p.name, env.action, w.args, w.options))
    requires p.call(env.action, w.args) == Success(response)
    requires Invoke(env, w, mark, p, key, context).Done?
    ensures Lookup(Invoke(env, w, mark, p, key, context).w.store, env.now, key) == Some(Arr(response))
  {
    var w3 := w.(store := AfterPut(w.store, env.now, key, Arr(response), CacheTtl(env.config, w.options)));
    assert Lookup(w3.store, env.now, key) == Some(Arr(response));
  }

  /** Args and options the before-middleware rewrote are what the next candidate starts from. */
  lemma RewritesPersist(env: Env, w: World, mark: Mark, i: nat, p: Provider, q: Prepared)
    requires BeforeChain(env.o.x, env.policies, env.o.uuid(i), ConfiguredMiddlewares(env.config),
                         Prepared(w.args, w.options, Context(w.options, env.now))) == Success(q)
    ensures Prepare(env, w, mark, i, p).w.args == q.args && Prepare(env, w, mark, i, p).w.options == q.options
  {
    var w2 := w.(args := q.args, options := q.options);
    InvokeSettles(env, w2, mark, p, CacheKey(env.o.x, env.config, p.name, env.action, q.args, q.options), q.context);
  }

  /** The first success ends the loop: later candidates are not attempted. */
  lemma {:induction false} StopsAtFirstSuccess(env: Env, w: World, names: seq<Value>, i: nat, rest: seq<Value>)
    requires i < |names|
    requires Attempt(env, w, names[i], i).Done?
    ensures DispatchFrom(env, w, names, i) == DispatchFrom(env, w, names[..i + 1] + rest, i)
    ensures DispatchFrom(env, w, names, i).1.Success?
  {
    var ns := names[..i + 1] + rest;
    assert ns[i] == names[i];
  }

  /**
   * A call that fails rethrows the last throwable it caught; only when it
   * caught none does it raise the unsupported-feature error (for a gated
   * method no candidate supports) or the resolution error. The one exception
   * is a candidate `markFailure` refuses (null or an array): its type error
   * escapes from the catch block in place of all of these.
   */
  lemma {:induction false} FailureIsLastThrowable(env: Env, w: World, names: seq<Value>, i: nat)
    requires i <= |names|
    ensures var (w', r) := DispatchFrom(env, w, names, i);
      && (w.last.Some? ==> w'.last.Some?)
      && (r.Failure? ==>
        || (exists j :: i <= j < |names| && !Markable(names[j]) && r.error == MarkError(names[j]))
        || LastOrExhausted(env, w', r.error))
    ensures (forall j :: i <= j < |names| ==> Markable(names[j])) ==>
      var (w', r) := DispatchFrom(env, w, names, i);
      r.Failure? ==> LastOrExhausted(env, w', r.error)
    decreases |names| - i
  {
    if i < |names| {
      AttemptCases(env, w, names[i], i);
      match Attempt(env, w, names[i], i)
      case Done(_, _) =>
      case Thrown(_, _) =>
      case Continue(w1) => FailureIsLastThrowable(env, w1, names, i + 1);
    }
  }

  /** The error a loop that ran out of candidates raises. */
  predicate LastOrExhausted(env: Env, w: World, e: Throwable) {
    && (w.last.Some? ==> e == w.last.value)
    && (w.last.None? ==> e == (if !w.supported && env.action in Gated
                               then UnsupportedFeatureException("LarAI provider does not support this feature.")
                               else LarAIException("LarAI provider resolution failed.")))
  }

  /**
   * An array candidate ends the call: `provider()` refuses it inside the try,
   * and `markFailure()` refuses it again inside the catch, so no later
   * candidate is tried and nothing is marked.
   */
  lemma ArrayNameEscapes(env: Env, w: World, names: seq<Value>, i: nat)
    requires i < |names| && names[i].Arr?
    ensures DispatchFrom(env, w, names, i) == (w, Failure(MarkError(names[i])))
  {
    assert Provide(env.config, env.vendor, w.memo, names[i]) == (Failure(ProviderNameError), w.memo);
    assert Attempt(env, w, names[i], i) == Caught(env, w.(memo := w.memo), MarkOf(names[i]), ProviderNameError);
  }

  /**
   * A null candidate (the routing default when `larai.default` is null) ends
   * the call at its first caught throwable, with the `markFailure` type error
   * instead of a fallback to the next candidate.
   */
  lemma NullNameEscapes(env: Env, w: World, names: seq<Value>, i: nat)
    requires i < |names| && names[i].Null?
    requires !Attempt(env, w, names[i], i).Done?
    requires var (res, _) := Provide(env.config, env.vendor, w.memo, names[i]); res.Failure? || Supports(res.value, env.action)
    ensures DispatchFrom(env, w, names, i).1 == Failure(MarkError(Null))
  {
    AttemptCases(env, w, names[i], i);
  }

  /**
   * When every remaining candidate is already resolved to a provider lacking
   * the capability, the call touches no health flag and ends with the
   * unsupported-feature error for a gated method and the resolution error
   * otherwise.
   */
  lemma {:induction false} NoneSupports(env: Env, w: World, names: seq<Value>, i: nat)
    requires i <= |names|
    requires w.last.None? && !w.supported
    requires forall j :: i <= j < |names| ==>
      && !names[j].Arr?
      && ProviderName(env.config, StringOf(names[j])) in w.memo
      && !Supports(w.memo[ProviderName(env.config, StringOf(names[j]))], env.action)
    ensures var (w', r) := DispatchFrom(env, w, names, i);
      && w'.store == w.store && w'.memo == w.memo
      && r == Failure(if env.action in Gated then UnsupportedFeatureException("LarAI provider does not support this feature.")
                      else LarAIException("LarAI provider resolution failed."))
    decreases |names| - i
  {
    if i < |names| {
      assert Attempt(env, w, names[i], i) == Continue(w);
      NoneSupports(env, w, names, i + 1);
    }
  }

  /**
   * As written, the DTO branch fails the declared array return type inside
   * the try block, so with `dto` enabled every candidate that gets this far is
   * marked failed like one that threw.
   */
  lemma DtoFailsAsWritten(env: Env, w: World, mark: Mark, response: seq<Entry>)
    requires !env.dtoReturns
    requires DtoOn(env.config, w.options)
    ensures !Conclude(env, w, mark, response).Done?
    ensures mark.Marks? ==> Conclude(env, w, mark, response).Continue?
    ensures mark.Marks? ==>
      Conclude(env, w, mark, response).w.last == Some(DtoReturnError) || UsageCheck(response).Fail? || StructuredOutput(env.o.x, response, w.options).Failure?
  {
  }

  /** With the return type admitting a DTO, a successful call with `dto` enabled returns `make($method, $response)`. */
  lemma DtoReturnedWhenAllowed(env: Env, w: World, mark: Mark, response: seq<Entry>)
    requires env.dtoReturns
    requires DtoOn(env.config, w.options)
    requires UsageCheck(response).Pass? && StructuredOutput(env.o.x, response, w.options).Success?
    ensures Conclude(env, w, mark, response) == Done(w, Dto(Make(env.action, response)))
  {
  }

  /* ------------------------------------------------------------------ queue */

  /** The cache key of a provider's queue counter in the current minute. */
  function RateKey(provider: string, now: int): string {
    "larai:queue:rate:" + provider + ":" + IntText(now / 60)
  }

  /** The minute budget configured for a provider, when the limiter applies to it. */
  function Budget(config: Value, provider: string): Option<int> {
    if !Truthy(ConfigPath(config, ["larai", "queue", "rate_limits", "enabled"], Bool(false))) then None
    else
      var limits := ConfigGet(config, "larai.queue.rate_limits.providers." + provider, Null);
      if !Truthy(limits) || !limits.Arr? then None
      else
        var max := IntOf(Coalesce(limits.entries, StrKey("per_minute"), Int(0)));
        if max <= 0 then None else Some(max)
  }

  /** `enforceQueueRateLimit`: count the enqueue, failing once the count passes the budget. */
  function RateLimit(config: Value, m: map<string, Stored>, now: int, provider: string): (r: (map<string, Stored>, Outcome<Throwable>))
    ensures Budget(config, provider).None? ==> r == (m, Pass)
    ensures r.1.Fail? ==> r.1.error == LarAIException("Queue rate limit exceeded for provider [" + provider + "].")
  {
    match Budget(config, provider)
    case None => (m, Pass)
    case Some(max) =>
      var key := RateKey(provider, now);
      var (m1, count) := AfterIncrement(m, now, key);
      var m2 := if count == 1 then AfterPut(m1, now, key, Int(count), 60) else m1;
      (m2, if count > max then Fail(LarAIException("Queue rate limit exceeded for provider [" + provider + "].")) else Pass)
  }

  /** The cache and the outcomes after enqueues for one provider at the given times, in order. */
  function RateLimitRuns(config: Value, m: map<string, Stored>, times: seq<int>, provider: string): (r: (map<string, Stored>, seq<Outcome<Throwable>>))
    ensures |r.1| == |times|
  {
    if times == [] then (m, [])
    else
      var (m1, os) := RateLimitRuns(config, m, times[..|times| - 1], provider);
      var (m2, o) := RateLimit(config, m1, times[|times| - 1], provider);
      (m2, os + [o])
  }

  /** Every time lies in the minute of `start`, no earlier than `start`. */
  predicate InMinuteOf(times: seq<int>, start: int) {
    forall i :: 0 <= i < |times| ==> start <= times[i] && times[i] / 60 == start / 60
  }

  /** The k-th outcome (counting from 1) fails exactly when k exceeds `max`. */
  predicate FailsPast(os: seq<Outcome<Throwable>>, max: int) {
    forall k :: 0 <= k < |os| ==> (os[k].Fail? <==> k + 1 > max)
  }

  /** An outcome that fails exactly past `max`, appended as the n-th, keeps the outcomes failing exactly past `max`. */
  lemma OutcomesSnoc(os: seq<Outcome<Throwable>>, o: Outcome<Throwable>, max: int)
    requires FailsPast(os, max)
    requires o.Fail? <==> |os| + 1 > max
    ensures FailsPast(os + [o], max)
  {
    forall k | 0 <= k < |os| + 1
      ensures (os + [o])[k].Fail? <==> k + 1 > max
    {
      if k < |os| {
        assert (os + [o])[k] == os[k];
      }
    }
  }

  /**
   * The counter after `n` enqueues in a minute that started without one: `n`,
   * expiring 60 seconds after the first of them.
   */
  predicate CountedSince(m: map<string, Stored>, key: string, n: nat, first: int) {
    key in m && m[key] == Stored(Int(n), Some(first + 60))
  }

  /** One more enqueue later in the same minute finds the counter live and raises it by one. */
  lemma RateLimitLater(config: Value, m: map<string, Stored>, t: int, provider: string, n: nat, first: int)
    requires Budget(config, provider).Some? && n > 0
    requires t / 60 == first / 60
    requires CountedSince(m, RateKey(provider, first), n, first)
    ensures CountedSince(RateLimit(config, m, t, provider).0, RateKey(provider, first), n + 1, first)
    ensures RateLimit(config, m, t, provider).1.Fail? <==> n + 1 > Budget(config, provider).value
  {
    var key := RateKey(provider, first);
    assert RateKey(provider, t) == key;
    assert t < first + 60;
    assert Lookup(m, t, key) == Some(Int(n));
    var (m1, count) := AfterIncrement(m, t, key);
    assert count == n + 1 && m1 == m[key := Stored(Int(n + 1), Some(first + 60))];
    assert RateLimit(config, m, t, provider) == (m1, if count > Budget(config, provider).value then Fail(LarAIException("Queue rate limit exceeded for provider [" + provider + "].")) else Pass);
  }

  /** The first enqueue of a minute without a live counter starts it at one, for 60 seconds. */
  lemma RateLimitFirst(config: Value, m: map<string, Stored>, t: int, provider: string)
    requires Budget(config, provider).Some?
    requires Lookup(m, t, RateKey(provider, t)).None?
    ensures CountedSince(RateLimit(config, m, t, provider).0, RateKey(provider, t), 1, t)
    ensures RateLimit(config, m, t, provider).1.Fail? <==> 1 > Budget(config, provider).value
  {
  }

  /**
   * With a budget of `max` per minute and no live count when the minute's
   * enqueues start, the k-th enqueue of the minute fails exactly when k > max,
   * failed ones counting too, whatever the seconds between them.
   */
  lemma {:induction false} RateLimitCounts(config: Value, m: map<string, Stored>, start: int, times: seq<int>, provider: string)
    requires Budget(config, provider).Some?
    requires InMinuteOf(times, start)
    requires Lookup(m, start, RateKey(provider, start)).None?
    ensures times != [] ==> CountedSince(RateLimitRuns(config, m, times, provider).0, RateKey(provider, start), |times|, times[0])
    ensures FailsPast(RateLimitRuns(config, m, times, provider).1, Budget(config, provider).value)
  {
    if times != [] {
      var init := times[..|times| - 1];
      assert InMinuteOf(init, start) by {
        assert forall i :: 0 <= i < |init| ==> init[i] == times[i];
      }
      RateLimitCounts(config, m, start, init, provider);
      RateLimitCountsStep(config, m, start, times, provider);
    }
  }

  /** The step of `RateLimitCounts`: the last enqueue of the minute, given the counts before it. */
  lemma RateLimitCountsStep(config: Value, m: map<string, Stored>, start: int, times: seq<int>, provider: string)
    requires Budget(config, provider).Some?
    requires times != [] && InMinuteOf(times, start)
    requires Lookup(m, start, RateKey(provider, start)).None?
    requires var prev := RateLimitRuns(config, m, times[..|times| - 1], provider);
      && (|times| > 1 ==> CountedSince(prev.0, RateKey(provider, start), |times| - 1, times[0]))
      && FailsPast(prev.1, Budget(config, provider).value)
    ensures CountedSince(RateLimitRuns(config, m, times, provider).0, RateKey(provider, start), |times|, times[0])
    ensures FailsPast(RateLimitRuns(config, m, times, provider).1, Budget(config, provider).value)
  {
    var n := |times| - 1;
    var init := times[..n];
    var prev := RateLimitRuns(config, m, init, provider);
    var t := times[n];
    assert RateKey(provider, t) == RateKey(provider, start);
    if n == 0 {
      RateLimitFirst(config, prev.0, t, provider);
    } else {
      assert init[0] == times[0];
      RateLimitLater(config, prev.0, t, provider, n, times[0]);
    }
    var next := RateLimit(config, prev.0, t, provider);
    assert RateLimitRuns(config, m, times, provider) == (next.0, prev.1 + [next.1]);
    OutcomesSnoc(prev.1, next.1, Budget(config, provider).value);
  }

  /** Different minutes have different counter keys. */
  lemma RateKeyPerMinute(provider: string, t: int, t': int)
    requires t / 60 != t' / 60
    ensures RateKey(provider, t) != RateKey(provider, t')
  {
    var p := "larai:queue:rate:" + provider + ":";
    if RateKey(provider, t) == RateKey(provider, t') {
      assert IntText(t / 60) == RateKey(provider, t)[|p|..];
      assert IntText(t' / 60) == RateKey(provider, t')[|p|..];
      IntTextInjective(t / 60, t' / 60);
    }
  }

  /**
   * The next minute starts a fresh count: enqueues in one minute leave the
   * counter of any other minute as it was.
   */
  lemma {:induction false} RateLimitOtherMinute(config: Value, m: map<string, Stored>, times: seq<int>, provider: string, t': int)
    requires forall i :: 0 <= i < |times| ==> times[i] / 60 != t' / 60
    ensures Lookup(RateLimitRuns(config, m, times, provider).0, t', RateKey(provider, t')) == Lookup(m, t', RateKey(provider, t'))
  {
    if times != [] {
      var n := |times| - 1;
      RateLimitOtherMinute(config, m, times[..n], provider, t');
      var prev := RateLimitRuns(config, m, times[..n], provider);
      RateKeyPerMinute(provider, times[n], t');
      RateLimitFrame(config, prev.0, times[n], provider);
    }
  }

  /** The job's provider: `?string`, so an array is a type error and a scalar its string form. */
  function JobProvider(v: Value): Result<Option<string>, Throwable> {
    match v
    case Null => Success(None)
    case Arr(_) => Failure(TypeError("LarAIJob::__construct(): Argument #3 ($provider) must be of type ?string, array given"))
    case _ => Success(Some(StringOf(v)))
  }

  /** `queue`: refused when disabled; a truthy `provider` option is charged to its minute budget first. */
  function Enqueue(config: Value, m: map<string, Stored>, now: int, action: string, args: seq<Entry>, options: seq<Entry>)
    : (r: (Result<Reply, Throwable>, map<string, Stored>))
    ensures r.0.Success? ==> var provider := ArrGet(options, StrKey("provider"), Null);
      JobProvider(provider).Success? && r.0.value == Queued(QueuedJob(action, args, JobProvider(provider).value))
    ensures !Truthy(ConfigPath(config, ["larai", "queue", "enabled"], Null)) ==> r == (Failure(UnsupportedFeatureException("LarAI queue support is disabled.")), m)
  {
    if !Truthy(ConfigPath(config, ["larai", "queue", "enabled"], Null)) then
      (Failure(UnsupportedFeatureException("LarAI queue support is disabled.")), m)
    else
      var provider := ArrGet(options, StrKey("provider"), Null);
      var (m1, o) := Charge(config, m, now, provider);
      (Admit(o, action, args, provider), m1)
  }

  /** The rate limit a truthy `provider` option is charged to; an array cannot name one. */
  function Charge(config: Value, m: map<string, Stored>, now: int, provider: Value): (map<string, Stored>, Outcome<Throwable>) {
    if !Truthy(provider) then (m, Pass)
    else if provider.Arr? then (m, Fail(RateLimitTypeError))
    else RateLimit(config, m, now, StringOf(provider))
  }

  /** The job once the rate limit let it through. */
  function Admit(o: Outcome<Throwable>, action: string, args: seq<Entry>, provider: Value): (r: Result<Reply, Throwable>)
    ensures r.Success? ==> o.Pass? && JobProvider(provider).Success? && r.value == Queued(QueuedJob(action, args, JobProvider(provider).value))
  {
    match o
    case Fail(e) => Failure(e)
    case Pass =>
      match JobProvider(provider)
      case Failure(e) => Failure(e)
      case Success(p) => Success(Queued(QueuedJob(action, args, p)))
  }

  /** `enforceQueueRateLimit` touches no key but the provider's counter for the current minute. */
  lemma RateLimitFrame(config: Value, m: map<string, Stored>, now: int, provider: string)
    ensures var m' := RateLimit(config, m, now, provider).0;
      forall k :: k != RateKey(provider, now) ==> (k in m' <==> k in m) && (k in m ==> m'[k] == m[k])
  {
    if Budget(config, provider).Some? {
      var key := RateKey(provider, now);
      var (m1, count) := AfterIncrement(m, now, key);
      if count == 1 {
        var m2 := AfterPut(m1, now, key, Int(count), 60);
        assert forall k :: k != key ==> (k in m2 <==> k in m) && (k in m ==> m2[k] == m[k]);
      }
    }
  }

  /** Without a `provider` option `queue` leaves the cache as it was. */
  lemma EnqueueWithoutProvider(config: Value, m: map<string, Stored>, now: int, action: string, args: seq<Entry>, options: seq<Entry>)
    requires !Truthy(ArrGet(options, StrKey("provider"), Null))
    ensures Enqueue(config, m, now, action, args, options).1 == m
  {
  }

  /** `queue` changes no cache key but the provider's counter for the current minute. */
  lemma EnqueueFrame(config: Value, m: map<string, Stored>, now: int, action: string, args: seq<Entry>, options: seq<Entry>)
    ensures var m' := Enqueue(config, m, now, action, args, options).1;
      var provider := ArrGet(options, StrKey("provider"), Null);
      forall k :: k != RateKey(StringOf(provider), now) ==> (k in m' <==> k in m) && (k in m ==> m'[k] == m[k])
  {
    var provider := ArrGet(options, StrKey("provider"), Null);
    if Truthy(provider) && !provider.Arr? {
      RateLimitFrame(config, m, now, StringOf(provider));
    }
  }

  /** `enforceQueueRateLimit` takes a string provider name. */
  const RateLimitTypeError := TypeError("LarAI::enforceQueueRateLimit(): Argument #1 ($provider) must be of type string, array given")

  /* --------------------------------------------------------------- a call */

  /**
   * `callProvider`: a truthy `async` option queues the call; otherwise the
   * candidates are tried, with a DTO returned when `dto` is enabled.
   */
  function Call(o: Oracles, config: Value, policies: seq<Policy>, vendor: (string, Value) -> Provider,
                store: map<string, Stored>, now: int, memo: map<string, Provider>,
                action: string, args: seq<Entry>, options: seq<Entry>)
    : (r: (Result<Reply, Throwable>, map<string, Stored>, map<string, Provider>))
    ensures r.0.Success? && r.0.value.Queued? ==> Truthy(ArrGet(options, StrKey("async"), Null))
  {
    CallWith(o, config, policies, vendor, store, now, memo, action, args, options, true)
  }

  /** `callProvider` as written: the DTO branch raises a type error that the catch-all catches. */
  function CallAsWritten(o: Oracles, config: Value, policies: seq<Policy>, vendor: (string, Value) -> Provider,
                         store: map<string, Stored>, now: int, memo: map<string, Provider>,
                         action: string, args: seq<Entry>, options: seq<Entry>)
    : (Result<Reply, Throwable>, map<string, Stored>, map<string, Provider>)
  {
    CallWith(o, config, policies, vendor, store, now, memo, action, args, options, false)
  }

  /** The candidate loop never yields a DTO when the return type refuses one. */
  lemma {:induction false} DispatchNeverDto(env: Env, w: World, names: seq<Value>, i: nat)
    requires i <= |names| && !env.dtoReturns
    ensures var r := DispatchFrom(env, w, names, i).1; r.Success? ==> !r.value.Dto?
    decreases |names| - i
  {
    if i < |names| {
      AttemptCases(env, w, names[i], i);
      match Attempt(env, w, names[i], i)
      case Done(_, _) =>
      case Thrown(_, _) =>
      case Continue(w1) => DispatchNeverDto(env, w1, names, i + 1);
    }
  }

  /** As written, no call returns a DTO, whatever `dto` says. */
  lemma CallAsWrittenNeverDto(o: Oracles, config: Value, policies: seq<Policy>, vendor: (string, Value) -> Provider,
                              store: map<string, Stored>, now: int, memo: map<string, Provider>,
                              action: string, args: seq<Entry>, options: seq<Entry>)
    ensures var r := CallAsWritten(o, config, policies, vendor, store, now, memo, action, args, options).0;
      r.Success? ==> !r.value.Dto?
  {
    var resolved := ResolveProviders(config, options, store, now);
    if !Truthy(ArrGet(options, StrKey("async"), Null)) && resolved.Success? {
      var env := Env(o, config, policies, vendor, now, action, CacheOn(config, options), false);
      DispatchNeverDto(env, World(args, options, store, memo, None, false), resolved.value, 0);
    }
  }

  /**
   * With the return type admitting a DTO, a call whose first candidate
   * answers with `dto` enabled returns `make($method, $response)` of that
   * answer after the after-middleware and the schema check.
   */
  lemma CallReturnsDto(o: Oracles, config: Value, policies: seq<Policy>, vendor: (string, Value) -> Provider,
                       store: map<string, Stored>, now: int, memo: map<string, Provider>,
                       action: string, args: seq<Entry>, options: seq<Entry>, response: seq<Entry>)
    requires !Truthy(ArrGet(options, StrKey("async"), Null))
    requires var env := Env(o, config, policies, vendor, now, action, CacheOn(config, options), true);
      var resolved := ResolveProviders(config, options, store, now);
      && resolved.Success?
      && var names := resolved.value;
      && |names| > 0
      && var step := Attempt(env, World(args, options, store, memo, None, false), names[0], 0);
      && step.Done? && step.reply == Dto(Make(action, response))
    ensures Call(o, config, policies, vendor, store, now, memo, action, args, options).0 == Success(Dto(Make(action, response)))
  {
  }

  /** The call, with `dtoReturns` saying whether a DTO may leave it. */
  function CallWith(o: Oracles, config: Value, policies: seq<Policy>, vendor: (string, Value) -> Provider,
                    store: map<string, Stored>, now: int, memo: map<string, Provider>,
                    action: string, args: seq<Entry>, options: seq<Entry>, dtoReturns: bool)
    : (r: (Result<Reply, Throwable>, map<string, Stored>, map<string, Provider>))
    ensures r.0.Success? && r.0.value.Queued? ==> Truthy(ArrGet(options, StrKey("async"), Null))
  {
    if Truthy(ArrGet(options, StrKey("async"), Null)) then
      var (r, m) := Enqueue(config, store, now, action, args, options);
      (r, m, memo)
    else
      var env := Env(o, config, policies, vendor, now, action, CacheOn(config, options), dtoReturns);
      match ResolveProviders(config, options, store, now)
      case Failure(e) => (Failure(e), store, memo)
      case Success(names) =>
        var (w, r) := DispatchFrom(env, World(args, options, store, memo, None, false), names, 0);
        (r, w.store, w.memo)
  }

  /**
   * With routing on, a routing table and a null or array strategy, the call
   * fails with the `sortProviders` type error before any candidate is tried:
   * no provider is resolved and no health flag is written.
   */
  lemma UnroutableCallFails(o: Oracles, config: Value, policies: seq<Policy>, vendor: (string, Value) -> Provider,
                            store: map<string, Stored>, now: int, memo: map<string, Provider>,
                            action: string, args: seq<Entry>, options: seq<Entry>)
    requires !Truthy(ArrGet(options, StrKey("async"), Null))
    requires RoutingEnabled(config) && !Override(options).Arr?
    requires RoutingTable(config).Arr? && RoutingTable(config).entries != []
    requires !StrategyAccepted(Strategy(config, options))
    ensures Call(o, config, policies, vendor, store, now, memo, action, args, options)
         == (Failure(StrategyError(Strategy(config, options))), store, memo)
  {
  }

  /** An async call resolves no provider and runs no middleware: only the queue counter can change. */
  lemma AsyncOnlyQueues(o: Oracles, config: Value, policies: seq<Policy>, vendor: (string, Value) -> Provider,
                        store: map<string, Stored>, now: int, memo: map<string, Provider>,
                        action: string, args: seq<Entry>, options: seq<Entry>)
    requires Truthy(ArrGet(options, StrKey("async"), Null))
    ensures var (r, m, memo') := Call(o, config, policies, vendor, store, now, memo, action, args, options);
      && memo' == memo
      && (r.Success? ==> r.value == Queued(QueuedJob(action, args, JobProvider(ArrGet(options, StrKey("provider"), Null)).value)))
      && (!Truthy(ArrGet(options, StrKey("provider"), Null)) ==> m == store)
      && (forall k :: k != RateKey(StringOf(ArrGet(options, StrKey("provider"), Null)), now) ==>
            (k in m <==> k in store) && (k in store ==> m[k] == store[k]))
  {
    if !Truthy(ArrGet(options, StrKey("provider"), Null)) {
      EnqueueWithoutProvider(config, store, now, action, args, options);
    }
    EnqueueFrame(config, store, now, action, args, options);
    var (r, m) := Enqueue(config, store, now, action, args, options);
    assert Call(o, config, policies, vendor, store, now, memo, action, args, options) == (r, m, memo);
  }

  /* -------------------------------------------------------------- streaming */

  /** The generator `streamProvider` hands back; nothing runs until it is pulled. */
  datatype Stream = Stream(provider: Provider, action: string, args: seq<Entry>, onChunk: bool)

  /** What pulling the generator produces, in order. */
  datatype StreamEvent = Callback(chunk: string) | Yielded(chunk: string)

  /** `streamProvider`: the first candidate that resolves to a streaming provider, with no fallback after it. */
  function StreamFrom(config: Value, vendor: (string, Value) -> Provider, memo: map<string, Provider>, names: seq<Value>, i: nat,
                      action: string, args: seq<Entry>, onChunk: bool)
    : (r: (Result<Stream, Throwable>, map<string, Provider>))
    requires i <= |names|
    ensures r.0.Success? ==> r.0.value.provider.streaming && r.0.value.action == action && r.0.value.args == args
    ensures r.0.Failure? ==> r.0.error == UnsupportedFeatureException("LarAI streaming is not supported by the configured providers.")
    decreases |names| - i
  {
    if i == |names| then (Failure(UnsupportedFeatureException("LarAI streaming is not supported by the configured providers.")), memo)
    else
      var (res, memo') := Provide(config, vendor, memo, names[i]);
      if res.Success? && res.value.streaming then (Success(Stream(res.value, action, args, onChunk)), memo')
      else StreamFrom(config, vendor, memo', names, i + 1, action, args, onChunk)
  }

  /** One candidate of `streamProvider`: it wins when it resolves to a streaming provider, else the next one is looked up. */
  lemma StreamFromStep(config: Value, vendor: (string, Value) -> Provider, memo: map<string, Provider>, names: seq<Value>, i: nat,
                       action: string, args: seq<Entry>, onChunk: bool, res: Result<Provider, Throwable>, memo': map<string, Provider>)
    requires i < |names|
    requires (res, memo') == Provide(config, vendor, memo, names[i])
    ensures res.Success? && res.value.streaming ==>
      StreamFrom(config, vendor, memo, names, i, action, args, onChunk) == (Success(Stream(res.value, action, args, onChunk)), memo')
    ensures !(res.Success? && res.value.streaming) ==>
      StreamFrom(config, vendor, memo, names, i, action, args, onChunk) == StreamFrom(config, vendor, memo', names, i + 1, action, args, onChunk)
  {
  }

  /** The first candidate that resolves to a streaming provider wins, whatever follows it. */
  lemma {:induction false} FirstStreamingWins(config: Value, vendor: (string, Value) -> Provider, memo: map<string, Provider>,
                                              names: seq<Value>, i: nat, action: string, args: seq<Entry>, onChunk: bool, j: nat)
    requires i <= j < |names|
    requires forall k :: i <= k < j ==>
      || names[k].Arr?
      || (ProviderName(config, StringOf(names[k])) in memo && !memo[ProviderName(config, StringOf(names[k]))].streaming)
    requires !names[j].Arr? && ProviderName(config, StringOf(names[j])) in memo && memo[ProviderName(config, StringOf(names[j]))].streaming
    ensures StreamFrom(config, vendor, memo, names, i, action, args, onChunk) ==
      (Success(Stream(memo[ProviderName(config, StringOf(names[j]))], action, args, onChunk)), memo)
    decreases j - i
  {
    if names[i].Arr? {
      StreamFromStep(config, vendor, memo, names, i, action, args, onChunk, Failure(ProviderNameError), memo);
    } else {
      var n := ProviderName(config, StringOf(names[i]));
      ProvideMemoised(config, vendor, memo, names[i], n);
      StreamFromStep(config, vendor, memo, names, i, action, args, onChunk, Success(memo[n]), memo);
    }
    if i < j {
      FirstStreamingWins(config, vendor, memo, names, i + 1, action, args, onChunk, j);
    }
  }

  /** The events of pulling the whole stream: `onChunk`, when given, runs before each chunk is yielded. */
  function Pulled(chunks: seq<string>, onChunk: bool): (r: seq<StreamEvent>)
    ensures |r| == (if onChunk then 2 else 1) * |chunks|
  {
    if chunks == [] then []
    else (if onChunk then [Callback(chunks[0]), Yielded(chunks[0])] else [Yielded(chunks[0])]) + Pulled(chunks[1..], onChunk)
  }

  /**
   * Pulling a stream: the provider's stream call runs only now. The events of
   * the chunks it yielded have reached the consumer before its exception, if
   * any, surfaces.
   */
  function Drain(s: Stream): (r: (seq<StreamEvent>, Option<Throwable>))
    ensures r.1 == s.provider.stream(s.action, s.args).error
    ensures |r.0| == (if s.onChunk then 2 else 1) * |s.provider.stream(s.action, s.args).chunks|
  {
    var out := s.provider.stream(s.action, s.args);
    (Pulled(out.chunks, s.onChunk), out.error)
  }

  /** Pulling is incremental: the events of later chunks follow those of earlier ones. */
  lemma {:induction false} PulledAppend(xs: seq<string>, ys: seq<string>, onChunk: bool)
    ensures Pulled(xs + ys, onChunk) == Pulled(xs, onChunk) + Pulled(ys, onChunk)
  {
    if xs != [] {
      var h := if onChunk then [Callback(xs[0]), Yielded(xs[0])] else [Yielded(xs[0])];
      assert (xs + ys)[0] == xs[0];
      assert (xs + ys)[1..] == xs[1..] + ys;
      assert Pulled(xs + ys, onChunk) == h + Pulled(xs[1..] + ys, onChunk);
      PulledAppend(xs[1..], ys, onChunk);
      assert Pulled(xs, onChunk) == h + Pulled(xs[1..], onChunk);
      assert h + (Pulled(xs[1..], onChunk) + Pulled(ys, onChunk)) == (h + Pulled(xs[1..], onChunk)) + Pulled(ys, onChunk);
    } else {
      assert xs + ys == ys;
    }
  }

  /** Without a callback, event k yields chunk k. */
  lemma {:induction false} YieldOnly(chunks: seq<string>, k: nat)
    requires k < |chunks|
    ensures Pulled(chunks, false)[k] == Yielded(chunks[k])
  {
    if k > 0 {
      YieldOnly(chunks[1..], k - 1);
    }
  }

  /** With a callback, event 2k is the callback for chunk k and event 2k+1 yields it. */
  lemma {:induction false} CallbackBeforeYield(chunks: seq<string>, k: nat)
    requires k < |chunks|
    ensures Pulled(chunks, true)[2 * k] == Callback(chunks[k])
    ensures Pulled(chunks, true)[2 * k + 1] == Yielded(chunks[k])
  {
    if k > 0 {
      CallbackBeforeYield(chunks[1..], k - 1);
    }
  }

  /**
   * A provider stream that throws after k chunks has already delivered
   * those k chunks: every one of them is yielded, in order, before the error.
   */
  lemma DrainDeliversBeforeError(s: Stream, k: nat)
    requires k < |s.provider.stream(s.action, s.args).chunks|
    ensures var chunks := s.provider.stream(s.action, s.args).chunks;
      Drain(s).0[(if s.onChunk then 2 * k + 1 else k)] == Yielded(chunks[k])
  {
    var chunks := s.provider.stream(s.action, s.args).chunks;
    if s.onChunk {
      CallbackBeforeYield(chunks, k);
    } else {
      YieldOnly(chunks, k);
    }
  }

  /* ---------------------------------------------------------------- prompts */

  /** `prompt($name, $vars)` over `larai.prompts.<name>`. */
  function PromptOf(config: Value, name: string, vars: seq<Entry>): (r: Result<string, Throwable>)
    ensures !Truthy(ConfigGet(config, "larai.prompts." + name, Null)) ==>
      r == Failure(LarAIException("Prompt template [" + name + "] is not defined."))
    ensures r.Success? ==> r.value == Substitute(StringOf(ConfigGet(config, "larai.prompts." + name, Null)), vars)
  {
    var template := ConfigGet(config, "larai.prompts." + name, Null);
    if !Truthy(template) then Failure(LarAIException("Prompt template [" + name + "] is not defined."))
    else if template.Arr? then Failure(TypeError("LarAI::prompt(): Return value must be of type string, array returned"))
    else Success(Substitute(StringOf(template), vars))
  }

  /** A configured template without any of the variables' placeholders renders as itself. */
  lemma PromptWithoutPlaceholders(config: Value, name: string, vars: seq<Entry>, s: string)
    requires ConfigGet(config, "larai.prompts." + name, Null) == Str(s) && s != "" && s != "0"
    requires forall i :: 0 <= i < |vars| ==> !Occurs(Placeholder(vars[i].key), s)
    ensures PromptOf(config, name, vars) == Success(s)
  {
    SubstituteAbsent(s, vars);
  }

  /* ------------------------------------------------------------- recommend */

  datatype Recommendation = Recommendation(item: Value, score: real)

  datatype Recommended = Recommended(recommendations: seq<Recommendation>, usage: Value, raw: seq<Entry>)

  function ByScoreDescending(r: Recommendation): real {
    -r.score
  }

  /** The embeddings hold a vector for candidate `i` (the query takes index 0). */
  predicate HasVector(vectors: seq<Entry>, i: int) {
    match Get(vectors, IntKey(i + 1))
    case Some(Arr(_)) => true
    case _ => false
  }

  /** The scored candidates, in candidate order; one without a vector at `index + 1` is dropped. */
  function Scored(x: Externals, query: seq<Entry>, vectors: seq<Entry>, candidates: seq<Value>): (r: seq<Recommendation>)
    ensures |r| <= |candidates|
    ensures forall rec :: rec in r ==> rec.item in candidates
  {
    if candidates == [] then []
    else
      var n := |candidates| - 1;
      var init := Scored(x, query, vectors, candidates[..n]);
      match Get(vectors, IntKey(n + 1))
      case Some(Arr(v)) => init + [Recommendation(candidates[n], Cosine(x, query, v))]
      case _ => init
  }

  /** A reply read as the array `$response` is; what the bus returns for a dispatched job is not modelled. */
  function ReplyArray(reply: Reply): Result<seq<Entry>, Throwable> {
    match reply
    case Plain(response) => Success(response)
    case Queued(_) => Success([Entry(StrKey("queued"), Bool(true)), Entry(StrKey("job"), Null)])
    case Dto(_) => Failure(TypeError("LarAI::embeddings(): Return value must be of type array, object returned"))
  }

  /** The normalised vectors of an embeddings response and the query's vector among them. */
  function QueryVectors(response: seq<Entry>): Result<(seq<Entry>, seq<Entry>), Throwable>
  {
    match Coalesce(response, StrKey("embeddings"), Arr([]))
    case Arr(embeddings) => QueryOf(Normalized(embeddings))
    case _ => Failure(TypeError("LarAI::normalizeEmbeddings(): Argument #1 ($embeddings) must be of type array"))
  }

  /** `normalizeEmbeddings` accepts only an array of embeddings. */
  lemma QueryVectorsCases(response: seq<Entry>)
    ensures var e := Coalesce(response, StrKey("embeddings"), Arr([]));
      e.Arr? ==> QueryVectors(response) == QueryOf(Normalized(e.entries))
    ensures var e := Coalesce(response, StrKey("embeddings"), Arr([]));
      !e.Arr? ==> QueryVectors(response) == Failure(TypeError("LarAI::normalizeEmbeddings(): Argument #1 ($embeddings) must be of type array"))
  {
  }

  /** The query's vector, at index 0 of the normalised vectors, must be an array. */
  function QueryOf(vectors: seq<Entry>): (r: Result<(seq<Entry>, seq<Entry>), Throwable>)
    ensures r.Success? ==> Get(r.value.1, IntKey(0)) == Some(Arr(r.value.0))
  {
    match Get(vectors, IntKey(0))
    case Some(Arr(query)) => Success((query, vectors))
    case _ => Failure(LarAIException("Unable to compute embeddings for the query."))
  }

  /** `recommend` after the embeddings call: normalise, score against the query vector, sort by descending score. */
  function RecommendFrom(x: Externals, reply: Reply, candidates: seq<Entry>): Result<Recommended, Throwable> {
    match ReplyArray(reply)
    case Failure(e) => Failure(e)
    case Success(response) =>
      match QueryVectors(response)
      case Failure(e) => Failure(e)
      case Success((query, vectors)) =>
        var recs := Scored(x, query, vectors, ValuesOf(candidates));
        Success(Recommended(SortBy(recs, ByScoreDescending), Coalesce(response, StrKey("usage"), Arr([])), response))
  }

  /** The recommendations scoring exactly `score`, in order. */
  function TiedAt(recs: seq<Recommendation>, score: real): (r: seq<Recommendation>)
    ensures forall rec :: rec in r ==> rec in recs && rec.score == score
  {
    if recs == [] then []
    else (if recs[0].score == score then [recs[0]] else []) + TiedAt(recs[1..], score)
  }

  lemma {:induction false} TiedAtRank(recs: seq<Recommendation>, score: real)
    ensures TiedAt(recs, score) == WithRank(recs, ByScoreDescending, -score)
  {
    if recs != [] {
      TiedAtRank(recs[1..], score);
    }
  }

  /** Sorting by descending score keeps the order among candidates of one score. */
  lemma TiesKeepOrder(recs: seq<Recommendation>, score: real)
    ensures TiedAt(SortBy(recs, ByScoreDescending), score) == TiedAt(recs, score)
  {
    calc {
      TiedAt(SortBy(recs, ByScoreDescending), score);
      == { TiedAtRank(SortBy(recs, ByScoreDescending), score); }
      WithRank(SortBy(recs, ByScoreDescending), ByScoreDescending, -score);
      == { SortByStable(recs, ByScoreDescending, -score); }
      WithRank(recs, ByScoreDescending, -score);
      == { TiedAtRank(recs, score); }
      TiedAt(recs, score);
    }
  }

  /**
   * The recommendations are the scored candidates by descending score, and
   * candidates of equal score keep their relative order.
   */
  lemma RecommendOrdered(x: Externals, reply: Reply, candidates: seq<Entry>, s: real)
    requires RecommendFrom(x, reply, candidates).Success?
    ensures var (query, vectors) := QueryVectors(ReplyArray(reply).value).value;
      var recs := Scored(x, query, vectors, ValuesOf(candidates));
      var out := RecommendFrom(x, reply, candidates).value.recommendations;
      && (forall i, j :: 0 <= i < j < |out| ==> out[i].score >= out[j].score)
      && multiset(out) == multiset(recs)
      && TiedAt(out, s) == TiedAt(recs, s)
  {
    var (query, vectors) := QueryVectors(ReplyArray(reply).value).value;
    var recs := Scored(x, query, vectors, ValuesOf(candidates));
    var out := SortBy(recs, ByScoreDescending);
    assert RecommendFrom(x, reply, candidates).value.recommendations == out;
    assert SortedBy(out, ByScoreDescending);
    forall i, j | 0 <= i < j < |out|
      ensures out[i].score >= out[j].score
    {
      assert ByScoreDescending(out[i]) <= ByScoreDescending(out[j]);
    }
    TiesKeepOrder(recs, s);
  }

  /** Without a query vector there is nothing to compare against. */
  lemma NoQueryVectorFails(x: Externals, response: seq<Entry>, candidates: seq<Entry>, embeddings: seq<Entry>)
    requires Coalesce(response, StrKey("embeddings"), Arr([])) == Arr(embeddings)
    requires !(Get(Normalized(embeddings), IntKey(0)).Some? && Get(Normalized(embeddings), IntKey(0)).value.Arr?)
    ensures RecommendFrom(x, Plain(response), candidates) == Failure(LarAIException("Unable to compute embeddings for the query."))
  {
    QueryVectorsCases(response);
    assert QueryOf(Normalized(embeddings)) == Failure(LarAIException("Unable to compute embeddings for the query."));
    assert QueryVectors(response) == Failure(LarAIException("Unable to compute embeddings for the query."));
  }

  /** The candidates below `n` the embeddings hold a vector for. */
  function WithVector(vectors: seq<Entry>, n: nat): set<nat> {
    set i: nat | i < n && HasVector(vectors, i)
  }

  lemma WithVectorStep(vectors: seq<Entry>, n: nat)
    ensures |WithVector(vectors, n + 1)| == |WithVector(vectors, n)| + (if HasVector(vectors, n) then 1 else 0)
  {
    if HasVector(vectors, n) {
      assert WithVector(vectors, n + 1) == WithVector(vectors, n) + {n};
    } else {
      assert WithVector(vectors, n + 1) == WithVector(vectors, n);
    }
  }

  lemma ScoredStep(x: Externals, query: seq<Entry>, vectors: seq<Entry>, candidates: seq<Value>)
    requires candidates != []
    ensures |Scored(x, query, vectors, candidates)| ==
      |Scored(x, query, vectors, candidates[..|candidates| - 1])| + (if HasVector(vectors, |candidates| - 1) then 1 else 0)
  {
  }

  /** Exactly the candidates the embeddings hold a vector for are scored. */
  lemma {:induction false} ScoredCount(x: Externals, query: seq<Entry>, vectors: seq<Entry>, candidates: seq<Value>)
    ensures |Scored(x, query, vectors, candidates)| == |WithVector(vectors, |candidates|)|
  {
    if candidates == [] {
      assert WithVector(vectors, 0) == {};
    } else {
      var n := |candidates| - 1;
      ScoredCount(x, query, vectors, candidates[..n]);
      ScoredStep(x, query, vectors, candidates);
      WithVectorStep(vectors, n);
    }
  }

  /* -------------------------------------------------------------- the class */

  class LarAI {
    /** `$providers`: the instances resolved or registered so far, by name. */
    var providers: map<string, Provider>
    /** The cache store: response cache, health flags and queue counters. */
    const cache: KeyValueCache
    const config: Value
    /** The policies the redact middleware's engine holds. */
    const policies: seq<Policy>
    /** `new OpenAIProvider($config)` and the like, for a vendor name and its settings. */
    const vendor: (string, Value) -> Provider

    constructor (cache: KeyValueCache, config: Value, policies: seq<Policy>, vendor: (string, Value) -> Provider)
      ensures providers == map[] && this.cache == cache && this.config == config
      ensures this.policies == policies && this.vendor == vendor
    {
      providers := map[];
      this.cache := cache;
      this.config := config;
      this.policies := policies;
      this.vendor := vendor;
    }

    /** `registerProvider`. */
    method RegisterProvider(name: string, p: Provider)
      modifies this
      ensures providers == old(providers)[name := p]
    {
      providers := providers[name := p];
    }

    /** `provider($name)`. */
    method GetProvider(name: Value) returns (r: Result<Provider, Throwable>)
      modifies this
      ensures (r, providers) == Provide(config, vendor, old(providers), name)
    {
      if name.Arr? {
        return Failure(ProviderNameError);
      }
      var n := ProviderName(config, StringOf(name));
      if n in providers {
        return Success(providers[n]);
      }
      var settings := ConfigGet(config, "larai.providers." + n, Null);
      if !Truthy(settings) {
        return Failure(LarAIException("LarAI provider [" + n + "] is not configured."));
      }
      if n !in Vendors {
        return Failure(LarAIException("LarAI provider [" + n + "] is not supported."));
      }
      providers := providers[n := vendor(n, settings)];
      return Success(providers[n]);
    }

    /** `resolveProviders`, asking a fresh router when routing is on. */
    method ResolveCandidates(options: seq<Entry>) returns (names: Result<seq<Value>, Throwable>)
      ensures names == ResolveProviders(config, options, cache.entries, cache.clock)
    {
      if RoutingEnabled(config) {
        var health := new HealthStore(cache);
        var router := new ProviderRouter(health);
        names := router.Resolve(config, options);
      } else {
        names := Success(Candidates(config, options));
      }
    }

    /** `markFailure` on a fresh health store over the shared cache. */
    method MarkFailed(name: string)
      modifies cache
      ensures cache.entries == AfterFailure(old(cache.entries), cache.clock, name, DefaultTtl)
      ensures cache.clock == old(cache.clock)
    {
      var health := new HealthStore(cache);
      health.MarkFailure(name, DefaultTtl);
    }

    /** The catch block: `markFailure($providerName)`, which refuses a null or array name, then the throwable is kept. */
    method Catch(env: Env, mark: Mark, e: Throwable, args: seq<Entry>, options: seq<Entry>, last: Option<Throwable>, supported: bool)
      returns (step: Step)
      requires env.now == cache.clock
      modifies cache
      ensures cache.clock == old(cache.clock)
      ensures step == Caught(env, World(args, options, old(cache.entries), providers, last, supported), mark, e)
      ensures providers == step.w.memo && cache.entries == step.w.store
    {
      if mark.Refuses? {
        return Thrown(World(args, options, cache.entries, providers, last, supported), mark.error);
      }
      MarkFailed(mark.provider);
      return Continue(World(args, options, cache.entries, providers, Some(e), supported));
    }

    /** The try block for one candidate. */
    method Try(env: Env, name: Value, i: nat, args: seq<Entry>, options: seq<Entry>, last: Option<Throwable>, supported: bool)
      returns (step: Step)
      requires env.config == config && env.policies == policies && env.vendor == vendor && env.now == cache.clock
      modifies this, cache
      ensures cache.clock == old(cache.clock)
      ensures step == Attempt(env, World(args, options, old(cache.entries), old(providers), last, supported), name, i)
      ensures providers == step.w.memo && cache.entries == step.w.store
    {
      ghost var w0 := World(args, options, cache.entries, providers, last, supported);
      var res := GetProvider(name);
      if res.Failure? {
        step := Catch(env, MarkOf(name), res.error, args, options, last, supported);
        return;
      }
      var p := res.value;
      if !Supports(p, env.action) {
        return Continue(World(args, options, cache.entries, providers, last, supported));
      }
      step := TryPrepared(env, MarkOf(name), i, p, args, options, last);
    }

    /** The try block once the candidate resolved to a provider with the capability. */
    method TryPrepared(env: Env, mark: Mark, i: nat, p: Provider, args: seq<Entry>, options: seq<Entry>, last: Option<Throwable>)
      returns (step: Step)
      requires env.config == config && env.policies == policies && env.vendor == vendor && env.now == cache.clock
      modifies cache
      ensures cache.clock == old(cache.clock)
      ensures step == Prepare(env, World(args, options, old(cache.entries), providers, last, true), mark, i, p)
      ensures providers == step.w.memo && cache.entries == step.w.store
    {
      var before := BeforeChain(env.o.x, policies, env.o.uuid(i), ConfiguredMiddlewares(config),
                                Prepared(args, options, Context(options, cache.clock)));
      if before.Failure? {
        step := Catch(env, mark, before.error, args, options, last, true);
        return;
      }
      var q := before.value;
      var key := CacheKey(env.o.x, config, p.name, env.action, q.args, q.options);
      if env.cacheOn {
        var cached := cache.Get(key, Null);
        if cached.Arr? {
          return Done(World(q.args, q.options, cache.entries, providers, last, true), Plain(cached.entries));
        }
      }
      step := TryCall(env, mark, p, key, q, last);
    }

    /** The hook, the provider call, the cache write and what follows it. */
    method TryCall(env: Env, mark: Mark, p: Provider, key: string, q: Prepared, last: Option<Throwable>) returns (step: Step)
      requires env.config == config && env.policies == policies && env.vendor == vendor && env.now == cache.clock
      modifies cache
      ensures cache.clock == old(cache.clock)
      ensures step == Invoke(env, World(q.args, q.options, old(cache.entries), providers, last, true), mark, p, key, q.context)
      ensures providers == step.w.memo && cache.entries == step.w.store
    {
      if HooksOn(config) && env.o.vetoes(p.name, env.action, q.args, q.options) {
        step := Catch(env, mark, LarAIException(Blocked), q.args, q.options, last, true);
        return;
      }
      var response := p.call(env.action, q.args);
      if response.Failure? {
        step := Catch(env, mark, response.error, q.args, q.options, last, true);
        return;
      }
      if env.cacheOn {
        cache.Put(key, Arr(response.value), CacheTtl(config, q.options));
      }
      var done := AfterChain(ConfiguredMiddlewares(config), Finished(response.value, q.context));
      var usage := UsageCheck(done.response);
      var checked := StructuredOutput(env.o.x, done.response, q.options);
      if usage.Fail? || checked.Failure? || (DtoOn(config, q.options) && !env.dtoReturns) {
        var e := if usage.Fail? then usage.error else if checked.Failure? then checked.error else DtoReturnError;
        step := Catch(env, mark, e, q.args, q.options, last, true);
        return;
      }
      if DtoOn(config, q.options) {
        return Done(World(q.args, q.options, cache.entries, providers, last, true), Dto(Make(env.action, checked.value)));
      }
      return Done(World(q.args, q.options, cache.entries, providers, last, true), Plain(checked.value));
    }

    /** `queue`. */
    method Queue(action: string, args: seq<Entry>, options: seq<Entry>) returns (r: Result<Reply, Throwable>)
      modifies cache
      ensures (r, cache.entries) == Enqueue(config, old(cache.entries), cache.clock, action, args, options)
      ensures cache.clock == old(cache.clock)
    {
      if !Truthy(ConfigPath(config, ["larai", "queue", "enabled"], Null)) {
        return Failure(UnsupportedFeatureException("LarAI queue support is disabled."));
      }
      var provider := ArrGet(options, StrKey("provider"), Null);
      if Truthy(provider) {
        if provider.Arr? {
          return Failure(RateLimitTypeError);
        }
        var o := EnforceQueueRateLimit(StringOf(provider));
        if o.Fail? {
          return Failure(o.error);
        }
      }
      var job := JobProvider(provider);
      if job.Failure? {
        return Failure(job.error);
      }
      return Success(Queued(QueuedJob(action, args, job.value)));
    }

    /** `enforceQueueRateLimit`. */
    method EnforceQueueRateLimit(provider: string) returns (o: Outcome<Throwable>)
      modifies cache
      ensures (cache.entries, o) == RateLimit(config, old(cache.entries), cache.clock, provider)
      ensures cache.clock == old(cache.clock)
    {
      var budget := Budget(config, provider);
      if budget.None? {
        return Pass;
      }
      var key := RateKey(provider, cache.clock);
      var count := cache.Increment(key);
      if count == 1 {
        cache.Put(key, Int(count), 60);
      }
      if count > budget.value {
        return Fail(LarAIException("Queue rate limit exceeded for provider [" + provider + "]."));
      }
      return Pass;
    }

    /** `callProvider`. */
    method CallProvider(o: Oracles, action: string, args: seq<Entry>, options: seq<Entry>) returns (r: Result<Reply, Throwable>)
      modifies this, cache
      ensures cache.clock == old(cache.clock)
      ensures (r, cache.entries, providers) ==
        Call(o, config, policies, vendor, old(cache.entries), cache.clock, old(providers), action, args, options)
    {
      if Truthy(ArrGet(options, StrKey("async"), Null)) {
        r := Queue(action, args, options);
        return;
      }
      var env := Env(o, config, policies, vendor, cache.clock, action, CacheOn(config, options), true);
      var resolved := ResolveCandidates(options);
      if resolved.Failure? {
        return Failure(resolved.error);
      }
      var names := resolved.value;
      ghost var w0 := World(args, options, cache.entries, providers, None, false);
      var a, opts, last, supported := args, options, None, false;
      var i := 0;
      while i < |names|
        invariant 0 <= i <= |names|
        invariant cache.clock == env.now
        invariant DispatchFrom(env, World(a, opts, cache.entries, providers, last, supported), names, i) == DispatchFrom(env, w0, names, 0)
        decreases |names| - i
      {
        var step := Try(env, names[i], i, a, opts, last, supported);
        if step.Done? {
          return Success(step.reply);
        }
        if step.Thrown? {
          return Failure(step.error);
        }
        a, opts, last, supported := step.w.args, step.w.options, step.w.last, step.w.supported;
        i := i + 1;
      }
      if last.Some? {
        return Failure(last.value);
      }
      if !supported && action in Gated {
        return Failure(UnsupportedFeatureException("LarAI provider does not support this feature."));
      }
      return Failure(LarAIException("LarAI provider resolution failed."));
    }

    /** `streamProvider`: look up candidates until one streams; the stream itself runs when pulled. */
    method StreamProvider(action: string, args: seq<Entry>, options: seq<Entry>, onChunk: bool) returns (r: Result<Stream, Throwable>)
      modifies this
      ensures match ResolveProviders(config, options, cache.entries, cache.clock)
        case Failure(e) => r == Failure(e) && providers == old(providers)
        case Success(names) => (r, providers) == StreamFrom(config, vendor, old(providers), names, 0, action, args, onChunk)
    {
      var resolved := ResolveCandidates(options);
      if resolved.Failure? {
        return Failure(resolved.error);
      }
      r := FirstStreaming(resolved.value, action, args, onChunk);
    }

    /** The loop of `streamProvider` over the resolved names. */
    method FirstStreaming(names: seq<Value>, action: string, args: seq<Entry>, onChunk: bool) returns (r: Result<Stream, Throwable>)
      modifies this
      ensures (r, providers) == StreamFrom(config, vendor, old(providers), names, 0, action, args, onChunk)
    {
      ghost var memo0 := providers;
      var i := 0;
      while i < |names|
        invariant 0 <= i <= |names|
        invariant StreamFrom(config, vendor, providers, names, i, action, args, onChunk) == StreamFrom(config, vendor, memo0, names, 0, action, args, onChunk)
        decreases |names| - i
      {
        ghost var memo := providers;
        var res := GetProvider(names[i]);
        StreamFromStep(config, vendor, memo, names, i, action, args, onChunk, res, providers);
        if res.Success? && res.value.streaming {
          r := Success(Stream(res.value, action, args, onChunk));
          assert (r, providers) == StreamFrom(config, vendor, memo0, names, 0, action, args, onChunk);
          return;
        }
        i := i + 1;
      }
      return Failure(UnsupportedFeatureException("LarAI streaming is not supported by the configured providers."));
    }

    /** `prompt`. */
    method Prompt(name: string, vars: seq<Entry>) returns (r: Result<string, Throwable>)
      ensures r == PromptOf(config, name, vars)
    {
      var template := ConfigGet(config, "larai.prompts." + name, Null);
      if !Truthy(template) {
        return Failure(LarAIException("Prompt template [" + name + "] is not defined."));
      }
      if template.Arr? {
        return Failure(TypeError("LarAI::prompt(): Return value must be of type string, array returned"));
      }
      var text := Fill(StringOf(template), vars);
      return Success(text);
    }

    /** The scoring loop of `recommend`. */
    method ScoreCandidates(x: Externals, query: seq<Entry>, vectors: seq<Entry>, candidates: seq<Value>) returns (recs: seq<Recommendation>)
      ensures recs == Scored(x, query, vectors, candidates)
    {
      recs := [];
      for i := 0 to |candidates|
        invariant recs == Scored(x, query, vectors, candidates[..i])
      {
        assert candidates[..i + 1][..i] == candidates[..i];
        match Get(vectors, IntKey(i + 1))
        case Some(Arr(v)) =>
          var score := CosineSimilarity(x, query, v);
          recs := recs + [Recommendation(candidates[i], score)];
        case _ =>
      }
      assert candidates[..|candidates|] == candidates;
    }

    /** `normalizeEmbeddings` over the reply's embeddings, and the query vector at index 0. */
    method QueryAndVectors(response: seq<Entry>) returns (r: Result<(seq<Entry>, seq<Entry>), Throwable>)
      ensures r == QueryVectors(response)
    {
      QueryVectorsCases(response);
      var embeddings := Coalesce(response, StrKey("embeddings"), Arr([]));
      if !embeddings.Arr? {
        return Failure(TypeError("LarAI::normalizeEmbeddings(): Argument #1 ($embeddings) must be of type array"));
      }
      var vectors := NormalizeEmbeddings(embeddings.entries);
      var first := Get(vectors, IntKey(0));
      if !(first.Some? && first.value.Arr?) {
        r := Failure(LarAIException("Unable to compute embeddings for the query."));
        assert r == QueryOf(vectors);
        return;
      }
      r := Success((first.value.entries, vectors));
      assert r == QueryOf(vectors);
    }

    /** What `recommend` does with the embeddings reply: normalise, score in a loop, sort. */
    method RankEmbeddings(x: Externals, reply: Reply, candidates: seq<Entry>) returns (r: Result<Recommended, Throwable>)
      ensures r == RecommendFrom(x, reply, candidates)
    {
      var response := ReplyArray(reply);
      if response.Failure? {
        return Failure(response.error);
      }
      var qv := QueryAndVectors(response.value);
      if qv.Failure? {
        return Failure(qv.error);
      }
      var (query, vectors) := qv.value;
      var recs := ScoreCandidates(x, query, vectors, ValuesOf(candidates));
      return Success(Recommended(SortBy(recs, ByScoreDescending), Coalesce(response.value, StrKey("usage"), Arr([])), response.value));
    }

    /** `recommend`. */
    method Recommend(o: Oracles, query: string, candidates: seq<Entry>, options: seq<Entry>) returns (r: Result<Recommended, Throwable>)
      modifies this, cache
      ensures cache.clock == old(cache.clock)
      ensures candidates == [] ==> r == Success(Recommended([], Arr([]), [])) && providers == old(providers) && cache.entries == old(cache.entries)
      ensures candidates != [] ==>
        var inputs := ListOf([Str(query)] + ValuesOf(candidates));
        var args := ListOf([Arr(inputs), Arr(options)]);
        var (reply, m, memo) := Call(o, config, policies, vendor, old(cache.entries), cache.clock, old(providers), "embeddings", args, options);
        && cache.entries == m && providers == memo
        && r == match reply case Failure(e) => Failure(e) case Success(rep) => RecommendFrom(o.x, rep, candidates)
    {
      if candidates == [] {
        return Success(Recommended([], Arr([]), []));
      }
      var inputs := ListOf([Str(query)] + ValuesOf(candidates));
      var reply := CallProvider(o, "embeddings", ListOf([Arr(inputs), Arr(options)]), options);
      if reply.Failure? {
        return Failure(reply.error);
      }
      r := RankEmbeddings(o.x, reply.value, candidates);
    }
  }
}
