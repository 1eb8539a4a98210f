# LarAI core, modelled in Dafny

LarAI is a Laravel package that puts one façade in front of several AI vendors
(OpenAI, Claude, Llama). This project models its dispatching core and proves
properties of it.

- The dispatcher `LarAI` works out the candidate providers of a request. It
  does this from an explicit override, from the default provider and its
  fallbacks, or through a cost/latency router that steps around providers
  marked unhealthy.
- It tries the candidates in order. A candidate that lacks a required
  capability is skipped. Any throwable marks that candidate failed in the
  health store, and the next candidate is tried. The last throwable is
  rethrown once every candidate has been tried.
- Around each provider call it runs:
  - the before-middlewares (a trace id, and the policy chain with PII
    redaction and a term denylist);
  - a response cache, keyed by a hash of the request minus volatile options;
  - the after-middlewares;
  - a structured-output check against a JSON Schema subset;
  - an optional projection of the response into a DTO.
- Beside the call path:
  - queueing of calls as jobs, with a per-provider budget per minute;
  - streaming;
  - configured prompt templates and a versioned prompt registry;
  - embedding-based recommendation, with a chunking/indexing/search RAG
    helper over an in-memory vector store;
  - the shared helpers of the vendor providers.

PHP values are modelled by `Php.Value`: null, bool, int, float (as a real),
string, and ordered arrays of key/value entries. The application configuration
is one nested array. The Laravel cache is a class holding a map of expiring
entries and a clock in seconds. The response cache, the health flags and the
queue counters all live in that one cache.

A float turned into a string is printed as PHP 8 does with its default
`precision` setting of 14: 14 significant digits, rounded half to even, trailing
zeros dropped, and exponent form (`1.0E+15`, `1.0E-5`) below 0.0001 or from
10^14 on.

The following are parameters of the model, not parts of it: JSON encoding
and decoding, SHA-256, the e-mail and phone regular expressions, `sqrt`,
`Str::uuid`, the vendor providers and the moderation-hook veto.

Modules follow the source files:

| module | models |
|---|---|
| `Dispatcher` | `LarAI` |
| `Routing` | `ProviderRouter` and `LarAI::resolveProviders` |
| `Health` | `HealthStore` |
| `Policies` | `PolicyEngine`, `DenylistPolicy`, `RedactPiiPolicy` |
| `Middlewares` | `TraceIdMiddleware`, `RedactMiddleware`, and the middleware chains of `LarAI` |
| `Schema` | `SchemaValidator` |
| `Rag` | `RagService` |
| `VectorStore` | `InMemoryVectorStore` |
| `Similarity` | the cosine similarity and `normalizeEmbeddings` |
| `Dtos` | `ResponseFactory` and the DTO classes |
| `Prompts` | `PromptRegistry` and placeholder substitution |
| `Jobs` | `LarAIJob` |
| `Providers` | `BaseProvider` |
| `CacheStore` | the Laravel cache |
| `Settings` | `Config::get` |
| `Ranking` | PHP 8's stable `usort` |

`Php`, `PhpStrings`, `Foreign` and `Wrappers` hold the value model, PHP's
string functions, the external primitives and the result types.

Where the documented behaviour of the package and its code disagree, the model follows the code:

- **DTO mode never returns a DTO.** With DTO mode on, the code never returns
  a DTO (see Findings). The model keeps both the code as written and the
  corrected call.
- **`chunk` does not end.** With its default settings `chunk` never
  terminates (see Findings).
- **A hook veto is a failure.** A moderation-hook veto throws inside the
  candidate's `try`. It is therefore treated like any other failure: the
  candidate is marked failed and the next one is tried.
- **A truthy non-array `usage` is a type error.** It fails the typed usage
  event inside the `try`, so it also counts as a failure of the candidate.
- **Candidate names are values, not strings.** The candidate list holds
  whatever the options and the configuration hold. `provider(?string)` and
  `markFailure(string)` coerce scalars to strings. A null name reaches
  `markFailure`'s type error in the catch block, and an array name reaches it
  after `provider` has refused it; that error escapes the loop, so no later
  candidate is tried. Likewise a null or array routing strategy fails
  `sortProviders(string)` before any candidate is tried.

## Model

| member | source | states |
|---|---|---|
| Dispatcher.Instantiate | src/LarAI.php:53-77 | a memoised provider is returned with the memo unchanged; an unknown vendor fails and leaves the memo; a built provider is memoised under the resolved name only, and only for openai, claude or llama |
| Dispatcher.InstantiateMemoised | src/LarAI.php:57-59 | resolving a name a second time gives the same instance and changes nothing |
| Dispatcher.RegisteredWins | src/LarAI.php:45-59 | a registered provider is what its name resolves to, whatever the configuration says |
| Dispatcher.LarAI.constructor | src/LarAI.php:40 | a dispatcher starts with no provider memoised |
| Dispatcher.LarAI.RegisterProvider | src/LarAI.php:45-48 | the memo gains the provider under its name and nothing else changes |
| Dispatcher.LarAI.GetProvider | src/LarAI.php:53-77 | `provider(?string)`: an array name is refused with its type error and the memo kept; any other name is coerced to a string and resolved as `Instantiate` describes |
| Dispatcher.NullNameIsDefault | src/LarAI.php:53-55 | a null name resolves exactly like the configured default, unless that default is an array |
| Dispatcher.ProvideMemoised | src/LarAI.php:53-59 | a name whose instance is memoised resolves to it and leaves the memo as it was |
| Dispatcher.NormalizeOptions | src/LarAI.php:614-627 | the nine volatile options are absent and every other option reads as before |
| Dispatcher.ExceptSet | src/LarAI.php:614-627 | setting a volatile option does not change the normalised options |
| Dispatcher.ExceptTwice | src/LarAI.php:614-627 | normalising twice is normalising once |
| Dispatcher.CacheKeyIgnoresVolatile | src/LarAI.php:595-627 | requests whose options differ only in volatile keys get the same cache key |
| Dispatcher.Failed | src/LarAI.php:391-394 | after a caught throwable it is the last one kept and the candidate is unhealthy |
| Dispatcher.MarkOf | src/Routing/HealthStore.php:12-15 | `markFailure(string)` accepts exactly the names that are neither null nor an array, marking their string form; the others raise its type error |
| Dispatcher.AttemptCases | src/LarAI.php:331-395 | each attempt either skips an incapable candidate (no health mark; only the memo changes), or catches a throwable (kept, candidate unhealthy), or ends the call with the last throwable unchanged, or, for a null or array name that `markFailure(string)` refuses, ends the call with that type error |
| Dispatcher.Attempt | src/LarAI.php:331-395 | an attempt that ends the call never ends it with a queued reply, returns a DTO only where DTOs may leave, and keeps the last throwable and the capability flag set; an attempt that throws out of the loop does so only for a name `markFailure` refuses, with its type error |
| Dispatcher.Prepare | src/LarAI.php:342-363 | ending in the before-middleware or on a cache hit keeps the last throwable and the flag; handing over to the next candidate keeps a throwable and marks this one unhealthy |
| Dispatcher.Invoke | src/LarAI.php:365-371 | the call goes on only when the hook did not veto and the provider answered; it keeps the args, the options, the last throwable and the flag; a failure marks the candidate unhealthy |
| Dispatcher.Conclude | src/LarAI.php:373-390 | a finished attempt changed nothing, its usage was an array or absent and the structured-output check passed; a failure marks the candidate unhealthy |
| Dispatcher.FailedSettles | src/LarAI.php:391-394 | a caught throwable hands over to the next candidate with the args and options kept, the candidate marked unhealthy; a name `markFailure` refuses ends the attempt with its type error and the last throwable kept |
| Dispatcher.DispatchFrom | src/LarAI.php:331-405 | the loop never answers with a queued reply; a failed loop is the last throwable or the unsupported/resolution error of `Exhausted`, or the `markFailure` type error of a candidate from here on that it refuses |
| Dispatcher.PrepareSettles | src/LarAI.php:342-363 | after the before-middleware and the cache lookup, a success keeps the memo and the last throwable, and a failure marks the candidate |
| Dispatcher.InvokeSettles | src/LarAI.php:365-371 | the same for the hook, the provider call and the cache write, which also keep the args and options |
| Dispatcher.ConcludeSettles | src/LarAI.php:373-390 | the same for the after-middleware, usage reporting, the schema check and the DTO branch |
| Dispatcher.CacheHitShortCircuits | src/LarAI.php:355-363 | on a cache hit the cached array is the answer: no hook, no provider call, no after-middleware, no schema check, no DTO |
| Dispatcher.MissStoresRawResponse | src/LarAI.php:365-371 | on a miss the cache holds the raw provider response for the key, before the after-middleware and the check |
| Dispatcher.RewritesPersist | src/LarAI.php:347-353 | the args and options the before-middleware returned are what the next candidate starts from |
| Dispatcher.StopsAtFirstSuccess | src/LarAI.php:331-395 | the first success ends the call; the candidates after it do not matter |
| Dispatcher.FailureIsLastThrowable | src/LarAI.php:391-405 | a failed call rethrows the last throwable caught, or raises the unsupported-feature error when a gated method found no capable provider, else the resolution error, unless a candidate's name is one `markFailure` refuses, whose type error then escapes; when every name is accepted only the first three can happen |
| Dispatcher.ArrayNameEscapes | src/LarAI.php:331-394 | an array candidate ends the call at once with the `markFailure` type error: nothing is marked and no later candidate is tried |
| Dispatcher.NullNameEscapes | src/LarAI.php:331-394 | a null candidate whose attempt fails ends the call with the `markFailure` type error instead of falling back |
| Dispatcher.NoneSupports | src/LarAI.php:333-405 | when no remaining candidate has the capability, no health flag changes and the call ends with the unsupported-feature or resolution error |
| Dispatcher.DtoFailsAsWritten | src/LarAI.php:386-394 | as written, with `dto` on the attempt never succeeds: the return-type error is caught like a provider failure, or, for a name `markFailure` refuses, ends the call |
| Dispatcher.DtoReturnedWhenAllowed | src/LarAI.php:386-388 | corrected: with `dto` on a passing response comes back as `ResponseFactory::make(method, response)` |
| Dispatcher.DispatchNeverDto | src/LarAI.php:331-399 | while the return type admits only arrays, the candidate loop never yields a DTO |
| Dispatcher.CallAsWrittenNeverDto | src/LarAI.php:320-406 | as written, no call returns a DTO, whatever `dto` says |
| Dispatcher.CallReturnsDto | src/LarAI.php:320-406 | corrected: a call whose first candidate answers with `dto` on returns the DTO built from the answer |
| Dispatcher.AsyncOnlyQueues | src/LarAI.php:320-324 | an async call touches no provider, no memo and no middleware; it queues the job, changing at most the provider's minute counter |
| Dispatcher.Call | src/LarAI.php:320-406 | a queued reply comes only from a truthy `async` option |
| Dispatcher.CallWith | src/LarAI.php:320-406 | the same, whether or not a DTO may leave the call |
| Dispatcher.UnroutableCallFails | src/LarAI.php:320-331 | with routing on, a non-empty table and a null or array strategy, the call fails with the `sortProviders` type error before any provider is tried, changing nothing |
| Dispatcher.LarAI.ResolveCandidates | src/LarAI.php:634-655 | the candidates, or the routing type error, are what `ResolveProviders` describes |
| Dispatcher.LarAI.MarkFailed | src/LarAI.php:392 | the candidate is marked failed for 300 seconds and nothing else in the cache changes |
| Dispatcher.LarAI.Try | src/LarAI.php:332-394 | one iteration of the loop changes the memo and the cache exactly as `Attempt` describes |
| Dispatcher.LarAI.TryPrepared | src/LarAI.php:342-394 | the part after capability resolution changes the cache exactly as `Prepare` describes |
| Dispatcher.LarAI.TryCall | src/LarAI.php:365-394 | the hook, the call and what follows change the cache exactly as `Invoke` describes |
| Dispatcher.LarAI.Catch | src/LarAI.php:391-394 | the catch block changes the cache exactly as `Caught` describes: a marked candidate is flagged unhealthy, a refused name changes nothing |
| Dispatcher.LarAI.CallProvider | src/LarAI.php:320-406 | the reply, the cache and the memo are those of the corrected `Call`, including the routing type error and a `markFailure` type error that escapes the loop: the loop over candidates is proved against the recursive `DispatchFrom` |
| Dispatcher.Enqueue | src/LarAI.php:445-470 | a disabled queue refuses and changes nothing; a success is a queued job carrying the action, the args and the `provider` option |
| Dispatcher.Admit | src/LarAI.php:457-469 | a job is queued only when the rate limit passed and the provider option is a legal job provider; it carries the action, the args and that provider |
| Dispatcher.RateLimit | src/LarAI.php:475-503 | without a budget nothing is counted and the enqueue passes; a refusal is "Queue rate limit exceeded for provider [p]." |
| Dispatcher.RateLimitFirst | src/LarAI.php:493-501 | the first enqueue of a minute without a live counter stores 1 for 60 seconds and fails only when the budget is below 1 |
| Dispatcher.RateLimitLater | src/LarAI.php:493-501 | a later enqueue in the same minute finds the counter live, raises it by one keeping its expiry, and fails exactly when the new count passes the budget |
| Dispatcher.RateLimitCounts | src/LarAI.php:475-503 | with a budget of N per minute and enqueues at any seconds of one minute, the counter holds k after the k-th, expiring 60 s after the first, and the k-th fails exactly when k > N; failed enqueues count too |
| Dispatcher.RateKeyPerMinute | src/LarAI.php:493 | enqueues in different minutes use different counter keys |
| Dispatcher.RateLimitOtherMinute | src/LarAI.php:493-501 | a new minute starts fresh: enqueues in other minutes leave its counter as it was |
| Dispatcher.RateLimitFrame | src/LarAI.php:475-503 | `enforceQueueRateLimit` changes no cache key but the provider's counter for the current minute |
| Dispatcher.EnqueueWithoutProvider | src/LarAI.php:447-457 | without a `provider` option `queue` leaves the cache as it was |
| Dispatcher.EnqueueFrame | src/LarAI.php:447-457 | `queue` changes no cache key but the provider's counter for the current minute |
| Dispatcher.LarAI.Queue | src/LarAI.php:445-470 | the reply and the cache are those `Enqueue` describes |
| Dispatcher.LarAI.EnforceQueueRateLimit | src/LarAI.php:475-503 | the counter and the outcome are those `RateLimit` describes |
| Dispatcher.StreamFrom | src/LarAI.php:413-440 | a stream comes from a streaming provider with the given method and args; otherwise the streaming-unsupported error is raised |
| Dispatcher.StreamFromStep | src/LarAI.php:417-437 | a candidate that resolves to a streaming provider is the stream; one that fails to resolve or does not stream hands over to the next |
| Dispatcher.FirstStreamingWins | src/LarAI.php:417-424 | the first candidate that resolves to a streaming provider is the one used, whatever follows it; array names before it are skipped |
| Dispatcher.Pulled | src/LarAI.php:425-433 | pulling yields one event per chunk, two with a callback |
| Dispatcher.YieldOnly | src/LarAI.php:425-433 | without a callback, event k yields chunk k |
| Dispatcher.PulledAppend | src/LarAI.php:425-433 | pulling is incremental: later chunks' events follow earlier ones |
| Dispatcher.Drain | src/LarAI.php:425-433 | draining gives the provider's error, if any, and one event per chunk yielded before it, two with a callback |
| Dispatcher.DrainDeliversBeforeError | src/LarAI.php:425-433 | every chunk the provider yielded before throwing has been yielded to the consumer, in order |
| Dispatcher.CallbackBeforeYield | src/LarAI.php:426-431 | with a callback, chunk k is passed to the callback just before it is yielded |
| Dispatcher.LarAI.StreamProvider | src/LarAI.php:413-440 | a routing type error is raised with the memo unchanged; otherwise the stream and the memo are those `StreamFrom` describes over the resolved candidates |
| Dispatcher.LarAI.FirstStreaming | src/LarAI.php:417-439 | the loop over the candidates returns the stream and the memo `StreamFrom` describes |
| Dispatcher.PromptOf | src/LarAI.php:236-249 | an undefined template raises "Prompt template [name] is not defined."; an array template raises the return-type error; any other template is cast to string and has every variable's placeholder substituted in order |
| Dispatcher.PromptWithoutPlaceholders | src/LarAI.php:236-249 | a template containing none of the placeholders renders as itself |
| Dispatcher.LarAI.Prompt | src/LarAI.php:236-249 | the substitution loop returns what `PromptOf` describes |
| Dispatcher.Scored | src/LarAI.php:209-220 | every recommendation is one of the candidates, at most one per candidate |
| Dispatcher.ScoredCount | src/LarAI.php:209-220 | exactly the candidates the embeddings hold a vector for are scored |
| Dispatcher.QueryOf | src/LarAI.php:200-204 | the query vector is the normalised embedding at index 0 |
| Dispatcher.QueryVectorsCases | src/LarAI.php:198-204 | an array of embeddings gives the normalised query vector; anything else is the `normalizeEmbeddings` TypeError |
| Dispatcher.NoQueryVectorFails | src/LarAI.php:202-204 | without a query vector `recommend` raises "Unable to compute embeddings for the query." |
| Dispatcher.TiesKeepOrder | src/LarAI.php:222-224 | sorting by descending score keeps the order of candidates with equal scores |
| Dispatcher.RecommendOrdered | src/LarAI.php:190-231 | the recommendations are the scored candidates, a permutation of them, in descending score, with ties in candidate order |
| Dispatcher.LarAI.ScoreCandidates | src/LarAI.php:209-220 | the scoring loop builds what `Scored` describes |
| Dispatcher.LarAI.QueryAndVectors | src/LarAI.php:198-204 | the normalisation and the query-vector lookup give what `QueryVectors` describes |
| Dispatcher.LarAI.RankEmbeddings | src/LarAI.php:198-230 | normalising, scoring and sorting give what `RecommendFrom` describes |
| Dispatcher.LarAI.Recommend | src/LarAI.php:190-231 | no candidates gives an empty result without a call; otherwise the embeddings call and then `RecommendFrom` |
| Similarity.CosineSimilarity | src/LarAI.php:906-924 | the accumulator loop computes the cosine: 0 when a norm is 0, else dot / (norm a · norm b) over the common length |
| Similarity.ZeroVectorScoresZero | src/VectorStores/InMemoryVectorStore.php:61-79 | a zero vector scores 0 against anything, on either side |
| Similarity.CosineSymmetric | src/VectorStores/InMemoryVectorStore.php:61-79 | the score does not depend on the order of the two vectors |
| Similarity.CosineCommonLength | src/LarAI.php:906-924 | only the first min(\|a\|, \|b\|) components take part |
| Similarity.NormalizedSpec | src/LarAI.php:882-898 | every array item keeps its index and becomes a float vector (unwrapping an `embedding` envelope); every other item is dropped |
| Similarity.NormalizeEmbeddings | src/LarAI.php:882-898 | the loop builds what `Normalized` describes |
| Ranking.SortBy | src/LarAI.php:222-224 | the output is a permutation of the input, in ascending rank |
| Ranking.SortByStable | src/LarAI.php:222-224 | among elements of equal rank the input order is kept |
| Routing.Unique | src/LarAI.php:642-654 | no repeats, the same members, the first of each kept |
| Routing.UniqueOrder | src/LarAI.php:642-654 | `array_unique` keeps first occurrences in their original order |
| Routing.UniqueOfDistinct | src/LarAI.php:642-654 | a list without repeats is left as it is |
| Routing.FirstIndex | src/LarAI.php:642-654 | the position of the first occurrence of a name |
| Routing.Truthies | src/Routing/ProviderRouter.php:24 | `array_filter` keeps exactly the truthy values |
| Routing.Names | src/Routing/ProviderRouter.php:24 | each value is read as the provider name PHP's string conversion gives |
| Routing.UniqueValues | src/LarAI.php:642-654 | the kept values' names are `array_unique` of the names, and every kept value is one of the input's |
| Routing.UniqueValuesHead | src/LarAI.php:646-654 | the first value survives de-duplication in first place |
| Routing.CandidateList | src/LarAI.php:654 | the candidate list has no repeated names, keeps only truthy input values, and names what `array_unique(array_filter(...))` names |
| Routing.CandidateListMembers | src/LarAI.php:642-654 | a name is listed exactly when some truthy configured value stands for it |
| Routing.KeyValues | src/Routing/ProviderRouter.php:53 | `array_keys` gives one value per table key, under the same name |
| Routing.CandidatesPrimaryFirst | src/LarAI.php:634-655 | without routing, a usable primary is tried first, as given, and no provider is tried twice |
| Routing.NoFallbackOnlyPrimary | src/LarAI.php:646-654 | with fallback off only the primary is tried |
| Routing.SortProviders | src/Routing/ProviderRouter.php:51-66 | the table's keys, a permutation, in ascending latency or cost, a missing score counting 999 |
| Routing.HealthyOnly | src/Routing/ProviderRouter.php:38-42 | keeps exactly the healthy candidates, a sub-multiset of the input |
| Routing.HealthyOnlySorted | src/Routing/ProviderRouter.php:38-42 | keeping the healthy ones keeps the ranked order |
| Routing.HealthyOnlyNone | src/Routing/ProviderRouter.php:38-44 | no healthy candidate leaves nothing |
| Routing.RouteTableSorted | src/Routing/ProviderRouter.php:34-44 | the router's answer is in ascending rank |
| Routing.RouteTableHealthy | src/Routing/ProviderRouter.php:38-44 | when some provider is healthy, exactly the healthy ones are returned |
| Routing.RouteTableNoneHealthy | src/Routing/ProviderRouter.php:44 | when none is healthy, the whole ranked table is returned |
| Routing.RouteNonEmpty | src/Routing/ProviderRouter.php:27-44 | without a list override a router that does not fail names at least one provider |
| Routing.RouteOverride | src/Routing/ProviderRouter.php:21-25 | a list override never fails and comes back as its truthy values, de-duplicated by name, whatever the table and the health flags say |
| Routing.RouteTableDecides | src/Routing/ProviderRouter.php:21-44 | with a non-empty table a scalar override plays no part, and every name returned is a key of the table |
| Routing.RouteOverrideOrder | src/Routing/ProviderRouter.php:21-25 | a list override keeps the caller's order of first truthy occurrences |
| Routing.RouteTable | src/Routing/ProviderRouter.php:34-44 | the table path returns table keys only, none more often than the table has it |
| Routing.RouteTableWithin | src/Routing/ProviderRouter.php:34-44 | every routed provider is a key of the table |
| Routing.RouteTableDistinct | src/Routing/ProviderRouter.php:38-44 | a table with distinct provider names gives distinct candidates |
| Routing.Route | src/Routing/ProviderRouter.php:19-51 | a list override gives no repeats; the router fails exactly when a non-empty table meets a null or array strategy, which `sortProviders(string)` refuses, and then with that type error; any answer of other than one name comes from a non-empty routing table |
| Routing.RouteDistinct | src/Routing/ProviderRouter.php:19-45 | a router that does not fail never names a provider twice when the table names its providers distinctly |
| Routing.Candidates | src/LarAI.php:640-654 | without routing the candidates have no repeated names and are all truthy |
| Routing.ResolveProviders | src/LarAI.php:634-655 | routing on gives what `Route` gives, its type error included; routing off never fails and gives truthy candidates without repeats |
| Routing.ProviderRouter.constructor | src/Routing/ProviderRouter.php:12-14 | the router reads the given health store |
| Routing.ProviderRouter.KeepHealthy | src/Routing/ProviderRouter.php:38-42 | the loop keeps what `HealthyOnly` describes |
| Routing.ProviderRouter.Resolve | src/Routing/ProviderRouter.php:19-45 | `resolve` returns what `Route` describes, or raises its type error |
| Health.HealthKeyInjective | src/Routing/HealthStore.php:27-30 | different providers have different keys |
| Health.UnknownIsHealthy | src/Routing/HealthStore.php:22-25 | a provider with no live flag is healthy |
| Health.HealthyIsStrictlyTrue | src/Routing/HealthStore.php:22-25 | healthy exactly when the live flag is `true`, or when there is no flag or a null one |
| Health.FailureExpires | src/Routing/HealthStore.php:12-25 | after `markFailure(p, ttl)` p is unhealthy exactly until ttl seconds have passed |
| Health.MarkedHealthy | src/Routing/HealthStore.php:17-25 | after `markHealthy(p)` p is healthy |
| Health.MarkIsolated | src/Routing/HealthStore.php:12-30 | marking p never changes q's health |
| Health.LaterMarkWins | src/Routing/HealthStore.php:12-20 | a later mark overwrites an earlier one and restarts the TTL |
| Health.HealthStore.constructor | src/Routing/HealthStore.php:10-30 | the store works on the given cache |
| Health.HealthStore.MarkFailure | src/Routing/HealthStore.php:12-15 | the cache gains `false` under the provider's key for ttl seconds |
| Health.HealthStore.MarkHealthy | src/Routing/HealthStore.php:17-20 | the cache gains `true` under the provider's key for ttl seconds |
| CacheStore.GetOr | src/LarAI.php:355-363 | a missing, expired or null entry reads as the default |
| CacheStore.AfterPut | src/LarAI.php:368-371 | the value is readable until the TTL runs out; a TTL of zero or less forgets the key; other keys are untouched |
| CacheStore.AfterIncrement | src/LarAI.php:494-498 | a live count goes up by one, keeping its expiry; no count starts at 1; other keys are untouched |
| CacheStore.KeyValueCache.Put | src/LarAI.php:368-371 | the entries become those `AfterPut` describes |
| CacheStore.KeyValueCache.Increment | src/LarAI.php:494-498 | the entries and the count are those `AfterIncrement` describes |
| Policies.DenylistSpec | src/Policies/DenylistPolicy.php:19-49 | the terms are kept as PHP values: the denylist blocks exactly when some term matches the JSON of the args before any array term (a `null` or `false` term matches everything), raises the `stripos` TypeError exactly when an array term comes first, and otherwise returns args and options unchanged |
| Policies.Matches | src/Policies/DenylistPolicy.php:40-49 | every term a string never raises; an error is always the `stripos` TypeError |
| Policies.MatchesFound | src/Policies/DenylistPolicy.php:40-49 | a match is exactly a term found, ignoring ASCII case, before any array term |
| Policies.MatchesBroken | src/Policies/DenylistPolicy.php:40-49 | an error is exactly an array term reached before any match |
| Policies.EmptyNeedleMatches | src/Policies/DenylistPolicy.php:43 | a `null` or `false` term matches any text, since it is not `''` and `stripos` finds the empty needle at 0 |
| Policies.DenylistApply | src/Policies/DenylistPolicy.php:19-38 | a pass returns args and options unchanged; a failure is the block message or the `stripos` TypeError |
| Policies.WalkValue | src/Policies/RedactPiiPolicy.php:31-45 | arrays stay arrays of the same length, and non-arrays stay non-arrays |
| Policies.WalkShape | src/Policies/RedactPiiPolicy.php:31-45 | the walk keeps the shape: the same keys at every depth, and non-string leaves unchanged |
| Policies.WalkLeaves | src/Policies/RedactPiiPolicy.php:31-45 | every string leaf, at any depth and in order, is replaced by its redaction |
| Policies.RedactApply | src/Policies/RedactPiiPolicy.php:10-25 | options unchanged; args keep their shape, and their strings are the e-mail-then-phone redactions |
| Policies.SanitizeAppend | src/Policies/PolicyEngine.php:49-61 | running two lists of policies is running the first, then the second on its result |
| Policies.SanitizeAborts | src/Policies/PolicyEngine.php:49-61 | a policy that throws ends `sanitize` with its exception, and no later policy runs |
| Policies.SanitizeAll | src/Policies/PolicyEngine.php:49-61 | options are never changed and args keep their shape; only redaction policies never fail; a failure is the block message or the `stripos` TypeError |
| Policies.SanitizeNone | src/Policies/PolicyEngine.php:49-61 | with no policies `sanitize` returns the args and options it was given |
| Policies.Wired | src/LarAIServiceProvider.php:53-66 | the wiring succeeds exactly when `policies_denylist` is an array, and then ends with the denylist over its values as they are; otherwise it is the constructor TypeError |
| Policies.Instances | src/Policies/PolicyEngine.php:25-42 | configured class names become the package's policies, in order |
| Policies.DenylistRunsLast | src/LarAIServiceProvider.php:53-66 | as wired, the denylist runs after the configured policies, on their output |
| Policies.PolicyEngine.constructor | src/Policies/PolicyEngine.php:20-23 | the engine holds the given policies |
| Policies.PolicyEngine.LoadFromConfig | src/Policies/PolicyEngine.php:25-42 | a configured list replaces every policy, the injected ones too; anything else leaves them |
| Policies.PolicyEngine.Sanitize | src/Policies/PolicyEngine.php:49-61 | the loop returns what `SanitizeAll` describes |
| Middlewares.TraceIdOf | src/Middleware/TraceIdMiddleware.php:14 | the trace id is never null |
| Middlewares.TraceIdBeforeSpec | src/Middleware/TraceIdMiddleware.php:12-23 | the args are kept; one id, from the options, else the context, else fresh, goes under `trace_id` in both the options and the context; no other key changes |
| Middlewares.TraceIdIdempotent | src/Middleware/TraceIdMiddleware.php:12-23 | running `before` on its own output changes nothing |
| Middlewares.RedactBefore | src/Middleware/RedactMiddleware.php:16-25 | the engine's args and options with the context unchanged, or the engine's exception |
| Middlewares.After | src/Middleware/TraceIdMiddleware.php:25-31 | both middlewares' `after` return the response and the context untouched |
| Middlewares.AfterChainIdentity | src/LarAI.php:704-717 | the after-chain of the shipped middlewares is the identity |
| Middlewares.BeforeChainAppend | src/LarAI.php:682-697 | a chain of two lists runs the first, then the second on its result |
| Middlewares.BeforeChainLastTrace | src/LarAI.php:682-697 | a successful chain ending in TraceId leaves one id in both the options and the context |
| Schema.CheckMeansConforms | src/Schema/SchemaValidator.php:16-67 | `Check` passes exactly the values that satisfy `Conforms`, the order-free statement of what the schema asks |
| Schema.Check | src/Schema/SchemaValidator.php:16-67 | a failure is a schema-validation exception or the illegal-offset TypeError; a non-array value fails an `object` or `array` schema |
| Schema.FirstFailure | src/Schema/SchemaValidator.php:20-51 | the first failing check in order is reported, and passing means every check passed |
| Schema.RequiredMeansPresent | src/Schema/SchemaValidator.php:25-30 | the required check passes exactly when every listed key is a legal offset that is present |
| Schema.PropertiesMeanConforms | src/Schema/SchemaValidator.php:32-37 | the property check passes exactly when every present property conforms to its array sub-schema |
| Schema.ItemsMeanConforms | src/Schema/SchemaValidator.php:47-51 | the items check passes exactly when every element conforms to the array `items` schema |
| Schema.FirstMissingReported | src/Schema/SchemaValidator.php:20-30 | the first missing required key in list order is reported, before any property |
| Schema.UntypedAcceptsAll | src/Schema/SchemaValidator.php:56-67 | a missing or unknown type accepts any value |
| Schema.StructuredOutput | src/LarAI.php:750-772 | the response is never changed; the check fails exactly when an array schema is given and a non-null payload does not conform |
| Rag.ChunkNeverEnds | src/Services/RagService.php:38-51 | as written, with a positive overlap the next start always lies inside the text, so the loop never ends |
| Rag.DefaultsNeverEnd | src/Services/RagService.php:26-51 | as written, with the defaults 1000/100 the text "a" loops at start 0 forever |
| Rag.WindowShape | src/Services/RagService.php:39-40 | a window is trimmed and no longer than maxChars |
| Rag.ChunksShape | src/Services/RagService.php:38-51 | every chunk is non-empty, trimmed and no longer than maxChars |
| Rag.WindowsTile | src/Services/RagService.php:38-51 | with no overlap the windows are consecutive disjoint maxChars-slices that give back the text, and the chunks are those windows trimmed |
| Rag.ChunksFrom | src/Services/RagService.php:38-51 | no chunk appended by the loop is empty |
| Rag.Chunks | src/Services/RagService.php:26-51 | no chunk is empty, and blank text gives no chunks |
| Rag.WindowsChunks | src/Services/RagService.php:38-51 | with no overlap the chunks are the maxChars-windows trimmed, empty ones dropped |
| Rag.CorrectedAgrees | src/Services/RagService.php:38-51 | wherever the loop as written ends, the corrected loop gives the same chunks |
| Rag.CorrectedWindowsOverlap | src/Services/RagService.php:38-51 | corrected: consecutive windows start maxChars − overlap apart and the last reaches the end of the text |
| Rag.Chunk | src/Services/RagService.php:26-54 | the loop returns what `Chunks` describes, for the settings under which it ends |
| Rag.Items | src/Services/RagService.php:79-94 | at most one item per chunk |
| Rag.ItemsPaired | src/Services/RagService.php:79-94 | item k pairs some chunk j with `embeddings[j]`; the metadata carries the chunk's text and original index; ids are `freshId(k)` |
| Rag.ItemsCount | src/Services/RagService.php:79-94 | exactly the chunks with an array embedding get an item |
| Rag.ItemsStorable | src/Services/RagService.php:79-94 | every item built is storable under its string id |
| Rag.Index | src/Services/RagService.php:62-99 | no chunks gives `[]` with no call and no upsert; a failed call changes nothing; otherwise the items are built, upserted and returned |
| Rag.IndexStoresAll | src/Services/RagService.php:96 | the upsert raises nothing and every item ends up stored under its id |
| Rag.SearchResult | src/Services/RagService.php:109-119 | no array embedding gives `[]`; otherwise at most top_k hits |
| Rag.Search | src/Services/RagService.php:107-120 | a failed call is passed on; otherwise the store's query with top_k, default 5 |
| VectorStore.UpsertOne | src/VectorStores/InMemoryVectorStore.php:22-27 | an item without id or embedding is skipped; an illegal id raises a TypeError; otherwise the item is stored under its id, overwriting in place or appending, and other ids are untouched |
| VectorStore.UpsertAll | src/VectorStores/InMemoryVectorStore.php:20-29 | a failure is the illegal-offset TypeError; a batch with nothing storable changes nothing |
| VectorStore.UpsertAllStorable | src/VectorStores/InMemoryVectorStore.php:20-29 | the stored items stay storable |
| VectorStore.UpsertAllUntouched | src/VectorStores/InMemoryVectorStore.php:20-29 | ids no storable item of the batch names keep their value |
| VectorStore.UpsertAllKeeps | src/VectorStores/InMemoryVectorStore.php:20-29 | no stored id is lost |
| VectorStore.UpsertAllStrings | src/VectorStores/InMemoryVectorStore.php:20-29 | storable items with string ids never fail and all end up stored |
| VectorStore.Hits | src/VectorStores/InMemoryVectorStore.php:38-50 | every row comes from a stored item |
| VectorStore.HitsCount | src/VectorStores/InMemoryVectorStore.php:38-50 | one row per item with an array embedding |
| VectorStore.Slice | src/VectorStores/InMemoryVectorStore.php:54 | `array_slice` keeps a prefix of length min(K, n), or drops \|K\| from the end for a negative K |
| VectorStore.QueryCount | src/VectorStores/InMemoryVectorStore.php:34-55 | for K ≥ 0 the result has min(K, items with an array embedding) rows |
| VectorStore.QueryZero | src/VectorStores/InMemoryVectorStore.php:54 | K = 0 gives no rows |
| VectorStore.QueryDescending | src/VectorStores/InMemoryVectorStore.php:52-54 | rows come in descending score order |
| VectorStore.QueryStable | src/VectorStores/InMemoryVectorStore.php:52 | rows of equal score keep storage order |
| VectorStore.QueryRowsFromItems | src/VectorStores/InMemoryVectorStore.php:45-49 | each row carries a stored item's id, its metadata (default `[]`) and its cosine score |
| VectorStore.QueryResult | src/VectorStores/InMemoryVectorStore.php:34-55 | the result is a prefix of the hits sorted by descending score, at most K long |
| VectorStore.QueryTopK | src/VectorStores/InMemoryVectorStore.php:52-54 | the rows left out are the rest of the hits, and none scores above a returned row |
| VectorStore.InMemoryVectorStore.constructor | src/VectorStores/InMemoryVectorStore.php:15 | a new store is empty |
| VectorStore.InMemoryVectorStore.Upsert | src/VectorStores/InMemoryVectorStore.php:20-29 | the items and the outcome are those `UpsertAll` describes |
| VectorStore.InMemoryVectorStore.Query | src/VectorStores/InMemoryVectorStore.php:34-55 | returns what `QueryResult` describes and changes nothing |
| Dtos.Make | src/DTOs/ResponseFactory.php:13-58 | each method name gives its own DTO class, any other name a BaseResponse; `raw` and `usage` default to `[]` |
| Dtos.MakeDefaults | src/DTOs/ResponseFactory.php:13-58 | from an empty payload, string fields are `''`, list fields are `[]`, and the speak format is mp3 |
| Dtos.ToArrayOfMake | src/DTOs/BaseResponse.php:23-29 | `make(m, p)->toArray()` reproduces `raw`, `usage` and the method's fields of a well-typed payload |
| Dtos.ReadBack | src/DTOs/TextResponse.php:19-25 | every field of a DTO is read back from its own array |
| Dtos.MakeOfToArray | src/DTOs/ResponseFactory.php:13-58 | building from a DTO's own array, by a method of its class, gives the DTO back |
| Prompts.Fill | src/Services/PromptRegistry.php:41-47 | the substitution loop computes the placeholder substitution in `vars` order |
| Prompts.SubstituteAppend | src/Services/PromptRegistry.php:41-47 | substituting two variable lists is substituting one, then the other |
| Prompts.SubstituteAbsent | src/Services/PromptRegistry.php:41-47 | with no variables, or none whose placeholder occurs, the content comes back unchanged |
| Prompts.Substitute | src/Services/PromptRegistry.php:43-45 | text without a `{` comes back unchanged |
| Prompts.NoBraceUnchanged | src/Services/PromptRegistry.php:44 | replacing a placeholder in text without a `{` changes nothing |
| Prompts.MaxVersion | src/Services/PromptRegistry.php:14 | the highest version of the name, 0 when there is none |
| Prompts.Latest | src/Services/PromptRegistry.php:25-31 | the active row of the name with the highest version; null exactly when no row of the name is active |
| Prompts.CreatedIsNewest | src/Services/PromptRegistry.php:12-23 | a created row is numbered above every earlier row of its name, so versions stay unique |
| Prompts.CreateIsolated | src/Services/PromptRegistry.php:14 | creating for one name changes neither the numbering nor the latest row of another |
| Prompts.LatestAfterCreate | src/Services/PromptRegistry.php:12-31 | right after `create`, `latest` returns the created row |
| Prompts.PromptRegistry.Create | src/Services/PromptRegistry.php:12-23 | appends an active row, numbered one above the name's highest, with the given content and tags |
| Prompts.PromptRegistry.Render | src/Services/PromptRegistry.php:33-48 | `''` without a template; otherwise the latest template substituted |
| Jobs.LarAIJob.constructor | src/Jobs/LarAIJob.php:25-30 | the job holds the action, the args and the provider |
| Jobs.LarAIJob.Handle | src/Jobs/LarAIJob.php:35-54 | an action outside text/chat/image/summarize/embeddings does nothing; otherwise `args[1]` is replaced by the rewritten options and the same-named call is made |
| Jobs.HandleRewrite | src/Jobs/LarAIJob.php:49-51 | the options name the job's provider when it has one, else keep theirs; no other option and no other argument changes |
| Jobs.KeepsQueuedProvider | src/Jobs/LarAIJob.php:49-50 | a job without a provider keeps the `provider` option already there |
| Providers.BaseUrl | src/Providers/BaseProvider.php:25-28 | the configured URL with its trailing slashes removed, never ending in `/`; `''` when it is missing |
| Providers.BaseUrlKeeps | src/Providers/BaseProvider.php:25-28 | a URL with no trailing slash is kept, and trimming twice is trimming once |
| Providers.EnsureApiKey | src/Providers/BaseProvider.php:43-52 | it fails exactly when the key is missing or empty; otherwise it returns the stored key |
| Providers.EnsureApiKeyCases | src/Providers/BaseProvider.php:43-52 | a missing key always fails, and a non-empty string key is returned unchanged |
| Providers.ExtractUsage | src/Providers/BaseProvider.php:57-60 | `payload['usage']`, `[]` when it is absent or null, and a TypeError for a non-array |
| Settings.ConfigPath | src/LarAI.php:636-648 | `Config::get` of a dotted path: the empty path is the whole configuration, and a path into a non-array is the default |
| Settings.ConfigPathPresent | src/LarAI.php:636-648 | a present path reads its value whatever the default |
| Settings.ConfigPathAbsent | src/LarAI.php:636-648 | a missing path reads the default |
| Similarity.Floats | src/LarAI.php:888-893 | `array_map('floatval', v)` keeps every key and makes every value the float of the old one |
| PhpStrings.TrimRightChar | src/Providers/BaseProvider.php:27 | `rtrim` removes exactly the trailing run of the character |
| PhpStrings.Trim | src/Services/RagService.php:28 | `trim` gives a slice that neither starts nor ends with a strippable character |
| PhpStrings.TrimIdempotent | src/Services/RagService.php:28 | trimming twice is trimming once |
| PhpStrings.ReplaceAbsent | src/Services/PromptRegistry.php:44 | `str_replace` of a pattern that does not occur changes nothing |
| PhpStrings.ReplaceBySelf | src/Services/PromptRegistry.php:44 | replacing a pattern by itself changes nothing |
| Php.IntTextInjective | src/LarAI.php:245 | different integers have different decimal texts |
| Php.LeadingRealOfIntText | src/LarAI.php:487 | the decimal text of an integer reads back as that integer |
| Php.IntOfIntText | src/LarAI.php:487 | `(int) (string) $n == $n` |
| Php.DecimalPoint | src/LarAI.php:245 | the position p of the decimal point of a positive real: 10^(p-1) ≤ r < 10^p |
| Php.DecimalPointIs | src/LarAI.php:245 | that position is unique |
| Php.RoundHalfEven | src/LarAI.php:245 | the nearest integer, ties to the even one |
| Php.Significand | src/LarAI.php:245 | the 14 significant digits PHP prints: exactly 14 digits, and within half a unit in the last place of r |
| Php.FloatText | src/LarAI.php:245 | `(string)` of a float is never empty and starts with `-` exactly for a negative float |
| Php.FloatTextNegative | src/LarAI.php:245 | a negative float prints as `-` and its magnitude |
| Php.WholeFloatText | src/LarAI.php:245 | a whole float of at most 14 digits prints as the integer does, with no `.0` |
| Php.WholeFloatReadsBack | src/LarAI.php:245 | such a float printed and read back by `floatval` is itself |
| Php.HalfFloatText | src/Services/PromptRegistry.php:44 | n + 0.5 below 10^13 prints as n followed by `.5` |
| Php.PowerOfTenText | src/Services/PromptRegistry.php:44 | powers of ten print plainly from 0.0001 to 10^13 and in exponent form outside it, as 1.0E+14 or 1.0E-5 |

## Left out

- Events, logging and timing are not modelled. This covers `dispatchBeforeRequest`/`dispatchAfterRequest` payloads, `recordUsage`'s event and `dispatchTiming`. Only the parts that can throw inside a candidate's `try` are kept: the moderation veto, as an oracle, and the array type of `usage`.
- The vendor providers (OpenAI, Claude, Llama) are not modelled. A provider is a record of its name, its capability flags and two call functions given as parameters.
- `BaseProvider::request` is not modelled: it is an HTTP client with a timeout.
- Retry and backoff are not modelled: no code reads those settings.
- Files are not read. `summarizeFile`, `embeddingsFile`, `extractTextFromFile` and audio reads are left out.
- The public one-line wrappers are represented by the method name passed to `Call`, `Queue` and `StreamProvider`. These are `text`, `chat`, `image`, `vision`, `transcribe`, `speak`, `embeddings`, the `queue*` methods and `streamText`/`streamChat`.
- Floating point is not modelled. Scores are reals, and `sqrt` is a parameter. Only the zero-norm rule, symmetry, the common-length rule and ordering are proved.
- Similarity.Component: a component is read with `floatval`. PHP 8's `*` on a non-numeric string or an array component raises a TypeError instead; this is not modelled.
- Php.LeadingReal: an integer cast is the truncated real. PHP's 64-bit integer range and its overflow are not modelled.
- Php.FloatText: a real stands for the exact value of a double. INF, NAN and `-0` are not modelled, and neither are doubles that are not the value written (`0.1` is the real 0.1).
- The following are parameters: JSON encoding and decoding, SHA-256, the PCRE e-mail and phone rules, `Str::uuid` (one value per attempt or item index) and the clock.
- The clock does not move during a call.
- Concurrency is not modelled: the cache, the health flags and the rate counters are updated one call at a time.
- One cache store serves the responses, the health flags and the counters. The `larai.cache.store` selection is not modelled.
- Dispatcher.RateKey: the minute label is `now / 60` in decimal, not `YmdHi`. Both name one key per provider per minute.
- PHP's conversion of numeric-string array keys to integers is not modelled. String characters stand for bytes.
- The queue's connection and queue names are not modelled. Neither is the value `Bus::dispatch` returns: a queued reply carries the job itself, and `recommend`'s array view of it has a null `job`.
- Generators are modelled as a stream value that is drained explicitly (`Drain`). The provider's stream call runs only when the stream is pulled. The provider's stream is its chunks and an optional error after them; the chunks yielded before that error have already reached the consumer.
- Configured class names are resolved only to the package's own middlewares and policies. Other classes are dropped.
- Routing.Rank: a provider's latency or cost is compared as the number `floatval` reads from it. PHP 8's `<=>` on mixed types compares differently: a non-numeric string is greater than any number (`'high' <=> 5` is 1), `'5abc'` against `10` is a string comparison, and a boolean is compared as a boolean. Such comparisons are not a total order, and `usort`'s result under them is not modelled.
- Routing.SortProviders: the order proved is the one of `Rank`, so it matches PHP only when every configured latency or cost is a number, a numeric string or absent.
- Routing.RouteTableSorted: the same restriction as `Routing.SortProviders`.
- PHP's "Array to string conversion" warning, raised when `array_unique` compares array members, is not modelled: the member is compared as the string `Array`, as PHP does.
- Rag.Chunk: the as-written loop is modelled only for the settings under which it ends (no positive overlap). Non-termination outside those settings is stated by `Rag.ChunkNeverEnds`. `Rag.Index` uses the corrected loop.
- Similarity.SumSquaresZero: proves only that an all-zero vector has norm zero, not the converse, because the converse needs real-arithmetic facts about squares that were not needed elsewhere.

## Findings

| source | as written | input that shows it | evidently intended | confidence | as-written member | corrected member |
|---|---|---|---|---|---|---|
| src/Services/RagService.php:38-51 | after the window that reaches the end of the text, `start = end - overlap` moves back inside the text, so with any positive overlap the loop never ends | `chunk("a")` with the defaults 1000/100: start returns to 0 forever | stop once a window reaches the end, so consecutive windows overlap by `overlap` characters | high (not executed) | Rag.ChunkNeverEnds | Rag.CorrectedWindowsOverlap |
| src/LarAI.php:386-394 | `callProvider(): array` returns `ResponseFactory::make(...)`, an object. The TypeError is raised inside the `try`, caught, the candidate is marked failed and the next is tried, so DTO mode never returns a DTO | any call with option `dto => true` and a provider that answers | return the DTO built from the response (the return types of `callProvider` and the public methods widened) | high (not executed) | Dispatcher.CallAsWrittenNeverDto | Dispatcher.CallReturnsDto |
