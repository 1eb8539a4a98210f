/**
 * Request/response middleware. `before` may rewrite the args, the options and
 * the request context; `after` may rewrite the response and the context. Both
 * shipped middlewares leave the response alone.
 */
module Middlewares {
  import opened Wrappers
  import opened Php
  import opened Foreign
  import opened Policies

  datatype Middleware = TraceId | Redact

  /** What `before` returns. */
  datatype Prepared = Prepared(args: seq<Entry>, options: seq<Entry>, context: seq<Entry>)

  /** What `after` returns. */
  datatype Finished = Finished(response: seq<Entry>, context: seq<Entry>)

  const TraceKey: Key := StrKey("trace_id")

  /** The trace id `before` settles on: the option, else the context's, else a fresh one. */
  function TraceIdOf(freshId: string, options: seq<Entry>, context: seq<Entry>): (id: Value)
    ensures id != Null
  {
    Coalesce(options, TraceKey, Coalesce(context, TraceKey, Str(freshId)))
  }

  /** `TraceIdMiddleware::before`. */
  function TraceIdBefore(freshId: string, args: seq<Entry>, options: seq<Entry>, context: seq<Entry>): Prepared {
    var id := TraceIdOf(freshId, options, context);
    Prepared(args, Set(options, TraceKey, id), Set(context, TraceKey, id))
  }

  /**
   * `before` keeps the args, puts one non-null trace id under `trace_id` in
   * both the options and the context, and changes no other key; the id is the
   * options' own when set, else the context's, else the fresh one.
   */
  lemma TraceIdBeforeSpec(freshId: string, args: seq<Entry>, options: seq<Entry>, context: seq<Entry>)
    ensures var r := TraceIdBefore(freshId, args, options, context);
      var id := TraceIdOf(freshId, options, context);
      && r.args == args
      && Get(r.options, TraceKey) == Some(id) && Get(r.context, TraceKey) == Some(id)
      && (forall k :: k != TraceKey ==> Get(r.options, k) == Get(options, k) && Get(r.context, k) == Get(context, k))
      && (Get(options, TraceKey).Some? && Get(options, TraceKey).value != Null ==> id == Get(options, TraceKey).value)
      && (Coalesce(options, TraceKey, Null) == Null && Coalesce(context, TraceKey, Null) != Null ==>
            id == Get(context, TraceKey).value)
      && (Coalesce(options, TraceKey, Null) == Null && Coalesce(context, TraceKey, Null) == Null ==> id == Str(freshId))
  {
  }

  /** Running `before` on its own output changes nothing, whatever fresh id is offered. */
  lemma TraceIdIdempotent(fresh1: string, fresh2: string, args: seq<Entry>, options: seq<Entry>, context: seq<Entry>)
    ensures var r := TraceIdBefore(fresh1, args, options, context);
      TraceIdBefore(fresh2, r.args, r.options, r.context) == r
  {
    var r := TraceIdBefore(fresh1, args, options, context);
    var id := TraceIdOf(fresh1, options, context);
    assert TraceIdOf(fresh2, r.options, r.context) == id;
    SetSame(r.options, TraceKey, id);
    SetSame(r.context, TraceKey, id);
  }

  /** `RedactMiddleware::before`: the engine's args and options, the context as it was. */
  function RedactBefore(x: Externals, policies: seq<Policy>, args: seq<Entry>, options: seq<Entry>, context: seq<Entry>): (r: Result<Prepared, Throwable>)
    ensures r.Success? <==> SanitizeAll(x, policies, args, options).Success?
    ensures r.Success? ==> r.value == Prepared(SanitizeAll(x, policies, args, options).value.args,
                                               SanitizeAll(x, policies, args, options).value.options, context)
    ensures r.Failure? ==> r.error == SanitizeAll(x, policies, args, options).error
  {
    match SanitizeAll(x, policies, args, options)
    case Success(q) => Success(Prepared(q.args, q.options, context))
    case Failure(e) => Failure(e)
  }

  /**
   * One middleware's `before`. The fresh id is the one `Str::uuid()` would give;
   * it is consulted only when no trace id is set yet.
   */
  function Before(x: Externals, policies: seq<Policy>, freshId: string, m: Middleware, p: Prepared): Result<Prepared, Throwable> {
    match m
    case TraceId => Success(TraceIdBefore(freshId, p.args, p.options, p.context))
    case Redact => RedactBefore(x, policies, p.args, p.options, p.context)
  }

  /** Both middlewares' `after` hand back the response and the context untouched. */
  function After(m: Middleware, f: Finished): (r: Finished)
    ensures r == f
  {
    match m
    case TraceId => Finished(f.response, f.context)
    case Redact => Finished(f.response, f.context)
  }

  /** `applyMiddlewaresBefore`: each middleware is fed the previous one's result. */
  function BeforeChain(x: Externals, policies: seq<Policy>, freshId: string, ms: seq<Middleware>, p: Prepared): Result<Prepared, Throwable> {
    if ms == [] then Success(p)
    else
      match Before(x, policies, freshId, ms[0], p)
      case Success(q) => BeforeChain(x, policies, freshId, ms[1..], q)
      case Failure(e) => Failure(e)
  }

  /** `applyMiddlewaresAfter`. */
  function AfterChain(ms: seq<Middleware>, f: Finished): Finished {
    if ms == [] then f else AfterChain(ms[1..], After(ms[0], f))
  }

  /** The after-chain of the shipped middlewares is the identity. */
  lemma {:induction false} AfterChainIdentity(ms: seq<Middleware>, f: Finished)
    ensures AfterChain(ms, f) == f
  {
    if ms != [] {
      AfterChainIdentity(ms[1..], After(ms[0], f));
    }
  }

  /** A before-chain that succeeds leaves a trace id in the options and the context when it ends with TraceId. */
  lemma BeforeChainLastTrace(x: Externals, policies: seq<Policy>, freshId: string, ms: seq<Middleware>, p: Prepared)
    requires ms != [] && ms[|ms| - 1] == TraceId
    requires BeforeChain(x, policies, freshId, ms, p).Success?
    ensures var q := BeforeChain(x, policies, freshId, ms, p).value;
      Get(q.options, TraceKey).Some? && Get(q.options, TraceKey) == Get(q.context, TraceKey)
  {
    BeforeChainAppend(x, policies, freshId, ms[..|ms| - 1], [TraceId], p);
    assert ms == ms[..|ms| - 1] + [TraceId];
  }

  /** A chain of two lists runs the first list, then the second on its result. */
  lemma {:induction false} BeforeChainAppend(x: Externals, policies: seq<Policy>, freshId: string, ms: seq<Middleware>, ns: seq<Middleware>, p: Prepared)
    ensures BeforeChain(x, policies, freshId, ms + ns, p) ==
      match BeforeChain(x, policies, freshId, ms, p)
      case Success(q) => BeforeChain(x, policies, freshId, ns, q)
      case Failure(e) => Failure(e)
  {
    if ms == [] {
      assert ms + ns == ns;
    } else {
      assert (ms + ns)[0] == ms[0];
      assert (ms + ns)[1..] == ms[1..] + ns;
      match Before(x, policies, freshId, ms[0], p)
      case Success(q) => BeforeChainAppend(x, policies, freshId, ms[1..], ns, q);
      case Failure(e) =>
    }
  }

  /** The middleware a configured class name denotes, if it is one of the package's. */
  function MiddlewareClass(name: Value): Option<Middleware> {
    if name == Str("AqwelAI\\LarAI\\Middleware\\TraceIdMiddleware") then Some(TraceId)
    else if name == Str("AqwelAI\\LarAI\\Middleware\\RedactMiddleware") then Some(Redact)
    else None
  }

  /** `loadMiddlewares`: the configured class names that denote a middleware, in order. */
  function LoadMiddlewares(names: seq<Value>): seq<Middleware> {
    if names == [] then []
    else (match MiddlewareClass(names[0]) case Some(m) => [m] case None => []) + LoadMiddlewares(names[1..])
  }
}
