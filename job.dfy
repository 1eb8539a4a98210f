/**
 * The queued job: it carries an action name, the positional arguments and
 * the provider chosen when it was queued, and on `handle` rewrites the
 * options argument before calling the dispatcher method of that name.
 */
module Jobs {
  import opened Wrappers
  import opened Php

  /** The actions a job may run; every other action is dropped. */
  const Allowed: set<string> := {"text", "chat", "image", "summarize", "embeddings"}

  /** The dispatcher call `handle` ends in: `$larai->{$action}(...$args)`. */
  datatype Invocation = Invocation(action: string, args: seq<Entry>)

  /** `$this->args[1] ?? []` as an array `$options['provider'] = …` can write to. */
  function OptionsOf(args: seq<Entry>): Result<seq<Entry>, Throwable> {
    match Coalesce(args, IntKey(1), Arr([]))
    case Arr(es) => Success(es)
    case Bool(false) => Success([])
    case Str(_) => Failure(Error("Cannot access offset of type string on string"))
    case _ => Failure(Error("Cannot use a scalar value as an array"))
  }

  /** The options after the rewrite: the job's provider, else the one already there, else null. */
  function WithProvider(options: seq<Entry>, provider: Option<string>): seq<Entry> {
    var chosen := match provider case Some(p) => Str(p) case None => Coalesce(options, StrKey("provider"), Null);
    Set(options, StrKey("provider"), chosen)
  }

  class LarAIJob {
    const action: string
    var args: seq<Entry>
    const provider: Option<string>

    constructor (action: string, args: seq<Entry>, provider: Option<string>)
      ensures this.action == action && this.args == args && this.provider == provider
    {
      this.action := action;
      this.args := args;
      this.provider := provider;
    }

    /**
     * `handle`: None for an action outside the allow-list, leaving the job
     * as it was; otherwise `args[1]` is replaced by the rewritten options and
     * the call to make is returned.
     */
    method Handle() returns (r: Result<Option<Invocation>, Throwable>)
      modifies this
      ensures action !in Allowed ==> r == Success(None) && args == old(args)
      ensures action in Allowed ==>
        match OptionsOf(old(args))
        case Failure(e) => r == Failure(e) && args == old(args)
        case Success(options) =>
          && args == Set(old(args), IntKey(1), Arr(WithProvider(options, provider)))
          && r == Success(Some(Invocation(action, args)))
    {
      if action !in Allowed {
        return Success(None);
      }
      var options :- OptionsOf(args);
      options := WithProvider(options, provider);
      args := Set(args, IntKey(1), Arr(options));
      return Success(Some(Invocation(action, args)));
    }
  }

  /**
   * The rewritten arguments: the options name the job's provider when it has
   * one and otherwise keep theirs; every other option and every other
   * argument is as it was.
   */
  lemma HandleRewrite(args: seq<Entry>, provider: Option<string>, k: Key, o: Key)
    requires OptionsOf(args).Success?
    ensures var options := OptionsOf(args).value;
      var rewritten := Set(args, IntKey(1), Arr(WithProvider(options, provider)));
      && Get(rewritten, IntKey(1)).value.Arr?
      && Get(Get(rewritten, IntKey(1)).value.entries, StrKey("provider")) ==
           Some(if provider.Some? then Str(provider.value) else Coalesce(options, StrKey("provider"), Null))
      && (o != StrKey("provider") ==> Get(Get(rewritten, IntKey(1)).value.entries, o) == Get(options, o))
      && (k != IntKey(1) ==> Get(rewritten, k) == Get(args, k))
  {
  }

  /** An existing `provider` option survives when the job was queued without one. */
  lemma KeepsQueuedProvider(args: seq<Entry>, name: string)
    requires Get(args, IntKey(1)) == Some(Arr([Entry(StrKey("provider"), Str(name))]))
    ensures OptionsOf(args) == Success([Entry(StrKey("provider"), Str(name))])
    ensures WithProvider(OptionsOf(args).value, None) == [Entry(StrKey("provider"), Str(name))]
  {
  }
}
