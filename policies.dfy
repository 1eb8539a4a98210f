/**
 * The request policy chain: each policy takes the positional arguments and
 * the options of a call and either returns them (possibly rewritten) or
 * throws, which aborts the chain.
 */
module Policies {
  import opened Wrappers
  import opened Php
  import opened PhpStrings
  import opened Foreign

  datatype Policy =
    | RedactPii
    | Denylist(terms: seq<Value>)

  /** The `['args' => ..., 'options' => ...]` pair a policy returns. */
  datatype Request = Request(args: seq<Entry>, options: seq<Entry>)

  /* ------------------------------------------------------- DenylistPolicy */

  /**
   * `stripos` finds a term in the text: the term is coerced to a string, so
   * `null` and `false` become "", which occurs at offset 0 of any text.
   */
  predicate Hit(term: Value, text: string) {
    term != Str("") && !term.Arr? && ContainsIgnoringCase(text, StringOf(term))
  }

  const NeedleError := TypeError("stripos(): Argument #2 ($needle) must be of type string, array given")

  /**
   * `matches`: the terms in order, skipping the empty string; the first
   * one found answers true, and an array term reached first throws.
   */
  function Matches(terms: seq<Value>, text: string): (r: Result<bool, Throwable>)
    ensures r.Failure? ==> r.error == NeedleError
    ensures (forall i :: 0 <= i < |terms| ==> terms[i].Str?) ==> r.Success?
  {
    if terms == [] then Success(false)
    else if terms[0] == Str("") then Matches(terms[1..], text)
    else if terms[0].Arr? then Failure(NeedleError)
    else if ContainsIgnoringCase(text, StringOf(terms[0])) then Success(true)
    else Matches(terms[1..], text)
  }

  /** Term i is found, and no array term comes before it. */
  predicate FoundAt(terms: seq<Value>, text: string, i: nat)
    requires i < |terms|
  {
    Hit(terms[i], text) && forall j :: 0 <= j < i ==> !terms[j].Arr?
  }

  /** Term i is an array, and no term before it is found. */
  predicate BrokenAt(terms: seq<Value>, text: string, i: nat)
    requires i < |terms|
  {
    terms[i].Arr? && forall j :: 0 <= j < i ==> !Hit(terms[j], text)
  }

  lemma FoundShift(terms: seq<Value>, text: string, i: nat)
    requires i + 1 < |terms|
    ensures FoundAt(terms, text, i + 1) <==> !terms[0].Arr? && FoundAt(terms[1..], text, i)
  {
    assert forall j :: 0 <= j < i ==> terms[1..][j] == terms[j + 1];
    if !terms[0].Arr? && FoundAt(terms[1..], text, i) {
      forall j | 0 <= j < i + 1
        ensures !terms[j].Arr?
      {
        if j > 0 {
          assert terms[1..][j - 1] == terms[j];
        }
      }
    }
  }

  lemma BrokenShift(terms: seq<Value>, text: string, i: nat)
    requires i + 1 < |terms|
    ensures BrokenAt(terms, text, i + 1) <==> !Hit(terms[0], text) && BrokenAt(terms[1..], text, i)
  {
    assert forall j :: 0 <= j < i ==> terms[1..][j] == terms[j + 1];
    if !Hit(terms[0], text) && BrokenAt(terms[1..], text, i) {
      forall j | 0 <= j < i + 1
        ensures !Hit(terms[j], text)
      {
        if j > 0 {
          assert terms[1..][j - 1] == terms[j];
        }
      }
    }
  }

  /** A match is a term found before any array term. */
  lemma {:induction false} MatchesFound(terms: seq<Value>, text: string)
    ensures Matches(terms, text) == Success(true) <==> exists i :: 0 <= i < |terms| && FoundAt(terms, text, i)
  {
    if terms != [] {
      var rest := terms[1..];
      MatchesFound(rest, text);
      if Hit(terms[0], text) {
        assert FoundAt(terms, text, 0);
      }
      if Matches(terms, text) == Success(true) && !Hit(terms[0], text) {
        var i :| 0 <= i < |rest| && FoundAt(rest, text, i);
        FoundShift(terms, text, i);
      }
      if exists i :: 0 <= i < |terms| && FoundAt(terms, text, i) {
        var i :| 0 <= i < |terms| && FoundAt(terms, text, i);
        if i > 0 && !Hit(terms[0], text) {
          FoundShift(terms, text, i - 1);
        }
      }
    }
  }

  /** An error is an array term reached before any match, and it is always the `stripos` type error. */
  lemma {:induction false} MatchesBroken(terms: seq<Value>, text: string)
    ensures Matches(terms, text).Failure? <==> exists i :: 0 <= i < |terms| && BrokenAt(terms, text, i)
    ensures Matches(terms, text).Failure? ==> Matches(terms, text).error == NeedleError
  {
    if terms != [] {
      var rest := terms[1..];
      MatchesBroken(rest, text);
      if terms[0].Arr? {
        assert BrokenAt(terms, text, 0);
      }
      if Matches(terms, text).Failure? && !terms[0].Arr? {
        var i :| 0 <= i < |rest| && BrokenAt(rest, text, i);
        BrokenShift(terms, text, i);
      }
      if exists i :: 0 <= i < |terms| && BrokenAt(terms, text, i) {
        var i :| 0 <= i < |terms| && BrokenAt(terms, text, i);
        if i > 0 && !terms[0].Arr? {
          BrokenShift(terms, text, i - 1);
        }
      }
    }
  }

  /** A `null` or `false` term matches any text: every later term is never consulted. */
  lemma EmptyNeedleMatches(terms: seq<Value>, text: string, i: nat)
    requires i < |terms| && (terms[i] == Null || terms[i] == Bool(false))
    requires forall j :: 0 <= j < i ==> !terms[j].Arr?
    ensures Matches(terms, text) == Success(true)
  {
    assert MatchesIgnoringCaseAt(text, StringOf(terms[i]), 0);
    assert FoundAt(terms, text, i);
    MatchesFound(terms, text);
  }

  const DenylistMessage := "Request blocked by denylist policy."

  /** The JSON text of the args, when it is truthy. */
  function Flat(x: Externals, args: seq<Entry>): Option<string> {
    match x.jsonEncode(Arr(args))
    case Some(s) => if Truthy(Str(s)) then Some(s) else None
    case None => None
  }

  /** `DenylistPolicy::apply`. */
  function DenylistApply(x: Externals, terms: seq<Value>, args: seq<Entry>, options: seq<Entry>): (r: Result<Request, Throwable>)
    ensures r.Success? ==> r.value == Request(args, options)
    ensures r.Failure? ==> r.error == LarAIException(DenylistMessage) || r.error == NeedleError
  {
    if terms == [] then Success(Request(args, options))
    else
      var flat := Flat(x, args);
      if flat.None? then Success(Request(args, options))
      else
        match Matches(terms, flat.value)
        case Failure(e) => Failure(e)
        case Success(found) =>
          if found then Failure(LarAIException(DenylistMessage)) else Success(Request(args, options))
  }

  /**
   * The denylist blocks exactly when a term occurs, case-insensitively, in
   * the truthy JSON serialisation of the args before any array term; an
   * array term reached first is a type error; otherwise the request passes
   * untouched. Options play no part.
   */
  lemma DenylistSpec(x: Externals, terms: seq<Value>, args: seq<Entry>, options: seq<Entry>)
    ensures var r := DenylistApply(x, terms, args, options);
      && (r == Failure(LarAIException(DenylistMessage)) <==>
            Flat(x, args).Some? &&
            exists i :: 0 <= i < |terms| && FoundAt(terms, Flat(x, args).value, i))
      && (r == Failure(NeedleError) <==>
            Flat(x, args).Some? &&
            exists i :: 0 <= i < |terms| && BrokenAt(terms, Flat(x, args).value, i))
      && (r.Failure? ==> r == Failure(LarAIException(DenylistMessage)) || r == Failure(NeedleError))
      && (r.Success? ==> r.value == Request(args, options))
  {
    MatchesFound(terms, Flat(x, args).GetOr(""));
    MatchesBroken(terms, Flat(x, args).GetOr(""));
  }

  /* ------------------------------------------------------ RedactPiiPolicy */

  /** The redactor closure: the e-mail rule, then the phone rule; a failed rule yields "". */
  function Redactor(x: Externals, s: string): string {
    x.phoneRule(x.emailRule(s).GetOr("")).GetOr("")
  }

  /** `walk`: every entry keeps its key; strings are redacted, arrays walked, the rest kept. */
  function WalkValue(v: Value, f: string -> string): (r: Value)
    ensures v.Arr? <==> r.Arr?
    ensures v.Arr? ==> |r.entries| == |v.entries|
  {
    match v
    case Str(s) => Str(f(s))
    case Arr(es) => Arr(seq(|es|, i requires 0 <= i < |es| => Entry(es[i].key, WalkValue(es[i].val, f))))
    case _ => v
  }

  function Walk(es: seq<Entry>, f: string -> string): (r: seq<Entry>)
    ensures |r| == |es|
  {
    WalkValue(Arr(es), f).entries
  }

  /** A value with every string blanked: what a walk cannot change. */
  function Shape(v: Value): Value {
    match v
    case Str(_) => Str("")
    case Arr(es) => Arr(seq(|es|, i requires 0 <= i < |es| => Entry(es[i].key, Shape(es[i].val))))
    case _ => v
  }

  /** `walk` keeps the shape: the same keys at every depth, arrays stay arrays, non-strings stay. */
  lemma {:induction false} WalkShape(v: Value, f: string -> string)
    ensures Shape(WalkValue(v, f)) == Shape(v)
  {
    match v
    case Arr(es) =>
      var w := WalkValue(v, f).entries;
      forall i | 0 <= i < |es|
        ensures Shape(w[i].val) == Shape(es[i].val)
      {
        WalkShape(es[i].val, f);
      }
    case _ =>
  }

  function Concat(xss: seq<seq<string>>): seq<string> {
    if xss == [] then [] else xss[0] + Concat(xss[1..])
  }

  /** The strings of a value, depth first, in order. */
  function Leaves(v: Value): seq<string> {
    match v
    case Str(s) => [s]
    case Arr(es) => Concat(seq(|es|, i requires 0 <= i < |es| => Leaves(es[i].val)))
    case _ => []
  }

  function MapStrings(ss: seq<string>, f: string -> string): (r: seq<string>)
    ensures |r| == |ss|
    ensures forall i :: 0 <= i < |ss| ==> r[i] == f(ss[i])
  {
    seq(|ss|, i requires 0 <= i < |ss| => f(ss[i]))
  }

  lemma {:induction false} ConcatMap(xss: seq<seq<string>>, yss: seq<seq<string>>, f: string -> string)
    requires |xss| == |yss|
    requires forall i :: 0 <= i < |xss| ==> yss[i] == MapStrings(xss[i], f)
    ensures Concat(yss) == MapStrings(Concat(xss), f)
  {
    if xss != [] {
      ConcatMap(xss[1..], yss[1..], f);
      assert MapStrings(xss[0] + Concat(xss[1..]), f) == MapStrings(xss[0], f) + MapStrings(Concat(xss[1..]), f);
    }
  }

  /** Every string leaf, at any depth, is replaced by its redaction, in the same order. */
  lemma {:induction false} WalkLeaves(v: Value, f: string -> string)
    ensures Leaves(WalkValue(v, f)) == MapStrings(Leaves(v), f)
  {
    match v
    case Arr(es) =>
      var w := WalkValue(v, f).entries;
      var xss := seq(|es|, i requires 0 <= i < |es| => Leaves(es[i].val));
      var yss := seq(|w|, i requires 0 <= i < |w| => Leaves(w[i].val));
      forall i | 0 <= i < |es|
        ensures yss[i] == MapStrings(xss[i], f)
      {
        WalkLeaves(es[i].val, f);
      }
      ConcatMap(xss, yss, f);
    case Str(s) =>
    case _ =>
  }

  /** `RedactPiiPolicy::apply`: the args are walked, the options and the method play no part. */
  function RedactApply(x: Externals, args: seq<Entry>, options: seq<Entry>): (r: Request)
    ensures r.options == options
    ensures Shape(Arr(r.args)) == Shape(Arr(args))
    ensures Leaves(Arr(r.args)) == MapStrings(Leaves(Arr(args)), s => Redactor(x, s))
  {
    var f := s => Redactor(x, s);
    WalkShape(Arr(args), f);
    WalkLeaves(Arr(args), f);
    Request(Walk(args, f), options)
  }

  /* --------------------------------------------------------- PolicyEngine */

  /** `Policy::apply`; the method name is read by no policy. */
  function Apply(x: Externals, p: Policy, args: seq<Entry>, options: seq<Entry>): Result<Request, Throwable> {
    match p
    case RedactPii => Success(RedactApply(x, args, options))
    case Denylist(terms) => DenylistApply(x, terms, args, options)
  }

  /** `sanitize`: the policies in order, each fed the previous result; the first exception aborts. */
  function SanitizeAll(x: Externals, ps: seq<Policy>, args: seq<Entry>, options: seq<Entry>): (r: Result<Request, Throwable>)
    ensures r.Success? ==> r.value.options == options && Shape(Arr(r.value.args)) == Shape(Arr(args))
    ensures (forall i :: 0 <= i < |ps| ==> ps[i].RedactPii?) ==> r.Success?
    ensures r.Failure? ==> r.error == LarAIException(DenylistMessage) || r.error == NeedleError
  {
    if ps == [] then Success(Request(args, options))
    else
      match Apply(x, ps[0], args, options)
      case Success(r) => SanitizeAll(x, ps[1..], r.args, r.options)
      case Failure(e) => Failure(e)
  }

  /** Running two lists of policies is running the first, then the second on its result. */
  lemma {:induction false} SanitizeAppend(x: Externals, ps: seq<Policy>, qs: seq<Policy>, args: seq<Entry>, options: seq<Entry>)
    ensures SanitizeAll(x, ps + qs, args, options) ==
      match SanitizeAll(x, ps, args, options)
      case Success(r) => SanitizeAll(x, qs, r.args, r.options)
      case Failure(e) => Failure(e)
  {
    if ps == [] {
      assert ps + qs == qs;
    } else {
      assert (ps + qs)[0] == ps[0];
      assert (ps + qs)[1..] == ps[1..] + qs;
      match Apply(x, ps[0], args, options)
      case Success(r) => SanitizeAppend(x, ps[1..], qs, r.args, r.options);
      case Failure(e) =>
    }
  }

  /** A policy that throws ends the chain with its exception; no later policy runs. */
  lemma SanitizeAborts(x: Externals, ps: seq<Policy>, i: nat, args: seq<Entry>, options: seq<Entry>, e: Throwable)
    requires i < |ps|
    requires SanitizeAll(x, ps[..i], args, options).Success?
    requires var r := SanitizeAll(x, ps[..i], args, options).value;
      Apply(x, ps[i], r.args, r.options) == Failure(e)
    ensures SanitizeAll(x, ps, args, options) == Failure(e)
  {
    assert ps == ps[..i] + ps[i..];
    SanitizeAppend(x, ps[..i], ps[i..], args, options);
    assert ps[i..][0] == ps[i];
  }

  /** The policy a configured class name denotes, if it is one of the package's. */
  function PolicyClass(name: Value): Option<Policy> {
    if name == Str("AqwelAI\\LarAI\\Policies\\RedactPiiPolicy") then Some(RedactPii)
    else if name == Str("AqwelAI\\LarAI\\Policies\\DenylistPolicy") then Some(Denylist([]))
    else None
  }

  /** The policies built from the configured class names, in order. */
  function Instances(names: seq<Value>): (r: seq<Policy>)
    ensures forall p :: p in r ==> p == RedactPii || p == Denylist([])
  {
    if names == [] then []
    else (match PolicyClass(names[0]) case Some(p) => [p] case None => []) + Instances(names[1..])
  }

  /** `DenylistPolicy::__construct(array $terms)` given something other than an array. */
  const TermsError := TypeError("DenylistPolicy::__construct(): Argument #1 ($terms) must be of type array")

  /**
   * The engine as the service provider builds it: the configured policies,
   * then the denylist over the configured terms, kept as they are.
   */
  function Wired(configured: Value, denylist: Value): (r: Result<seq<Policy>, Throwable>)
    ensures r.Success? <==> denylist.Arr?
    ensures r.Failure? ==> r.error == TermsError
    ensures r.Success? ==> |r.value| >= 1 && r.value[|r.value| - 1] == Denylist(ValuesOf(denylist.entries))
  {
    var names := if configured.Arr? then ValuesOf(configured.entries) else [];
    if denylist.Arr? then Success(Instances(names) + [Denylist(ValuesOf(denylist.entries))])
    else Failure(TermsError)
  }

  /** As wired, the denylist runs last and sees the args the configured policies produced. */
  lemma DenylistRunsLast(x: Externals, configured: Value, denylist: Value, args: seq<Entry>, options: seq<Entry>)
    requires denylist.Arr?
    ensures var ps := Wired(configured, denylist).value;
      SanitizeAll(x, ps, args, options) ==
        match SanitizeAll(x, ps[..|ps| - 1], args, options)
        case Success(r) => DenylistApply(x, ValuesOf(denylist.entries), r.args, r.options)
        case Failure(e) => Failure(e)
  {
    var ps := Wired(configured, denylist).value;
    var init := ps[..|ps| - 1];
    assert ps == init + [ps[|ps| - 1]];
    SanitizeAppend(x, init, [ps[|ps| - 1]], args, options);
  }

  /** With no policies, `sanitize` hands back the args and options it was given. */
  lemma SanitizeNone(x: Externals, args: seq<Entry>, options: seq<Entry>)
    ensures SanitizeAll(x, [], args, options) == Success(Request(args, options))
  {
  }

  class PolicyEngine {
    var policies: seq<Policy>

    constructor (policies: seq<Policy>)
      ensures this.policies == policies
    {
      this.policies := policies;
    }

    /** `loadFromConfig`: a list of class names replaces every policy; anything else is ignored. */
    method LoadFromConfig(configured: Value)
      modifies this
      ensures configured.Arr? ==> policies == Instances(ValuesOf(configured.entries))
      ensures !configured.Arr? ==> policies == old(policies)
    {
      if configured.Arr? {
        policies := Instances(ValuesOf(configured.entries));
      }
    }

    method Sanitize(x: Externals, args: seq<Entry>, options: seq<Entry>) returns (r: Result<Request, Throwable>)
      ensures r == SanitizeAll(x, policies, args, options)
    {
      var a, o := args, options;
      for i := 0 to |policies|
        invariant SanitizeAll(x, policies, args, options) == SanitizeAll(x, policies[i..], a, o)
      {
        assert policies[i..][0] == policies[i];
        assert policies[i..][1..] == policies[i + 1..];
        var result := Apply(x, policies[i], a, o);
        if result.Failure? {
          return Failure(result.error);
        }
        a, o := result.value.args, result.value.options;
      }
      return Success(Request(a, o));
    }
  }
}
