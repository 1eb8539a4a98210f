/**
 * The structured-output checker: a subset of JSON Schema 2020-12 — `type`
 * (Validation, section 6.1.1), `required` (Validation, section 6.5.3),
 * `properties` (Core, section 10.3.2.1) and `items` (Core, section 10.3.1.2)
 * — with PHP's readings: any PHP array passes as an object or an array, and a
 * numeric string passes as a number.
 */
module Schema {
  import opened Wrappers
  import opened Php
  import opened Foreign

  /** The first failing outcome, in order, or Pass when none fails. */
  function FirstFailure(os: seq<Outcome<Throwable>>): (r: Outcome<Throwable>)
    ensures r.Pass? <==> forall i :: 0 <= i < |os| ==> os[i].Pass?
    ensures r.Fail? ==> exists i :: 0 <= i < |os| && os[i] == r && forall j :: 0 <= j < i ==> os[j].Pass?
  {
    if os == [] then Pass
    else if os[0].Fail? then os[0]
    else
      var r := FirstFailure(os[1..]);
      assert r.Fail? ==> exists i :: 1 <= i < |os| && os[i] == r && forall j :: 1 <= j < i ==> os[j].Pass? by {
        if r.Fail? {
          var i :| 0 <= i < |os[1..]| && os[1..][i] == r && forall j :: 0 <= j < i ==> os[1..][j].Pass?;
          assert forall j :: 1 <= j < i + 1 ==> os[j] == os[1..][j - 1];
        }
      }
      r
  }

  function Failed(message: string): Outcome<Throwable> {
    Fail(LarAIException("Schema validation failed: " + message))
  }

  function TypeOf(schema: seq<Entry>): Value {
    Coalesce(schema, StrKey("type"), Null)
  }

  /** The `required` list; anything but an array lists nothing. */
  function Required(schema: seq<Entry>): seq<Value> {
    match Coalesce(schema, StrKey("required"), Arr([]))
    case Arr(es) => ValuesOf(es)
    case _ => []
  }

  /** `array_key_exists($key, $value)`, or the error an illegal offset raises. */
  function CheckRequired(key: Value, value: seq<Entry>): Outcome<Throwable> {
    match AsOffset(key)
    case None => Fail(TypeError("Illegal offset type"))
    case Some(k) => if Has(value, k) then Pass else Failed("missing [" + StringOf(key) + "].")
  }

  /** The two ways validation fails: a schema-validation exception or an illegal `required` key. */
  predicate SchemaError(e: Throwable) {
    || e == TypeError("Illegal offset type")
    || (e.LarAIException? && "Schema validation failed: " <= e.message)
  }

  /** `validate($schema, $value)`; the schema is a PHP array. */
  function Check(schema: Value, value: Value): (r: Outcome<Throwable>)
    requires schema.Arr?
    ensures r.Fail? ==> SchemaError(r.error)
    ensures !value.Arr? && TypeOf(schema.entries) in {Str("object"), Str("array")} ==> r.Fail?
    decreases schema
  {
    var s := schema.entries;
    var ty := TypeOf(s);
    if ty == Str("object") then
      if !value.Arr? then Failed("expected object.")
      else
        var keys := Required(s);
        var missing := FirstFailure(seq(|keys|, i requires 0 <= i < |keys| => CheckRequired(keys[i], value.entries)));
        if missing.Fail? then missing
        else
          match Get(s, StrKey("properties"))
          case Some(Arr(ps)) =>
            FirstFailure(seq(|ps|, i requires 0 <= i < |ps| =>
              if Has(value.entries, ps[i].key) && ps[i].val.Arr?
              then Check(ps[i].val, Get(value.entries, ps[i].key).value)
              else Pass))
          case _ => Pass
    else if ty == Str("array") then
      if !value.Arr? then Failed("expected array.")
      else
        match Get(s, StrKey("items"))
        case Some(Arr(it)) =>
          FirstFailure(seq(|value.entries|, i requires 0 <= i < |value.entries| => Check(Arr(it), value.entries[i].val)))
        case _ => Pass
    else if ty == Str("string") && !value.Str? then Failed("expected string.")
    else if ty == Str("number") && !IsNumeric(value) then Failed("expected number.")
    else if ty == Str("boolean") && !value.Bool? then Failed("expected boolean.")
    else Pass
  }

  /** What conformance means, stated without any order of checking. */
  predicate Conforms(schema: Value, value: Value)
    requires schema.Arr?
    decreases schema
  {
    var s := schema.entries;
    var ty := TypeOf(s);
    && (ty == Str("object") ==>
          && value.Arr?
          && (forall key :: key in Required(s) ==> AsOffset(key).Some? && Has(value.entries, AsOffset(key).value))
          && (match Get(s, StrKey("properties"))
              case Some(Arr(ps)) =>
                forall i :: 0 <= i < |ps| && Has(value.entries, ps[i].key) && ps[i].val.Arr? ==>
                  Conforms(ps[i].val, Get(value.entries, ps[i].key).value)
              case _ => true))
    && (ty == Str("array") ==>
          && value.Arr?
          && (match Get(s, StrKey("items"))
              case Some(Arr(it)) => forall i :: 0 <= i < |value.entries| ==> Conforms(Arr(it), value.entries[i].val)
              case _ => true))
    && (ty == Str("string") ==> value.Str?)
    && (ty == Str("number") ==> IsNumeric(value))
    && (ty == Str("boolean") ==> value.Bool?)
  }

  /** The validator passes a value exactly when the value conforms to the schema. */
  lemma {:induction false} CheckMeansConforms(schema: Value, value: Value)
    requires schema.Arr?
    ensures Check(schema, value).Pass? <==> Conforms(schema, value)
    decreases schema, 1
  {
    var ty := TypeOf(schema.entries);
    if ty == Str("object") && value.Arr? {
      RequiredMeansPresent(schema.entries, value.entries);
      PropertiesMeanConforms(schema, value);
    } else if ty == Str("array") && value.Arr? {
      ItemsMeanConforms(schema, value);
    }
  }

  lemma RequiredMeansPresent(s: seq<Entry>, value: seq<Entry>)
    ensures var keys := Required(s);
      FirstFailure(seq(|keys|, i requires 0 <= i < |keys| => CheckRequired(keys[i], value))).Pass? <==>
      (forall key :: key in keys ==> AsOffset(key).Some? && Has(value, AsOffset(key).value))
  {
    var keys := Required(s);
    var os := seq(|keys|, i requires 0 <= i < |keys| => CheckRequired(keys[i], value));
    assert forall i :: 0 <= i < |keys| ==> os[i] == CheckRequired(keys[i], value);
    assert FirstFailure(os).Pass? <==> forall i :: 0 <= i < |os| ==> os[i].Pass?;
    assert (forall i :: 0 <= i < |keys| ==> CheckRequired(keys[i], value).Pass?) <==>
           (forall key :: key in keys ==> CheckRequired(key, value).Pass?) by {
      if forall i :: 0 <= i < |keys| ==> CheckRequired(keys[i], value).Pass? {
        forall key | key in keys
          ensures CheckRequired(key, value).Pass?
        {
          var i :| 0 <= i < |keys| && keys[i] == key;
        }
      }
    }
  }

  lemma {:induction false} PropertiesMeanConforms(schema: Value, value: Value)
    requires schema.Arr? && value.Arr?
    ensures match Get(schema.entries, StrKey("properties"))
      case Some(Arr(ps)) =>
        (FirstFailure(seq(|ps|, i requires 0 <= i < |ps| =>
            if Has(value.entries, ps[i].key) && ps[i].val.Arr?
            then Check(ps[i].val, Get(value.entries, ps[i].key).value)
            else Pass)).Pass?
         <==>
         forall i :: 0 <= i < |ps| && Has(value.entries, ps[i].key) && ps[i].val.Arr? ==>
           Conforms(ps[i].val, Get(value.entries, ps[i].key).value))
      case _ => true
    decreases schema, 0
  {
    match Get(schema.entries, StrKey("properties"))
    case Some(Arr(ps)) =>
      var os := seq(|ps|, i requires 0 <= i < |ps| =>
        if Has(value.entries, ps[i].key) && ps[i].val.Arr?
        then Check(ps[i].val, Get(value.entries, ps[i].key).value)
        else Pass);
      forall i | 0 <= i < |ps| && Has(value.entries, ps[i].key) && ps[i].val.Arr?
        ensures os[i].Pass? <==> Conforms(ps[i].val, Get(value.entries, ps[i].key).value)
      {
        CheckMeansConforms(ps[i].val, Get(value.entries, ps[i].key).value);
      }
      assert FirstFailure(os).Pass? <==> forall i :: 0 <= i < |os| ==> os[i].Pass?;
    case _ =>
  }

  lemma {:induction false} ItemsMeanConforms(schema: Value, value: Value)
    requires schema.Arr? && value.Arr?
    ensures match Get(schema.entries, StrKey("items"))
      case Some(Arr(it)) =>
        (FirstFailure(seq(|value.entries|, i requires 0 <= i < |value.entries| => Check(Arr(it), value.entries[i].val))).Pass?
         <==> forall i :: 0 <= i < |value.entries| ==> Conforms(Arr(it), value.entries[i].val))
      case _ => true
    decreases schema, 0
  {
    match Get(schema.entries, StrKey("items"))
    case Some(Arr(it)) =>
      var os := seq(|value.entries|, i requires 0 <= i < |value.entries| => Check(Arr(it), value.entries[i].val));
      forall i | 0 <= i < |value.entries|
        ensures os[i].Pass? <==> Conforms(Arr(it), value.entries[i].val)
      {
        CheckMeansConforms(Arr(it), value.entries[i].val);
      }
      assert FirstFailure(os).Pass? <==> forall i :: 0 <= i < |os| ==> os[i].Pass?;
    case _ =>
  }

  /**
   * For an object, the first missing required key in list order is reported,
   * before any property is looked at.
   */
  lemma FirstMissingReported(schema: Value, value: Value, j: nat)
    requires schema.Arr? && TypeOf(schema.entries) == Str("object") && value.Arr?
    requires var keys := Required(schema.entries);
      && j < |keys|
      && (forall i :: 0 <= i < j ==> CheckRequired(keys[i], value.entries).Pass?)
      && AsOffset(keys[j]).Some? && !Has(value.entries, AsOffset(keys[j]).value)
    ensures Check(schema, value) == Failed("missing [" + StringOf(Required(schema.entries)[j]) + "].")
  {
    var keys := Required(schema.entries);
    var os := seq(|keys|, i requires 0 <= i < |keys| => CheckRequired(keys[i], value.entries));
    var r := FirstFailure(os);
    assert os[j].Fail?;
    var i :| 0 <= i < |os| && os[i] == r && forall k :: 0 <= k < i ==> os[k].Pass?;
    assert i == j;
  }

  /** A schema without a known type accepts every value. */
  lemma UntypedAcceptsAll(schema: Value, value: Value)
    requires schema.Arr?
    requires TypeOf(schema.entries) !in {Str("object"), Str("array"), Str("string"), Str("number"), Str("boolean")}
    ensures Check(schema, value) == Pass
  {
  }

  /* --------------------------------------------- LarAI::validateStructuredOutput */

  /** The payload checked: `content`, else `raw`, decoded when it is JSON text. */
  function Payload(x: Externals, response: seq<Entry>): Value {
    var payload := Coalesce(response, StrKey("content"), Coalesce(response, StrKey("raw"), Null));
    match payload
    case Str(text) => (match x.jsonDecode(text) case Some(d) => d case None => payload)
    case _ => payload
  }

  /**
   * `validateStructuredOutput`: with an array `response_schema` option the
   * payload must conform; the response itself is never changed.
   */
  function StructuredOutput(x: Externals, response: seq<Entry>, options: seq<Entry>): (r: Result<seq<Entry>, Throwable>)
    ensures r.Success? ==> r.value == response
    ensures var schema := Coalesce(options, StrKey("response_schema"), Null);
      r.Failure? <==> (Truthy(schema) && schema.Arr? && Payload(x, response) != Null && !Conforms(schema, Payload(x, response)))
  {
    var schema := Coalesce(options, StrKey("response_schema"), Null);
    if !Truthy(schema) || !schema.Arr? then Success(response)
    else
      var payload := Payload(x, response);
      if payload == Null then Success(response)
      else
        CheckMeansConforms(schema, payload);
        match Check(schema, payload)
        case Pass => Success(response)
        case Fail(e) => Failure(e)
  }
}
