/**
 * The helpers every vendor provider shares, read from the provider's own
 * configuration array.
 */
module Providers {
  import opened Wrappers
  import opened Php
  import opened PhpStrings

  /** `baseUrl`: `base_url` as a string, every trailing '/' removed; '' when it is missing. */
  function BaseUrl(config: seq<Entry>): (r: string)
    ensures r == [] || r[|r| - 1] != '/'
    ensures var s := StringOf(Coalesce(config, StrKey("base_url"), Str("")));
      r <= s && forall i :: |r| <= i < |s| ==> s[i] == '/'
  {
    TrimRightChar(StringOf(Coalesce(config, StrKey("base_url"), Str(""))), '/')
  }

  /** A URL that ends in no '/' is kept as it is, and trimming twice is trimming once. */
  lemma BaseUrlKeeps(config: seq<Entry>, url: string)
    requires Get(config, StrKey("base_url")) == Some(Str(url))
    ensures url == [] || url[|url| - 1] != '/' ==> BaseUrl(config) == url
    ensures TrimRightChar(BaseUrl(config), '/') == BaseUrl(config)
  {
  }

  const MissingKey := "LarAI API key is missing."

  /** `ensureApiKey($keyName)`: the key as a string, or an exception when it is missing or empty. */
  function EnsureApiKey(config: seq<Entry>, keyName: string): (r: Result<string, Throwable>)
    ensures r.Failure? <==> StringOf(Coalesce(config, StrKey(keyName), Str(""))) == ""
    ensures r.Failure? ==> r.error == LarAIException(MissingKey)
    ensures r.Success? ==> r.value == StringOf(Get(config, StrKey(keyName)).value) && r.value != ""
  {
    var apiKey := StringOf(Coalesce(config, StrKey(keyName), Str("")));
    if apiKey == "" then Failure(LarAIException(MissingKey)) else Success(apiKey)
  }

  /** A stored non-empty string key is returned unchanged; a missing key always fails. */
  lemma EnsureApiKeyCases(config: seq<Entry>, keyName: string)
    ensures !Has(config, StrKey(keyName)) ==> EnsureApiKey(config, keyName).Failure?
    ensures forall s :: Get(config, StrKey(keyName)) == Some(Str(s)) && s != "" ==> EnsureApiKey(config, keyName) == Success(s)
  {
  }

  /**
   * `extractUsage`: `payload['usage'] ?? []`; a value that is not an array
   * fails the declared array return type.
   */
  function ExtractUsage(payload: seq<Entry>): (r: Result<seq<Entry>, Throwable>)
    ensures Get(payload, StrKey("usage")).None? || Get(payload, StrKey("usage")) == Some(Null) ==> r == Success([])
    ensures forall es :: Get(payload, StrKey("usage")) == Some(Arr(es)) ==> r == Success(es)
    ensures r.Failure? <==> Get(payload, StrKey("usage")).Some? && !Get(payload, StrKey("usage")).value.Arr? && Get(payload, StrKey("usage")) != Some(Null)
  {
    match Coalesce(payload, StrKey("usage"), Arr([]))
    case Arr(es) => Success(es)
    case _ => Failure(TypeError("Return value must be of type array"))
  }
}
