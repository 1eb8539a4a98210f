/**
 * Reading the application configuration, `Config::get('larai.x.y', $default)`.
 * The configuration is one nested PHP array; a dotted key is followed segment
 * by segment, and only a missing segment yields the default (a present null
 * stays null).
 */
module Settings {
  import opened Wrappers
  import opened Php
  import opened PhpStrings

  function ConfigPath(config: Value, path: seq<string>, default: Value): (r: Value)
    ensures path == [] ==> r == config
    ensures path != [] && !config.Arr? ==> r == default
    decreases |path|
  {
    if path == [] then config
    else match config
      case Arr(es) =>
        if Has(es, StrKey(path[0])) then ConfigPath(Get(es, StrKey(path[0])).value, path[1..], default)
        else default
      case _ => default
  }

  /** `Config::get($key, $default)`. */
  function ConfigGet(config: Value, key: string, default: Value): Value {
    ConfigPath(config, Split(key, '.'), default)
  }

  /** A path that is present reads its value whatever the default. */
  lemma {:induction false} ConfigPathPresent(config: Value, path: seq<string>, d1: Value, d2: Value)
    requires Reaches(config, path)
    ensures ConfigPath(config, path, d1) == ConfigPath(config, path, d2)
    decreases |path|
  {
    if path != [] {
      ConfigPathPresent(Get(config.entries, StrKey(path[0])).value, path[1..], d1, d2);
    }
  }

  /** Every segment of `path` exists. */
  predicate Reaches(config: Value, path: seq<string>)
    decreases |path|
  {
    path == [] ||
    (config.Arr? && Has(config.entries, StrKey(path[0]))
     && Reaches(Get(config.entries, StrKey(path[0])).value, path[1..]))
  }

  /** A path that is not present reads the default. */
  lemma {:induction false} ConfigPathAbsent(config: Value, path: seq<string>, d: Value)
    requires !Reaches(config, path)
    ensures ConfigPath(config, path, d) == d
    decreases |path|
  {
    if path != [] && config.Arr? && Has(config.entries, StrKey(path[0])) {
      ConfigPathAbsent(Get(config.entries, StrKey(path[0])).value, path[1..], d);
    }
  }
}
