/**
 * The application's settings store: a dictionary of JSON values that starts
 * from built-in defaults, is overlaid by the settings file, is changed in
 * place key by key, and is written back to the file after each change.
 */
module Config {
  import opened Wrappers

  /** A JSON value as `json.load` produces it for this file. */
  datatype Value = VBool(b: bool) | VInt(i: int) | VReal(r: real) | VStr(s: string) | VNull

  /** Python truthiness of a value (`if value:`). */
  predicate Truthy(v: Value)
  {
    match v
    case VBool(b) => b
    case VInt(i) => i != 0
    case VReal(r) => r != 0.0
    case VStr(s) => s != []
    case VNull => false
  }

  /** The name of a value's Python type, as an exception message shows it. */
  function TypeName(v: Value): string
  {
    match v
    case VBool(_) => "bool"
    case VInt(_) => "int"
    case VReal(_) => "float"
    case VStr(_) => "str"
    case VNull => "NoneType"
  }

  /** The built-in defaults, key for key. */
  const DEFAULTS: map<string, Value> := map[
    "MIN_CHANGE_PERCENT" := VReal(100.0),
    "LIQUIDITY_THRESHOLD_USDT" := VInt(1000000),
    "MAX_ANALYZE_SYMBOLS" := VInt(500),
    "CACHE_EXPIRY" := VInt(3600),
    "REQUEST_DELAY" := VReal(0.15),
    "schedule_enabled" := VBool(false),
    "schedule_interval" := VInt(7200),
    "notify_on_change" := VBool(true),
    "notify_on_complete" := VBool(true),
    "auto_start" := VBool(false),
    "keep_screen_on" := VBool(false),
    "wifi_only" := VBool(true),
    "serverchan_enabled" := VBool(true),
    "serverchan_key" := VStr(""),
    "serverchan_title" := VStr("币安分析完成"),
    "serverchan_content" := VStr("找到 {count} 个符合条件的交易对"),
    "auto_minimize" := VBool(false),
    "minimize_delay" := VReal(0.5)
  ]

  /** The keys the analyzer reads, in the order the projection lists them. */
  const ANALYZER_KEYS: seq<string> :=
    ["MIN_CHANGE_PERCENT", "LIQUIDITY_THRESHOLD_USDT", "MAX_ANALYZE_SYMBOLS", "CACHE_EXPIRY", "REQUEST_DELAY"]

  /** What is on disk: no file, a file that does not parse as a JSON object, or an object. */
  datatype ConfigFile = Missing | Unreadable | Loaded(entries: map<string, Value>)

  /** The configuration a file yields: the defaults, overlaid by every key the file holds. */
  function LoadConfig(file: ConfigFile): (c: map<string, Value>)
    ensures DEFAULTS.Keys <= c.Keys
    ensures file.Loaded? ==> c.Keys == DEFAULTS.Keys + file.entries.Keys
    ensures file.Loaded? ==> forall k :: k in file.entries ==> c[k] == file.entries[k]
    ensures file.Loaded? ==> forall k :: k in DEFAULTS && k !in file.entries ==> c[k] == DEFAULTS[k]
    ensures !file.Loaded? ==> c == DEFAULTS
  {
    if file.Loaded? then DEFAULTS + file.entries else DEFAULTS
  }

  /** The defaults hold the thresholds the module tests assert. */
  lemma DefaultThresholds()
    ensures LoadConfig(Missing)["MIN_CHANGE_PERCENT"] == VReal(100.0)
    ensures LoadConfig(Missing)["LIQUIDITY_THRESHOLD_USDT"] == VInt(1000000)
    ensures LoadConfig(Missing)["schedule_interval"] == VInt(7200)
  {
  }

  /** Writing a configuration and loading it back yields the same configuration. */
  lemma SaveLoadRoundTrip(c: map<string, Value>)
    requires DEFAULTS.Keys <= c.Keys
    ensures LoadConfig(Loaded(c)) == c
  {
    assert (DEFAULTS + c).Keys == c.Keys;
  }

  /** The loop of `set_batch`: `base[key] = value` for each pair of `updates`, in any order. */
  method Overlay(base: map<string, Value>, updates: map<string, Value>) returns (c: map<string, Value>)
    ensures c == base + updates
    ensures c.Keys == base.Keys + updates.Keys
    ensures forall k :: k in c ==> c[k] == if k in updates then updates[k] else base[k]
  {
    c := base;
    var rest := updates.Keys;
    while rest != {}
      invariant rest <= updates.Keys
      invariant c.Keys == base.Keys + (updates.Keys - rest)
      invariant forall k :: k in c ==> c[k] == if k in updates && k !in rest then updates[k] else base[k]
      decreases rest
    {
      var key :| key in rest;
      c := c[key := updates[key]];
      rest := rest - {key};
    }
    assert c == base + updates;
  }

  class ConfigManager {
    /** The in-memory dictionary. */
    var config: map<string, Value>
    /** The settings file, as last written. */
    var file: ConfigFile

    /** Every default key is present: loading starts from the defaults and nothing removes a key. */
    ghost predicate Valid()
      reads this
    {
      DEFAULTS.Keys <= config.Keys
    }

    constructor (onDisk: ConfigFile)
      ensures Valid()
      ensures config == LoadConfig(onDisk) && file == onDisk
    {
      config := LoadConfig(onDisk);
      file := onDisk;
    }

    /** Writes the whole dictionary; `writeOk` is whether the file system accepted it. */
    method SaveConfig(writeOk: bool) returns (ok: bool)
      modifies this`file
      ensures ok == writeOk
      ensures file == if writeOk then Loaded(config) else old(file)
    {
      if writeOk {
        file := Loaded(config);
      }
      ok := writeOk;
    }

    /** The stored value, or `default` when the key is absent. */
    method Get(key: string, default: Value) returns (v: Value)
      ensures key in config ==> v == config[key]
      ensures key !in config ==> v == default
    {
      v := if key in config then config[key] else default;
    }

    /** Sets one key; the others keep their values. Saves when `autoSave`. */
    method Set(key: string, value: Value, autoSave: bool, writeOk: bool) returns (ok: bool)
      requires Valid()
      modifies this
      ensures Valid()
      ensures config == old(config)[key := value]
      ensures forall k :: k in old(config) && k != key ==> config[k] == old(config)[k]
      ensures ok == (!autoSave || writeOk)
      ensures file == if autoSave && writeOk then Loaded(config) else old(file)
    {
      config := config[key := value];
      ok := true;
      if autoSave {
        ok := SaveConfig(writeOk);
      }
    }

    /** Replaces the dictionary by a copy of the defaults and saves it. */
    method ResetToDefault(writeOk: bool) returns (ok: bool)
      modifies this
      ensures Valid()
      ensures config == DEFAULTS
      ensures ok == writeOk
      ensures file == if writeOk then Loaded(DEFAULTS) else old(file)
    {
      config := DEFAULTS;
      ok := SaveConfig(writeOk);
    }

    /** Applies every pair of `updates`, then saves once; keys not in `updates` are unchanged. */
    method SetBatch(updates: map<string, Value>, writeOk: bool) returns (ok: bool)
      requires Valid()
      modifies this
      ensures Valid()
      ensures config == old(config) + updates
      ensures forall k :: k in updates ==> config[k] == updates[k]
      ensures forall k :: k in old(config) && k !in updates ==> config[k] == old(config)[k]
      ensures ok == writeOk
      ensures file == if writeOk then Loaded(config) else old(file)
    {
      config := Overlay(config, updates);
      ok := SaveConfig(writeOk);
    }

    /** The projection onto the five analyzer keys, with their current values. */
    function AnalyzerConfig(): (m: map<string, Value>)
      reads this
      requires Valid()
      ensures m.Keys == set k | k in ANALYZER_KEYS
      ensures forall k :: k in m ==> m[k] == config[k]
    {
      map k | k in ANALYZER_KEYS :: config[k]
    }
  }
}
