/**
 * Configuration of the GPU server: the YAML file is loaded once into a module
 * global, checked for six required (section, field) pairs, and read through getters.
 *
 * The parsed file is a `Value`; `yaml.safe_load` itself is outside the model, so the
 * file system is given as a map from path to the outcome of parsing that file.
 */
module Config {
  import opened Wrappers
  import opened Text
  import opened Python

  /** The pairs `_validate_config` checks, in the order it checks them. */
  const RequiredFields: seq<(string, string)> := [
    ("server", "node_id"),
    ("security", "internal_auth_token"),
    ("asset_service", "callback_url"),
    ("asset_service", "internal_auth_token"),
    ("model", "model_type"),
    ("model", "model_version")
  ]

  const MissingPrefix := "Missing required config fields: "

  /**
   * What one iteration of the validation loop appends for (section, field): the bare
   * section name when the section is absent, "section.field" when only the field is,
   * nothing otherwise; or the exception a membership test or subscript raises.
   */
  function MissingEntry(config: Value, section: string, field: string): Result<seq<string>, Exception> {
    var hasSection :- Contains(config, section);
    if !hasSection then Ok([section])
    else
      var sub :- Subscript(config, section);
      var hasField :- Contains(sub, field);
      if !hasField then Ok([section + "." + field]) else Ok([])
  }

  /** The `missing` list after the loop has run over `pairs`, in order. */
  function MissingOf(config: Value, pairs: seq<(string, string)>): Result<seq<string>, Exception>
    decreases |pairs|
  {
    if pairs == [] then Ok([])
    else
      var init :- MissingOf(config, pairs[..|pairs| - 1]);
      var last :- MissingEntry(config, pairs[|pairs| - 1].0, pairs[|pairs| - 1].1);
      Ok(init + last)
  }

  /** What `_validate_config(config)` does: return, or raise. */
  function ValidationOutcome(config: Value): Result<(), Exception> {
    var missing :- MissingOf(config, RequiredFields);
    if missing != [] then Err(Exception("ValueError", MissingPrefix + Join(missing, ", ")))
    else Ok(())
  }

  /** One more iteration of the loop appends the entry for the next pair. */
  lemma AppendEntry(config: Value, pairs: seq<(string, string)>, k: nat, missing: seq<string>, entry: seq<string>)
    requires 0 < k <= |pairs|
    requires MissingOf(config, pairs[..k - 1]) == Ok(missing)
    requires MissingEntry(config, pairs[k - 1].0, pairs[k - 1].1) == Ok(entry)
    ensures MissingOf(config, pairs[..k]) == Ok(missing + entry)
  {
    assert pairs[..k][..k - 1] == pairs[..k - 1];
  }

  /** An iteration that raises makes the loop over the longer prefix raise the same exception. */
  lemma RaiseEntry(config: Value, pairs: seq<(string, string)>, k: nat, missing: seq<string>, e: Exception)
    requires 0 < k <= |pairs|
    requires MissingOf(config, pairs[..k - 1]) == Ok(missing)
    requires MissingEntry(config, pairs[k - 1].0, pairs[k - 1].1) == Err(e)
    ensures MissingOf(config, pairs[..k]) == Err(e)
  {
    assert pairs[..k][..k - 1] == pairs[..k - 1];
  }

  /** Once a prefix of the pairs raises, the whole loop raises the same exception. */
  lemma {:induction false} MissingOfPrefixRaises(config: Value, pairs: seq<(string, string)>, k: nat)
    requires k <= |pairs| && MissingOf(config, pairs[..k]).Err?
    ensures MissingOf(config, pairs) == MissingOf(config, pairs[..k])
    decreases |pairs| - k
  {
    if k < |pairs| {
      var init := pairs[..|pairs| - 1];
      assert init[..k] == pairs[..k];
      MissingOfPrefixRaises(config, init, k);
      assert pairs[..|pairs|] == pairs;
    } else {
      assert pairs[..k] == pairs;
    }
  }

  /** `_validate_config`: walks the required pairs, collecting what is missing. */
  method ValidateConfig(config: Value) returns (r: Result<(), Exception>)
    ensures r == ValidationOutcome(config)
  {
    var missing: seq<string> := [];
    var i := 0;
    while i < |RequiredFields|
      invariant 0 <= i <= |RequiredFields|
      invariant MissingOf(config, RequiredFields[..i]) == Ok(missing)
    {
      var section := RequiredFields[i].0;
      var field := RequiredFields[i].1;
      var hasSection := Contains(config, section);
      if hasSection.Err? {
        RaiseEntry(config, RequiredFields, i + 1, missing, hasSection.error);
        MissingOfPrefixRaises(config, RequiredFields, i + 1);
        return Err(hasSection.error);
      }
      if !hasSection.value {
        AppendEntry(config, RequiredFields, i + 1, missing, [section]);
        missing := missing + [section];
      } else {
        var sub := Subscript(config, section);
        if sub.Err? {
          RaiseEntry(config, RequiredFields, i + 1, missing, sub.error);
          MissingOfPrefixRaises(config, RequiredFields, i + 1);
          return Err(sub.error);
        }
        var hasField := Contains(sub.value, field);
        if hasField.Err? {
          RaiseEntry(config, RequiredFields, i + 1, missing, hasField.error);
          MissingOfPrefixRaises(config, RequiredFields, i + 1);
          return Err(hasField.error);
        }
        if !hasField.value {
          AppendEntry(config, RequiredFields, i + 1, missing, [section + "." + field]);
          missing := missing + [section + "." + field];
        } else {
          AppendEntry(config, RequiredFields, i + 1, missing, []);
          assert missing + [] == missing;
        }
      }
      i := i + 1;
    }
    assert RequiredFields[..i] == RequiredFields;
    if missing != [] {
      return Err(Exception("ValueError", MissingPrefix + Join(missing, ", ")));
    }
    return Ok(());
  }

  /** The entries an empty mapping produces: every section, once per pair. */
  const EmptyMissing: seq<string> := ["server", "security", "asset_service", "asset_service", "model", "model"]

  /**
   * An empty mapping misses every section, once per pair: "asset_service" and "model"
   * each appear twice.
   */
  lemma EmptyConfigMissesEverySection()
    ensures MissingOf(VDict(map[]), RequiredFields) == Ok(EmptyMissing)
  {
    var c := VDict(map[]);
    var r := RequiredFields;
    assert r[..0] == [];
    var m: seq<string> := [];
    for k := 0 to 6
      invariant MissingOf(c, r[..k]) == Ok(m)
      invariant m == EmptyMissing[..k]
    {
      assert MissingEntry(c, r[k].0, r[k].1) == Ok([r[k].0]);
      AppendEntry(c, r, k + 1, m, [r[k].0]);
      m := m + [r[k].0];
    }
    assert m == EmptyMissing;
    assert r[..6] == r;
  }

  /** ... and so validating it raises ValueError naming them joined by ", ". */
  lemma EmptyConfigRaises()
    ensures ValidationOutcome(VDict(map[]))
         == Err(Exception("ValueError", MissingPrefix + Join(EmptyMissing, ", ")))
  {
    EmptyConfigMissesEverySection();
  }

  /** Validating the None an empty document parses to raises at the first membership test. */
  lemma NoneFailsValidation()
    ensures ValidationOutcome(VNone) == Err(NotIterable(VNone))
  {
    assert RequiredFields[..0] == [];
    RaiseEntry(VNone, RequiredFields, 1, [], NotIterable(VNone));
    MissingOfPrefixRaises(VNone, RequiredFields, 1);
  }

  /** A mapping whose sections are mappings holding every required field. */
  predicate Complete(config: Value) {
    && config.VDict?
    && forall k :: 0 <= k < |RequiredFields| ==>
         && RequiredFields[k].0 in config.entries
         && config.entries[RequiredFields[k].0].VDict?
         && RequiredFields[k].1 in config.entries[RequiredFields[k].0].entries
  }

  lemma {:induction false} CompletePrefixHasNothingMissing(config: Value, n: nat)
    requires Complete(config) && n <= |RequiredFields|
    ensures MissingOf(config, RequiredFields[..n]) == Ok([])
  {
    if n > 0 {
      CompletePrefixHasNothingMissing(config, n - 1);
      var p := RequiredFields[n - 1];
      assert p.0 in config.entries && config.entries[p.0].VDict? && p.1 in config.entries[p.0].entries;
      var none: seq<string> := [];
      AppendEntry(config, RequiredFields, n, none, none);
      assert none + none == none;
    } else {
      assert RequiredFields[..0] == [];
    }
  }

  /** A configuration with every required field validates. */
  lemma CompleteConfigValidates(config: Value)
    requires Complete(config)
    ensures ValidationOutcome(config) == Ok(())
  {
    CompletePrefixHasNothingMissing(config, |RequiredFields|);
    assert RequiredFields[..|RequiredFields|] == RequiredFields;
  }

  /** An empty `missing` list means every iteration appended nothing. */
  lemma {:induction false} NothingMissingMeansNoEntry(config: Value, pairs: seq<(string, string)>)
    requires MissingOf(config, pairs) == Ok([])
    ensures forall k :: 0 <= k < |pairs| ==> MissingEntry(config, pairs[k].0, pairs[k].1) == Ok([])
    decreases |pairs|
  {
    if pairs != [] {
      var n := |pairs|;
      var init := MissingOf(config, pairs[..n - 1]);
      var last := MissingEntry(config, pairs[n - 1].0, pairs[n - 1].1);
      assert init.Ok? && last.Ok? && init.value + last.value == [];
      assert |init.value| == 0 && |last.value| == 0;
      NothingMissingMeansNoEntry(config, pairs[..n - 1]);
      forall k | 0 <= k < n - 1
        ensures MissingEntry(config, pairs[k].0, pairs[k].1) == Ok([])
      {
        assert pairs[..n - 1][k] == pairs[k];
      }
    }
  }

  /**
   * Conversely, a mapping whose required sections are mappings validates only when
   * it has every required field. (A section that is a string passes the membership
   * test by substring, so the sections must be mappings for this direction.)
   */
  lemma ValidatesOnlyWhenComplete(config: Value)
    requires config.VDict?
    requires forall k :: 0 <= k < |RequiredFields| && RequiredFields[k].0 in config.entries ==>
               config.entries[RequiredFields[k].0].VDict?
    requires ValidationOutcome(config).Ok?
    ensures Complete(config)
  {
    assert MissingOf(config, RequiredFields) == Ok([]);
    NothingMissingMeansNoEntry(config, RequiredFields);
    forall k | 0 <= k < |RequiredFields|
      ensures RequiredFields[k].0 in config.entries
      ensures config.entries[RequiredFields[k].0].VDict?
      ensures RequiredFields[k].1 in config.entries[RequiredFields[k].0].entries
    {
      assert MissingEntry(config, RequiredFields[k].0, RequiredFields[k].1) == Ok([]);
    }
  }

  // ---------------------------------------------------------------- getters

  /** `get_config()[section][field]`. */
  function Lookup(config: Value, section: string, field: string): (r: Result<Value, Exception>)
    ensures r.Ok? <==> config.VDict? && section in config.entries && config.entries[section].VDict?
                       && field in config.entries[section].entries
    ensures r.Ok? ==> r.value == config.entries[section].entries[field]
    ensures config.VDict? && section !in config.entries ==> r == Err(KeyError(section))
    ensures (config.VDict? && section in config.entries && config.entries[section].VDict?
             && field !in config.entries[section].entries) ==> r == Err(KeyError(field))
  {
    var sub :- Subscript(config, section);
    Subscript(sub, field)
  }

  function NodeId(config: Value): Result<Value, Exception> { Lookup(config, "server", "node_id") }
  function InternalAuthToken(config: Value): Result<Value, Exception> { Lookup(config, "security", "internal_auth_token") }
  function AssetCallbackUrl(config: Value): Result<Value, Exception> { Lookup(config, "asset_service", "callback_url") }
  function AssetAuthToken(config: Value): Result<Value, Exception> { Lookup(config, "asset_service", "internal_auth_token") }
  function AssetTimeout(config: Value): Result<Value, Exception> { Lookup(config, "asset_service", "timeout") }
  function AssetRetries(config: Value): Result<Value, Exception> { Lookup(config, "asset_service", "retries") }
  function ModelType(config: Value): Result<Value, Exception> { Lookup(config, "model", "model_type") }
  function ModelVersion(config: Value): Result<Value, Exception> { Lookup(config, "model", "model_version") }
  function ModelDevice(config: Value): Result<Value, Exception> { Lookup(config, "model", "device") }

  /**
   * `get_config().get("logging", {}).get("level", "INFO")`: the configured level,
   * "INFO" when the section or its level is absent, and AttributeError when the
   * document or its logging section is not a mapping.
   */
  function LogLevel(config: Value): (r: Result<Value, Exception>)
    ensures !config.VDict? ==> r == Err(NoAttribute(config, "get"))
    ensures config.VDict? && "logging" !in config.entries ==> r == Ok(VStr("INFO"))
    ensures config.VDict? && "logging" in config.entries && !config.entries["logging"].VDict? ==>
              r == Err(NoAttribute(config.entries["logging"], "get"))
    ensures config.VDict? && "logging" in config.entries && config.entries["logging"].VDict? ==>
              var logging := config.entries["logging"].entries;
              r == Ok(if "level" in logging then logging["level"] else VStr("INFO"))
  {
    var logging :- Get(config, "logging", VDict(map[]));
    Get(logging, "level", VStr("INFO"))
  }

  /** Without a logging section, or without its level, the level is "INFO". */
  lemma LogLevelDefault(config: Value)
    requires config.VDict?
    requires "logging" !in config.entries
          || (config.entries["logging"].VDict? && "level" !in config.entries["logging"].entries)
    ensures LogLevel(config) == Ok(VStr("INFO"))
  {
  }

  /** A present level is returned as written, whatever else the logging section holds. */
  lemma LogLevelPresent(config: Value)
    requires config.VDict? && "logging" in config.entries
    requires config.entries["logging"].VDict? && "level" in config.entries["logging"].entries
    ensures LogLevel(config) == Ok(config.entries["logging"].entries["level"])
  {
  }

  /** The required fields of a complete configuration can all be read. */
  lemma CompleteConfigGettersSucceed(config: Value)
    requires Complete(config)
    ensures NodeId(config).Ok? && InternalAuthToken(config).Ok?
    ensures AssetCallbackUrl(config).Ok? && AssetAuthToken(config).Ok?
    ensures ModelType(config).Ok? && ModelVersion(config).Ok?
  {
    assert RequiredFields[0] == ("server", "node_id");
    assert RequiredFields[1] == ("security", "internal_auth_token");
    assert RequiredFields[2] == ("asset_service", "callback_url");
    assert RequiredFields[3] == ("asset_service", "internal_auth_token");
    assert RequiredFields[4] == ("model", "model_type");
    assert RequiredFields[5] == ("model", "model_version");
  }

  /** The smallest configuration with every required field. */
  const Minimal: Value := VDict(map[
    "server" := VDict(map["node_id" := VStr("n1")]),
    "security" := VDict(map["internal_auth_token" := VStr("t")]),
    "asset_service" := VDict(map["callback_url" := VStr("u"), "internal_auth_token" := VStr("a")]),
    "model" := VDict(map["model_type" := VStr("m"), "model_version" := VStr("v")])
  ])

  /**
   * Validation does not require asset_service.timeout, asset_service.retries or
   * model.device: a configuration can validate and still make their getters raise.
   */
  lemma ValidatedConfigMayLackOptionalFields()
    ensures ValidationOutcome(Minimal) == Ok(())
    ensures AssetTimeout(Minimal) == Err(KeyError("timeout"))
    ensures AssetRetries(Minimal) == Err(KeyError("retries"))
    ensures ModelDevice(Minimal) == Err(KeyError("device"))
  {
    CompleteConfigValidates(Minimal);
  }

  // --------------------------------------------------------------- loading

  /**
   * What `load_config` does after it has stored the parsed file: validate it, then
   * read the node id for the log line; either can raise.
   */
  function LoadOutcome(config: Value): Result<Value, Exception> {
    var _ :- ValidationOutcome(config);
    var _ :- NodeId(config);
    Ok(config)
  }

  /**
   * What `_config` holds after the parsed document is assigned to it: `None` is the
   * empty cache, so a document that parses to None is not kept.
   */
  function Cacheable(parsed: Value): (r: Option<Value>)
    ensures r.None? <==> parsed.VNone?
    ensures r.Some? ==> r.value == parsed
  {
    if parsed.VNone? then None else Some(parsed)
  }

  /** The module global `_config` and the functions that fill and read it. */
  class ConfigStore {
    var cached: Option<Value>
    /** `configs/config.yaml` under the server directory. */
    const defaultPath: string

    constructor(defaultPath: string)
      ensures cached == None && this.defaultPath == defaultPath
    {
      cached := None;
      this.defaultPath := defaultPath;
    }

    /**
     * `load_config(path)`. `files` maps each existing path to the outcome of parsing it.
     * The parsed value is cached before it is validated; an empty document parses to
     * None, which leaves the cache empty.
     */
    method LoadConfig(path: Option<string>, files: map<string, Result<Value, Exception>>)
      returns (r: Result<Value, Exception>)
      modifies this
      ensures old(cached).Some? ==> r == Ok(old(cached).value) && cached == old(cached)
      ensures old(cached).None? && path.GetOr(defaultPath) !in files ==>
                r == Err(Exception("FileNotFoundError", "Config file not found: " + path.GetOr(defaultPath)))
                && cached == None
      ensures old(cached).None? && path.GetOr(defaultPath) in files && files[path.GetOr(defaultPath)].Err? ==>
                r == files[path.GetOr(defaultPath)] && cached == None
      ensures old(cached).None? && path.GetOr(defaultPath) in files && files[path.GetOr(defaultPath)].Ok? ==>
                cached == Cacheable(files[path.GetOr(defaultPath)].value)
                && r == LoadOutcome(files[path.GetOr(defaultPath)].value)
    {
      if cached.Some? {
        return Ok(cached.value);
      }
      var p := if path.Some? then path.value else defaultPath;
      if p !in files {
        return Err(Exception("FileNotFoundError", "Config file not found: " + p));
      }
      var parsed := files[p];
      if parsed.Err? {
        return Err(parsed.error);
      }
      cached := Cacheable(parsed.value);
      var valid := ValidateConfig(parsed.value);
      if valid.Err? {
        return Err(valid.error);
      }
      var node := NodeId(parsed.value);
      if node.Err? {
        return Err(node.error);
      }
      return Ok(parsed.value);
    }

    /** `get_config()`: the cached value, loading from the default path on first use. */
    method GetConfig(files: map<string, Result<Value, Exception>>) returns (r: Result<Value, Exception>)
      modifies this
      ensures old(cached).Some? ==> r == Ok(old(cached).value) && cached == old(cached)
      ensures old(cached).None? && defaultPath !in files ==>
                r == Err(Exception("FileNotFoundError", "Config file not found: " + defaultPath)) && cached == None
      ensures old(cached).None? && defaultPath in files && files[defaultPath].Err? ==>
                r == files[defaultPath] && cached == None
      ensures old(cached).None? && defaultPath in files && files[defaultPath].Ok? ==>
                cached == Cacheable(files[defaultPath].value) && r == LoadOutcome(files[defaultPath].value)
    {
      if cached.None? {
        r := LoadConfig(None, files);
      } else {
        r := Ok(cached.value);
      }
    }
  }

  /**
   * A configuration that fails validation stays cached: the first load raises
   * ValueError, and later loads and `get_config` return it unvalidated, without
   * reading any file.
   */
  method InvalidConfigStaysCached() returns (first: Result<Value, Exception>,
                                             second: Result<Value, Exception>,
                                             third: Result<Value, Exception>)
    ensures first.Err? && first.error.kind == "ValueError"
    ensures second == Ok(VDict(map[])) && third == Ok(VDict(map[]))
  {
    EmptyConfigRaises();
    var store := new ConfigStore("configs/config.yaml");
    first := store.LoadConfig(None, map["configs/config.yaml" := Ok(VDict(map[]))]);
    second := store.LoadConfig(Some("elsewhere.yaml"), map[]);
    third := store.GetConfig(map[]);
  }

  /**
   * An empty configuration file is not cached: the first load raises TypeError from
   * validating None, and the next load reads the file again.
   */
  method EmptyFileIsReread() returns (first: Result<Value, Exception>, second: Result<Value, Exception>)
    ensures first == Err(NotIterable(VNone))
    ensures second == Ok(Minimal)
  {
    CompleteConfigValidates(Minimal);
    NoneFailsValidation();
    var store := new ConfigStore("configs/config.yaml");
    first := store.LoadConfig(None, map["configs/config.yaml" := Ok(VNone)]);
    second := store.LoadConfig(None, map["configs/config.yaml" := Ok(Minimal)]);
  }
}
