/** The in-memory part of the configuration manager: a key/value table with
    typed getters that fall back to defaults, the API-key lookup order, and the
    import/export filters.  Disk, keyring and environment are inputs. */
module Settings {
  import opened Json
  import opened Text

  const DefaultSegmentId := "UM5yp4"
  const DefaultMetricNames := ["Checkout Started", "Started Checkout"]
  const DefaultRevision := "2025-07-15"
  const DefaultTheme := "blue"
  const DefaultLogLevel := "INFO"
  const DefaultMaxRetries := 5
  const DefaultTimeout := 60
  const DefaultWindowWidth := 800
  const DefaultWindowHeight := 600

  type Table = map<string, Json>

  /** `self._config.get(key, default)`. */
  function GetOr(cfg: Table, key: string, default: Json): (v: Json)
    ensures key in cfg ==> v == cfg[key]
    ensures key !in cfg ==> v == default
  {
    if key in cfg then cfg[key] else default
  }

  function SegmentIdOf(cfg: Table): Json { GetOr(cfg, "segment_id", Str(DefaultSegmentId)) }
  function MetricNamesOf(cfg: Table): Json
  {
    GetOr(cfg, "metric_names", Arr([Str(DefaultMetricNames[0]), Str(DefaultMetricNames[1])]))
  }
  function RevisionOf(cfg: Table): Json { GetOr(cfg, "revision", Str(DefaultRevision)) }
  function WindowGeometryOf(cfg: Table): Json
  {
    GetOr(cfg, "window_geometry", Obj([("width", Int(DefaultWindowWidth)), ("height", Int(DefaultWindowHeight)),
                                       ("x", Null), ("y", Null)]))
  }
  function ThemeOf(cfg: Table): Json { GetOr(cfg, "theme", Str(DefaultTheme)) }
  function LogLevelOf(cfg: Table): Json { GetOr(cfg, "log_level", Str(DefaultLogLevel)) }
  function MaxRetriesOf(cfg: Table): Json { GetOr(cfg, "max_retries", Int(DefaultMaxRetries)) }
  function TimeoutOf(cfg: Table): Json { GetOr(cfg, "timeout", Int(DefaultTimeout)) }

  /** Every typed getter gives its default exactly when its key is absent. */
  predicate AllDefaults(cfg: Table)
  {
    && SegmentIdOf(cfg) == Str(DefaultSegmentId)
    && MetricNamesOf(cfg) == Arr([Str("Checkout Started"), Str("Started Checkout")])
    && RevisionOf(cfg) == Str(DefaultRevision)
    && ThemeOf(cfg) == Str(DefaultTheme)
    && LogLevelOf(cfg) == Str(DefaultLogLevel)
    && MaxRetriesOf(cfg) == Int(DefaultMaxRetries)
    && TimeoutOf(cfg) == Int(DefaultTimeout)
  }

  /** What the keyring answered to `get_password`. */
  datatype KeyringRead = KeyringUnavailable | KeyringFailed | KeyringHolds(password: Option<string>)

  predicate NonBlank(s: Option<string>)
  {
    s.Some? && s.value != "" && Strip(s.value) != ""
  }

  /** `get_api_key`: a non-blank session key (stripped), else a non-blank
      `KLAVIYO_API_KEY` (stripped), else a non-empty keyring password, else the
      table's `api_key` entry (None when absent). */
  function ApiKeyOf(cfg: Table, ephemeral: Option<string>, env: Option<string>, keyring: KeyringRead): (k: Json)
    ensures NonBlank(ephemeral) ==> k == Str(Strip(ephemeral.value))
    ensures !NonBlank(ephemeral) && NonBlank(env) ==> k == Str(Strip(env.value))
    ensures (!NonBlank(ephemeral) && !NonBlank(env) && keyring.KeyringHolds? && keyring.password.Some?
             && keyring.password.value != "") ==> k == Str(keyring.password.value)
    ensures (!NonBlank(ephemeral) && !NonBlank(env)
             && !(keyring.KeyringHolds? && keyring.password.Some? && keyring.password.value != ""))
            ==> k == GetOr(cfg, "api_key", Null)
  {
    if NonBlank(ephemeral) then Str(Strip(ephemeral.value))
    else if NonBlank(env) then Str(Strip(env.value))
    else if keyring.KeyringHolds? && keyring.password.Some? && keyring.password.value != "" then
      Str(keyring.password.value)
    else GetOr(cfg, "api_key", Null)
  }

  /** With no `api_key` entry in the table the key is None or a non-empty
      string.  One from the session or the environment comes back stripped and
      not blank; one from the keyring comes back as stored, which may be
      whitespace only, since `if api_key:` does not strip. */
  lemma ApiKeyNonEmptyUnlessTable(cfg: Table, ephemeral: Option<string>, env: Option<string>, keyring: KeyringRead)
    requires "api_key" !in cfg
    ensures var k := ApiKeyOf(cfg, ephemeral, env, keyring);
      && (k == Null || (k.Str? && k.s != ""))
      && (NonBlank(ephemeral) || NonBlank(env) ==> k.Str? && k.s != "" && Strip(k.s) == k.s)
  {
    if NonBlank(ephemeral) {
      StripIdempotent(ephemeral.value);
    } else if NonBlank(env) {
      StripIdempotent(env.value);
    }
  }

  /** A whitespace-only keyring password is returned as it is. */
  lemma BlankKeyringKeyReturned(cfg: Table)
    requires "api_key" !in cfg
    ensures ApiKeyOf(cfg, None, None, KeyringHolds(Some("   "))) == Str("   ")
  {
  }

  const ExcludedKeys: set<string> := {"has_api_key", "config_file", "version"}

  /** The table after `import_config(data)`: every entry of `data`, in order,
      except the excluded keys. */
  function Imported(cfg: Table, data: seq<(string, Json)>): Table
    decreases |data|
  {
    if data == [] then cfg
    else Imported(if data[0].0 in ExcludedKeys then cfg else cfg[data[0].0 := data[0].1], data[1..])
  }

  /** The index of the last entry of `data` with key `k`, if any. */
  function LastIndexOf(data: seq<(string, Json)>, k: string): (r: Option<nat>)
    ensures r.Some? ==> (r.value < |data| && data[r.value].0 == k
                         && forall j :: r.value < j < |data| ==> data[j].0 != k)
    ensures r.None? ==> forall j :: 0 <= j < |data| ==> data[j].0 != k
  {
    if data == [] then None
    else if data[|data| - 1].0 == k then Some(|data| - 1)
    else
      var r := LastIndexOf(data[..|data| - 1], k);
      r
  }

  /** `import_config`: an excluded key keeps its old value (or stays absent), any
      other key imported takes the value of its last occurrence in `data`, and a
      key not in `data` is unchanged. */
  lemma {:induction false} ImportedSpec(cfg: Table, data: seq<(string, Json)>, k: string)
    ensures k in ExcludedKeys ==> ((k in Imported(cfg, data) <==> k in cfg)
                                   && (k in cfg ==> Imported(cfg, data)[k] == cfg[k]))
    ensures k !in ExcludedKeys ==> match LastIndexOf(data, k)
      case Some(j) => k in Imported(cfg, data) && Imported(cfg, data)[k] == data[j].1
      case None => (k in Imported(cfg, data) <==> k in cfg) && (k in cfg ==> Imported(cfg, data)[k] == cfg[k])
    decreases |data|
  {
    if data != [] {
      var cfg' := if data[0].0 in ExcludedKeys then cfg else cfg[data[0].0 := data[0].1];
      ImportedSpec(cfg', data[1..], k);
      LastIndexShift(data, k);
    }
  }

  /** How the last occurrence of a key moves when the first entry is dropped. */
  lemma {:induction false} LastIndexShift(data: seq<(string, Json)>, k: string)
    requires data != []
    ensures match LastIndexOf(data[1..], k)
      case Some(j) => LastIndexOf(data, k) == Some(j + 1)
      case None => LastIndexOf(data, k) == if data[0].0 == k then Some(0) else None
  {
    if |data| > 1 && data[|data| - 1].0 != k {
      assert data[1..][..|data[1..]| - 1] == data[..|data| - 1][1..];
      LastIndexShift(data[..|data| - 1], k);
    }
  }

  /** The table `export_config` returns: a copy with the three metadata entries
      overwritten. */
  function Exported(cfg: Table, hasApiKey: bool, configFile: string): (out: Table)
    ensures out.Keys == cfg.Keys + ExcludedKeys
    ensures out["has_api_key"] == Bool(hasApiKey) && out["config_file"] == Str(configFile)
      && out["version"] == Str("1.0.0")
    ensures forall k :: k in cfg && k !in ExcludedKeys ==> out[k] == cfg[k]
  {
    cfg["has_api_key" := Bool(hasApiKey)]["config_file" := Str(configFile)]["version" := Str("1.0.0")]
  }

  /** Importing an export restores every non-metadata entry. */
  lemma ExportImportRestores(cfg: Table, order: seq<string>, hasApiKey: bool, configFile: string)
    requires forall k :: k in cfg && k !in ExcludedKeys ==> k in order
    requires forall i :: 0 <= i < |order| ==> order[i] in cfg.Keys + ExcludedKeys
    ensures forall k :: k !in ExcludedKeys ==>
      var data := seq(|order|, i requires 0 <= i < |order| => (order[i], Exported(cfg, hasApiKey, configFile)[order[i]]));
      (k in Imported(map[], data) <==> k in cfg) && (k in cfg ==> Imported(map[], data)[k] == cfg[k])
  {
    var ex := Exported(cfg, hasApiKey, configFile);
    var data := seq(|order|, i requires 0 <= i < |order| => (order[i], ex[order[i]]));
    forall k | k !in ExcludedKeys
      ensures (k in Imported(map[], data) <==> k in cfg) && (k in cfg ==> Imported(map[], data)[k] == cfg[k])
    {
      ImportedSpec(map[], data, k);
      if k in cfg {
        var i :| 0 <= i < |order| && order[i] == k;
        assert data[i].0 == k;
      }
    }
  }

  /** `ConfigManager`: the table of settings and the session-only API key. */
  class ConfigManager {
    var config: Table
    var ephemeralApiKey: Option<string>

    /** A manager over the table `load_config` read (empty when there was no file
        or it could not be parsed). */
    constructor (loaded: Table)
      ensures config == loaded && ephemeralApiKey == None
    {
      config := loaded;
      ephemeralApiKey := None;
    }

    /** `get(key, default)`. */
    function Get(key: string, default: Json): Json
      reads this
    {
      GetOr(config, key, default)
    }

    /** `set(key, value)`: a later `get(key)` returns `value`, every other key is
        unchanged. */
    method Set(key: string, value: Json)
      modifies this
      ensures config == old(config)[key := value] && ephemeralApiKey == old(ephemeralApiKey)
      ensures Get(key, Null) == value
      ensures forall k, d :: k != key ==> Get(k, d) == old(Get(k, d))
    {
      config := config[key := value];
    }

    function GetSegmentId(): Json reads this { SegmentIdOf(config) }
    function GetMetricNames(): Json reads this { MetricNamesOf(config) }
    function GetRevision(): Json reads this { RevisionOf(config) }
    function GetWindowGeometry(): Json reads this { WindowGeometryOf(config) }
    function GetTheme(): Json reads this { ThemeOf(config) }
    function GetLogLevel(): Json reads this { LogLevelOf(config) }
    function GetMaxRetries(): Json reads this { MaxRetriesOf(config) }
    function GetTimeout(): Json reads this { TimeoutOf(config) }

    /** `get_api_key`, given the environment variable and what the keyring holds. */
    function GetApiKey(env: Option<string>, keyring: KeyringRead): Json
      reads this
    {
      ApiKeyOf(config, ephemeralApiKey, env, keyring)
    }

    /** `set_api_key`: when the keyring accepts the key the table loses its
        `api_key` entry; otherwise the key is kept in the table. */
    method SetApiKey(apiKey: string, keyringStored: bool)
      modifies this
      ensures keyringStored ==> config == old(config) - {"api_key"}
      ensures !keyringStored ==> config == old(config)["api_key" := Str(apiKey)]
      ensures ephemeralApiKey == old(ephemeralApiKey)
    {
      if keyringStored {
        if "api_key" in config {
          config := config - {"api_key"};
        }
      } else {
        config := config["api_key" := Str(apiKey)];
      }
    }

    /** `set_api_key_ephemeral`. */
    method SetApiKeyEphemeral(apiKey: string)
      modifies this
      ensures ephemeralApiKey == Some(apiKey) && config == old(config)
    {
      ephemeralApiKey := Some(apiKey);
    }

    /** `delete_api_key`: no `api_key` entry is left in the table. */
    method DeleteApiKey()
      modifies this
      ensures config == old(config) - {"api_key"} && ephemeralApiKey == old(ephemeralApiKey)
      ensures "api_key" !in config
    {
      if "api_key" in config {
        config := config - {"api_key"};
      }
    }

    /** `export_config`: a copy of the table with the metadata entries set; the
        table itself is not touched. */
    function ExportConfig(env: Option<string>, keyring: KeyringRead, configFile: string): Table
      reads this
    {
      Exported(config, Truthy(GetApiKey(env, keyring)), configFile)
    }

    /** `import_config`: sets every entry of `data` whose key is not excluded. */
    method ImportConfig(data: seq<(string, Json)>)
      modifies this
      ensures config == Imported(old(config), data) && ephemeralApiKey == old(ephemeralApiKey)
    {
      var i := 0;
      while i < |data|
        invariant 0 <= i <= |data|
        invariant Imported(old(config), data) == Imported(config, data[i..])
        invariant ephemeralApiKey == old(ephemeralApiKey)
      {
        var (key, value) := data[i];
        if key !in ExcludedKeys {
          config := config[key := value];
        }
        assert data[i..][1..] == data[i + 1..];
        i := i + 1;
      }
    }

    /** `reset_to_defaults`: the table is emptied, so every typed getter returns
        its default. */
    method ResetToDefaults()
      modifies this
      ensures config == map[] && ephemeralApiKey == old(ephemeralApiKey)
      ensures AllDefaults(config)
    {
      config := map[];
    }
  }
}
