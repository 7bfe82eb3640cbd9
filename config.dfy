/**
 * The fuga configuration store: a process-wide map from key to value
 * (`None` where YAML holds `null`), loaded once at start-up from
 * `<home>/config.yml`, read through environment-variable overrides and
 * rewritten whole on every write.
 */
module Config {
  import opened Wrappers
  import Strings
  import Paths

  /** The process environment. */
  type Env = map<string, string>

  /** The in-memory configuration. */
  type ConfigMap = map<string, Option<string>>

  /** What `config.yml` holds: nothing, a map, or text whose YAML load raises `ValueError`. */
  datatype ConfigFile = Missing | Holds(contents: ConfigMap) | Malformed

  /** What `validate_config` does: return, `sys.exit(code)`, or raise `KeyError` on a missing key. */
  datatype Validation = Valid | Exits(code: int) | RaisesKeyError(key: string)

  const ProjectKey := "gcp_project_id"
  const BucketKey := "gcs_bucket_name"
  const EnvironmentKey := "composer_environment_full_path"

  function GetEnv(env: Env, name: string): Option<string>
  {
    if name in env then Some(env[name]) else None
  }

  /** The environment variable that overrides configuration key `name`. */
  function OverrideName(name: string): string
  {
    "FUGA_" + Strings.Upper(name)
  }

  /** `get_config(name)`: the override variable if set, else the stored value, else `None`. */
  function Lookup(env: Env, config: ConfigMap, name: string): (r: Option<string>)
    ensures OverrideName(name) in env ==> r == Some(env[OverrideName(name)])
    ensures OverrideName(name) !in env && name in config ==> r == config[name]
    ensures r.None? ==> OverrideName(name) !in env && (name !in config || config[name].None?)
  {
    if OverrideName(name) in env then Some(env[OverrideName(name)])
    else if name in config then config[name]
    else None
  }

  /** A read-only view of the configuration as every `get_config` call sees it. */
  datatype Settings = Settings(env: Env, config: ConfigMap) {
    function Get(name: string): Option<string>
    {
      Lookup(env, config, name)
    }
  }

  /** `os.path.expanduser` for `~` and `~/...` (with `$HOME` = `userHome`). */
  function ExpandUser(p: string, userHome: string): string
  {
    if p == "~" || (|p| >= 2 && p[0] == '~' && p[1] == '/') then
      var r := Paths.RStripSlashes(userHome) + p[1..];
      if r == [] then "/" else r
    else p
  }

  /** The start-up rule for the fuga home directory. */
  function FugaHome(env: Env, userHome: string, homeWritable: bool): string
  {
    if "FUGA_HOME" in env then env["FUGA_HOME"]
    else
      var base := if homeWritable then ExpandUser("~", userHome) else "/tmp";
      Paths.Join(base, ".fuga")
  }

  function ConfigPath(home: string, userHome: string): string
  {
    ExpandUser(Paths.Join(home, "config.yml"), userHome)
  }

  /** `DEFAULT_CONFIG`. */
  function DefaultConfig(userHome: string): ConfigMap
  {
    map["cookiecutters_dir" := Some(ExpandUser("~/.cookiecutters", userHome))]
  }

  /** The map written when no configuration file exists. */
  function SeedConfig(env: Env): ConfigMap
  {
    map[ProjectKey := GetEnv(env, "FUGA_GCP_PROJECT_ID"), BucketKey := GetEnv(env, "FUGA_GCS_BUCKET_NAME")]
  }

  class Store {
    /** `_config` */
    var config: ConfigMap
    /** the contents of `_config_path` */
    var file: ConfigFile
    /** `_fuga_home` */
    const home: string
    /** `_config_path` */
    const path: string

    /** Module initialisation of `fuga.config`. */
    constructor Load(env: Env, userHome: string, homeWritable: bool, stored: ConfigFile)
      ensures home == FugaHome(env, userHome, homeWritable)
      ensures path == ConfigPath(home, userHome)
      ensures stored.Holds? ==> config == stored.contents && file == stored
      ensures stored.Malformed? ==> config == map[] && file == stored
      ensures stored.Missing? ==> config == SeedConfig(env) && file == Holds(config)
      ensures "cookiecutters_dir" in config ==> stored.Holds? && "cookiecutters_dir" in stored.contents
    {
      config := DefaultConfig(userHome);
      var h;
      if "FUGA_HOME" in env {
        h := env["FUGA_HOME"];
      } else {
        var base := ExpandUser("~", userHome);
        if !homeWritable {
          base := "/tmp";
        }
        h := Paths.Join(base, ".fuga");
      }
      home := h;
      path := ExpandUser(Paths.Join(h, "config.yml"), userHome);
      file := stored;
      if stored.Holds? {
        config := stored.contents;
      } else if stored.Malformed? {
        config := map[];
      }
      if stored.Missing? {
        config := map[ProjectKey := GetEnv(env, "FUGA_GCP_PROJECT_ID"), BucketKey := GetEnv(env, "FUGA_GCS_BUCKET_NAME")];
        file := Holds(config);
      }
    }

    /** `get_config(name)` */
    function Get(env: Env, name: string): Option<string>
      reads this
    {
      Lookup(env, config, name)
    }

    /** `write_config(key, value)`: update one key in place, then persist the whole map. */
    method Write(key: string, value: string)
      modifies this
      ensures config == old(config)[key := Some(value)]
      ensures file == Holds(config)
      ensures forall k :: k in old(config) && k != key ==> k in config && config[k] == old(config)[k]
    {
      config := config[key := Some(value)];
      file := Holds(config);
    }

    /** `validate_config()`: reads the in-memory map only, never the overrides. */
    function Validate(): (r: Validation)
      reads this
      ensures r == Valid <==>
        ProjectKey in config && config[ProjectKey].Some? && BucketKey in config && config[BucketKey].Some?
      ensures r.Exits? <==>
        ProjectKey in config && (config[ProjectKey].None? || (BucketKey in config && config[BucketKey].None?))
      ensures r.Exits? ==> r.code == 1
      ensures r.RaisesKeyError? ==> r.key !in config
    {
      if ProjectKey !in config then RaisesKeyError(ProjectKey)
      else if config[ProjectKey].None? then Exits(1)
      else if BucketKey !in config then RaisesKeyError(BucketKey)
      else if config[BucketKey].None? then Exits(1)
      else Valid
    }
  }

  /** A set override variable wins over whatever the file holds. */
  lemma OverrideWins(env: Env, c1: ConfigMap, c2: ConfigMap, name: string)
    requires OverrideName(name) in env
    ensures Lookup(env, c1, name) == Lookup(env, c2, name) == Some(env[OverrideName(name)])
  {
  }

  /** Without an override, `get_config` gives the stored value, and `None` for an absent key. */
  lemma StoredValueWithoutOverride(env: Env, c: ConfigMap, name: string)
    requires OverrideName(name) !in env
    ensures Lookup(env, c, name) == (if name in c then c[name] else None)
  {
  }

  /** After `write_config(key, v)`, `get_config(key)` is `v` unless overridden, and no other key reads differently. */
  lemma WriteThenLookup(env: Env, c: ConfigMap, key: string, v: string, other: string)
    requires other != key
    ensures Lookup(env, c[key := Some(v)], key) ==
      (if OverrideName(key) in env then Some(env[OverrideName(key)]) else Some(v))
    ensures Lookup(env, c[key := Some(v)], other) == Lookup(env, c, other)
  {
  }

  /** Unless `$FUGA_HOME` is set, the home is `<$HOME>/.fuga` or `/tmp/.fuga`, and the file is always `config.yml` in it. */
  lemma HomeAndPath(env: Env, userHome: string, homeWritable: bool)
    requires "FUGA_HOME" !in env
    requires userHome != [] && userHome[0] == '/' && userHome[|userHome| - 1] != '/'
    ensures homeWritable ==> FugaHome(env, userHome, homeWritable) == userHome + "/.fuga"
    ensures !homeWritable ==> FugaHome(env, userHome, homeWritable) == "/tmp/.fuga"
    ensures Paths.Basename(ConfigPath(FugaHome(env, userHome, homeWritable), userHome)) == "config.yml"
  {
    var home := FugaHome(env, userHome, homeWritable);
    var base := if homeWritable then ExpandUser("~", userHome) else "/tmp";
    assert "~"[1..] == [];
    if homeWritable {
      assert Paths.RStripSlashes(userHome) == userHome;
      assert ExpandUser("~", userHome) == userHome;
    }
    assert base != [] && base[0] == '/';
    assert home != [] && home[0] == '/';
    Paths.BasenameOfJoin(home, "config.yml");
  }
}
