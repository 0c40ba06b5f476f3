/** Configuration: the base URL and debug flag read from a file, overridden
    from the environment, then validated; and where the file is looked for. */
module AppConfig {
  import opened Wrappers

  const EnvBaseUrl := "ENSYNC_BASE_URL"
  const EnvDebug := "ENSYNC_DEBUG"
  const EnvConfigDir := "ENSYNC_CONFIG_DIR"
  const DefaultConfigDirName := ".ensync"

  const BaseUrlRequired :=
    "base_url is required: set via config file or ENSYNC_BASE_URL environment variable"

  /** The process environment; `Getenv` gives "" for an unset variable, as
      `os.Getenv` does. */
  datatype Environment = Environment(vars: map<string, string>)
  {
    function Getenv(key: string): string {
      if key in vars then vars[key] else ""
    }
  }

  /** `os.UserHomeDir` on Unix: `$HOME`, which must be non-empty. */
  function UserHomeDir(env: Environment): (r: Result<string, string>)
    ensures r.Ok? ==> r.value != ""
  {
    var home := env.Getenv("HOME");
    if home == "" then Err("$HOME is not defined") else Ok(home)
  }

  /** `strconv.ParseBool`: the spellings it accepts for each truth value. */
  function ParseBool(s: string): (r: Option<bool>)
    ensures r.Some? ==> 1 <= |s| <= 5
    ensures r.Some? ==> (r.value <==> s[0] in "1tT")
    ensures r.Some? ==> s[0] in "1tT0fF"
  {
    if s in {"1", "t", "T", "TRUE", "true", "True"} then Some(true)
    else if s in {"0", "f", "F", "FALSE", "false", "False"} then Some(false)
    else None
  }

  /** `strconv.FormatBool`. */
  function FormatBool(b: bool): string {
    if b then "true" else "false"
  }

  /** ParseBool reads back what FormatBool writes, rejects the empty string
      and is not case-insensitive beyond the listed spellings. */
  lemma ParseBoolFacts(b: bool)
    ensures ParseBool(FormatBool(b)) == Some(b)
    ensures ParseBool("") == None
    ensures ParseBool("yes") == None && ParseBool("tRUE") == None
  {
  }

  /** The base URL after the environment override: the configured one if it
      is set, else the environment's (which may itself be empty). */
  function OverriddenBaseUrl(baseUrl: string, env: Environment): string {
    if baseUrl != "" then baseUrl else env.Getenv(EnvBaseUrl)
  }

  /** The debug flag after the environment override: it can be switched on
      by a variable that parses as true, never switched off. */
  function OverriddenDebug(debug: bool, env: Environment): bool {
    debug || ParseBool(env.Getenv(EnvDebug)) == Some(true)
  }

  class Config {
    var baseUrl: string
    var debug: bool

    constructor (baseUrl: string, debug: bool)
      ensures this.baseUrl == baseUrl && this.debug == debug
    {
      this.baseUrl := baseUrl;
      this.debug := debug;
    }

    /** `Config.Validate`: only an empty base URL is rejected. */
    function Validate(): (r: Outcome<string>)
      reads this
      ensures r.Fail? <==> baseUrl == ""
      ensures r.Fail? ==> r.error == BaseUrlRequired
    {
      if baseUrl == "" then Fail(BaseUrlRequired) else Pass
    }

    /** `applyEnvironmentOverrides`: fills an empty base URL from
        ENSYNC_BASE_URL, and when debug is off, sets it to the value of
        ENSYNC_DEBUG if that is non-empty and parses as a boolean. */
    method ApplyEnvironmentOverrides(env: Environment)
      modifies this
      ensures baseUrl == OverriddenBaseUrl(old(baseUrl), env)
      ensures debug == OverriddenDebug(old(debug), env)
    {
      if baseUrl == "" {
        baseUrl := env.Getenv(EnvBaseUrl);
      }
      if !debug {
        var val := env.Getenv(EnvDebug);
        if val != "" {
          var parsed := ParseBool(val);
          if parsed.Some? {
            debug := parsed.value;
          }
        }
      }
    }
  }

  /** The override never replaces a base URL that is set, and supplies the
      environment's when none is. */
  lemma BaseUrlPrecedence(baseUrl: string, env: Environment)
    ensures baseUrl != "" ==> OverriddenBaseUrl(baseUrl, env) == baseUrl
    ensures baseUrl == "" ==> OverriddenBaseUrl(baseUrl, env) == env.Getenv(EnvBaseUrl)
  {
  }

  /** Debug stays on once on; from off it takes the parsed value of the
      variable, and stays off when the variable is empty or unparsable. */
  lemma DebugPrecedence(debug: bool, env: Environment)
    ensures debug ==> OverriddenDebug(debug, env)
    ensures !debug && ParseBool(env.Getenv(EnvDebug)).Some? ==>
      OverriddenDebug(debug, env) == ParseBool(env.Getenv(EnvDebug)).value
    ensures !debug && ParseBool(env.Getenv(EnvDebug)).None? ==> !OverriddenDebug(debug, env)
    ensures !debug && env.Getenv(EnvDebug) == "" ==> !OverriddenDebug(debug, env)
  {
  }

  predicate EndsWith(s: string, suffix: string) {
    |suffix| <= |s| && s[|s| - |suffix|..] == suffix
  }

  /** `filepath.Join(home, name)` for a home path whose only untidiness is a
      run of trailing separators. */
  function JoinPath(home: string, name: string): (path: string)
    ensures EndsWith(path, "/" + name)
    ensures |home| > 0 && home[|home| - 1] != '/' ==> path == home + "/" + name
    decreases |home|
  {
    if |home| > 0 && home[|home| - 1] == '/' then JoinPath(home[..|home| - 1], name)
    else home + "/" + name
  }

  /** The joined path starts with the home path cut at its run of trailing
      separators (all of it when there is none), then "/" and the name. */
  lemma {:induction false} JoinPathKeepsHome(home: string, name: string)
    ensures var k := |JoinPath(home, name)| - |name| - 1;
      0 <= k <= |home|
      && JoinPath(home, name)[..k] == home[..k]
      && (forall j :: k <= j < |home| ==> home[j] == '/')
      && (k == 0 || home[k - 1] != '/')
    decreases |home|
  {
    if |home| > 0 && home[|home| - 1] == '/' {
      var h := home[..|home| - 1];
      JoinPathKeepsHome(h, name);
      var k := |JoinPath(home, name)| - |name| - 1;
      assert home[..k] == h[..k];
    }
  }

  /** `configDir`: ENSYNC_CONFIG_DIR when it is set; otherwise `.ensync`
      under the home directory, or "." when there is no home directory. */
  function ConfigDir(env: Environment): (dir: string)
    ensures dir != ""
    ensures env.Getenv(EnvConfigDir) != "" ==> dir == env.Getenv(EnvConfigDir)
    ensures env.Getenv(EnvConfigDir) == "" && UserHomeDir(env).Err? ==> dir == "."
    ensures env.Getenv(EnvConfigDir) == "" && UserHomeDir(env).Ok? ==>
      EndsWith(dir, "/" + DefaultConfigDirName)
    ensures env.Getenv(EnvConfigDir) == "" && UserHomeDir(env).Ok? ==>
      var home := UserHomeDir(env).value;
      dir == JoinPath(home, DefaultConfigDirName)
      && (home[|home| - 1] != '/' ==> dir == home + "/" + DefaultConfigDirName)
  {
    var dir := env.Getenv(EnvConfigDir);
    if dir != "" then dir
    else
      match UserHomeDir(env)
      case Err(_) => "."
      case Ok(home) => JoinPath(home, DefaultConfigDirName)
  }

  /** What reading the configuration file in a directory gives: no file
      (not an error), a read error, a file that does not decode into the
      settings, or the two settings. */
  datatype ConfigFile =
    | NotFound
    | Unreadable(readError: string)
    | Undecodable(decodeError: string)
    | Found(fileBaseUrl: string, fileDebug: bool)

  /** The settings a read file supplies: a missing file supplies the zero
      values. */
  function FileSettings(file: ConfigFile): (string, bool) {
    match file
    case Found(u, d) => (u, d)
    case _ => ("", false)
  }

  /** The outcome of `Load` as a value: a file error, a validation error, or
      the overridden settings. */
  function LoadOutcome(env: Environment, file: ConfigFile): Result<(string, bool), string> {
    match file
    case Unreadable(e) => Err("read config file: " + e)
    case Undecodable(e) => Err("unmarshal config: " + e)
    case _ =>
      var (u, d) := FileSettings(file);
      var baseUrl := OverriddenBaseUrl(u, env);
      if baseUrl == "" then Err(BaseUrlRequired) else Ok((baseUrl, OverriddenDebug(d, env)))
  }

  /** `Load`: reads the file found in `ConfigDir`, applies the environment
      overrides, and only then validates. `readConfig` stands for viper's
      search-and-decode of `config.yaml` in a directory. */
  method Load(env: Environment, readConfig: string -> ConfigFile) returns (r: Result<Config, string>)
    ensures r.Err? ==> LoadOutcome(env, readConfig(ConfigDir(env))) == Err(r.error)
    ensures r.Ok? ==> fresh(r.value)
    ensures r.Ok? ==> LoadOutcome(env, readConfig(ConfigDir(env))) == Ok((r.value.baseUrl, r.value.debug))
  {
    var file := readConfig(ConfigDir(env));
    match file {
      case Unreadable(e) =>
        return Err("read config file: " + e);
      case Undecodable(e) =>
        return Err("unmarshal config: " + e);
      case _ =>
    }
    var (u, d) := FileSettings(file);
    var cfg := new Config(u, d);
    cfg.ApplyEnvironmentOverrides(env);
    var valid := cfg.Validate();
    if valid.Fail? {
      return Err(valid.error);
    }
    r := Ok(cfg);
  }

  /** Because overrides come first, an environment base URL rescues a file
      that lacks one, where validating the file alone would have failed. */
  lemma EnvironmentSuppliesMissingBaseUrl(env: Environment, file: ConfigFile)
    requires file.NotFound? || (file.Found? && file.fileBaseUrl == "")
    requires env.Getenv(EnvBaseUrl) != ""
    ensures FileSettings(file).0 == ""
    ensures LoadOutcome(env, file).Ok? && LoadOutcome(env, file).value.0 == env.Getenv(EnvBaseUrl)
  {
  }

  /** Load fails for a readable file exactly when neither the file nor the
      environment gives a base URL. */
  lemma LoadFailsOnlyWithoutBaseUrl(env: Environment, file: ConfigFile)
    requires !file.Unreadable? && !file.Undecodable?
    ensures LoadOutcome(env, file).Err? <==> FileSettings(file).0 == "" && env.Getenv(EnvBaseUrl) == ""
  {
  }
}
