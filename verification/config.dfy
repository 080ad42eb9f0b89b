/**
 The resolved application configuration and the entry point's choices (`print_config` and
 `main` in src/main.py): the required name, the documented defaults, the masked secrets, the
 environment mode and the exit status.
 */
module AppConfig {
  import opened Wrappers
  import opened IntParse
  import opened EnvAccess
  import opened Masking

  /** The configuration `print_config` resolves from the environment. */
  datatype Config = Config(
    name: string,
    appEnv: string,
    debug: bool,
    port: int,
    portWarning: bool,
    databaseUrl: Option<string>,
    apiKey: Option<string>)

  const DefaultAppEnv: string := "dev"
  const DefaultDebug: bool := false
  const DefaultPort: int := 8000

  /**
   Resolution fails, naming APP_NAME, exactly when APP_NAME is unset (an empty value is accepted);
   otherwise APP_ENV falls back to "dev", APP_DEBUG to false and APP_PORT to 8000, and a port that
   does not parse falls back to 8000 with a warning.
   */
  function ResolveConfig(env: Env): (r: Result<Config, ConfigError>)
    ensures r.Failure? <==> "APP_NAME" !in env
    ensures r.Failure? ==> r.error == MissingRequired("APP_NAME")
    ensures r.Success? ==> r.value.name == env["APP_NAME"]
    ensures r.Success? ==> r.value.appEnv == if "APP_ENV" in env then env["APP_ENV"] else "dev"
    ensures r.Success? && "APP_DEBUG" !in env ==> !r.value.debug
    ensures r.Success? ==> r.value.debug == GetBoolEnv(env, "APP_DEBUG", false)
    ensures r.Success? && "APP_PORT" !in env ==> r.value.port == 8000 && !r.value.portWarning
    ensures r.Success? && "APP_PORT" in env ==>
      (r.value.portWarning <==> ParseInt(env["APP_PORT"]).None?)
      && r.value.port == ParseInt(env["APP_PORT"]).GetOr(8000)
    ensures r.Success? ==> r.value.databaseUrl == GetOptional(env, "DATABASE_URL")
    ensures r.Success? ==> r.value.apiKey == GetOptional(env, "API_KEY")
    ensures r.Success? ==> r.value.databaseUrl.Some? == ("DATABASE_URL" in env)
    ensures r.Success? ==> r.value.apiKey.Some? == ("API_KEY" in env)
  {
    match GetEnv(env, "APP_NAME", None, true)
    case Failure(e) => Failure(e)
    case Success(name) =>
      var appEnv := GetEnv(env, "APP_ENV", Some(DefaultAppEnv), false).value;
      var port := GetIntEnv(env, "APP_PORT", DefaultPort);
      Success(Config(
        name.value,
        appEnv.value,
        GetBoolEnv(env, "APP_DEBUG", DefaultDebug),
        port.value,
        port.warned,
        GetOptional(env, "DATABASE_URL"),
        GetOptional(env, "API_KEY")))
  }

  /** The three behaviours `main` selects between, by exact comparison of APP_ENV. */
  datatype Mode = Production | Development | Other(name: string)

  function ModeOf(appEnv: string): (m: Mode)
    ensures m == Production <==> appEnv == "prod"
    ensures m == Development <==> appEnv == "dev"
    ensures m.Other? ==> m.name == appEnv
  {
    if appEnv == "prod" then Production
    else if appEnv == "dev" then Development
    else Other(appEnv)
  }

  /** The APP_ENV value a mode stands for. */
  function ModeName(m: Mode): string
  {
    match m
    case Production => "prod"
    case Development => "dev"
    case Other(name) => name
  }

  /** No APP_ENV value is lost in choosing a mode. */
  lemma ModeRoundTrip(appEnv: string)
    ensures ModeName(ModeOf(appEnv)) == appEnv
  {
  }

  /** Comparison is exact: a differently cased "prod" is some other mode. */
  lemma ModeIsCaseSensitive()
    ensures ModeOf("Prod") == Other("Prod")
    ensures ModeOf("PROD") == Other("PROD")
  {
  }

  /** What one run of the program shows and decides. */
  datatype Run = Run(
    config: Config,
    databaseLine: string,
    apiKeyLine: string,
    mode: Mode,
    dumpsEnvironment: bool)

  /**
   `main`: resolve and show the configuration (stopping when that fails), then read APP_ENV and
   APP_DEBUG again to pick the mode and whether to dump the environment. The second reads agree
   with the resolved configuration.
   */
  function RunMain(env: Env): (r: Result<Run, ConfigError>)
    ensures r.Failure? <==> "APP_NAME" !in env
    ensures r.Success? ==> r.value.config == ResolveConfig(env).value
    ensures r.Success? ==> r.value.mode == ModeOf(if "APP_ENV" in env then env["APP_ENV"] else "dev")
    ensures r.Success? ==> r.value.dumpsEnvironment == GetBoolEnv(env, "APP_DEBUG", false)
    ensures r.Success? ==> r.value.mode == ModeOf(r.value.config.appEnv)
    ensures r.Success? ==> r.value.dumpsEnvironment == r.value.config.debug
    ensures r.Success? ==> r.value.databaseLine == DatabaseDisplay(r.value.config.databaseUrl)
    ensures r.Success? ==> r.value.apiKeyLine == ApiKeyDisplay(r.value.config.apiKey)
    ensures r.Success? ==> (r.value.apiKeyLine == NotConfigured <==> "API_KEY" !in env || env["API_KEY"] == [])
  {
    match ResolveConfig(env)
    case Failure(e) => Failure(e)
    case Success(config) =>
      var appEnv := GetEnv(env, "APP_ENV", Some(DefaultAppEnv), false).value.value;
      var debug := GetBoolEnv(env, "APP_DEBUG", DefaultDebug);
      Success(Run(
        config,
        DatabaseDisplay(config.databaseUrl),
        ApiKeyDisplay(config.apiKey),
        ModeOf(appEnv),
        debug))
  }

  /** The process exit status: 1 when APP_NAME is unset, 0 otherwise. */
  function ExitStatus(env: Env): (status: int)
    ensures status == 1 <==> "APP_NAME" !in env
    ensures status == 0 <==> "APP_NAME" in env
  {
    if RunMain(env).Failure? then 1 else 0
  }

  /** A port that is not an integer falls back to 8000 with a warning and the run still exits 0. */
  lemma InvalidPortFallsBack()
    ensures var env := map["APP_NAME" := "svc", "APP_PORT" := "notanint"];
      && ExitStatus(env) == 0
      && ResolveConfig(env).Success?
      && ResolveConfig(env).value.port == 8000
      && ResolveConfig(env).value.portWarning
  {
    var env := map["APP_NAME" := "svc", "APP_PORT" := "notanint"];
    ParseRejectsLeadingLetter("notanint");
    assert ParseInt(env["APP_PORT"]) == None;
  }
}
