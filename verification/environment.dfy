/** The two environment fallbacks. The process environment is an input: a
    map from variable names to values, where `os.Getenv` of a missing name
    reads as the empty string. */
module Environment {

  type Env = map<string, string>

  function Getenv(env: Env, name: string): string {
    if name in env then env[name] else ""
  }

  const ConfigFileVariableSuffix := "_CONFIGFILE"
  const DefaultConfigFile := "config.json"
  const AspNetCorePort := "ASPNETCORE_PORT"
  const HttpPlatformPort := "HTTP_PLATFORM_PORT"

  /** Name of the variable that overrides the configuration file path. */
  function ConfigFileVariable(appName: string): string {
    appName + ConfigFileVariableSuffix
  }

  /** `GetConfigurationFileSpec`: the per-application variable when it is
      set to something non-empty, `config.json` otherwise. */
  function ConfigurationFileSpec(env: Env, appName: string): (spec: string)
    ensures spec != ""
    ensures spec == Getenv(env, ConfigFileVariable(appName)) || spec == DefaultConfigFile
    ensures Getenv(env, ConfigFileVariable(appName)) != "" ==> spec == Getenv(env, ConfigFileVariable(appName))
  {
    var configured := Getenv(env, ConfigFileVariable(appName));
    if configured == "" then DefaultConfigFile else configured
  }

  /** Only the application's own variable is consulted. */
  lemma ConfigurationFileSpecReadsOneVariable(env1: Env, env2: Env, appName: string)
    requires Getenv(env1, ConfigFileVariable(appName)) == Getenv(env2, ConfigFileVariable(appName))
    ensures ConfigurationFileSpec(env1, appName) == ConfigurationFileSpec(env2, appName)
  {
  }

  /** The default file is used exactly when the variable is unset or empty,
      unless it names that same file. */
  lemma ConfigurationFileSpecDefault(env: Env, appName: string)
    ensures ConfigurationFileSpec(env, appName) == DefaultConfigFile <==>
            Getenv(env, ConfigFileVariable(appName)) in {"", DefaultConfigFile}
  {
  }

  /** Where `GetHTTPport` takes its answer from. */
  datatype PortSource = FromAspNetCore | FromHttpPlatform | FromDefault

  function PortSourceOf(env: Env): (src: PortSource)
    ensures src == FromDefault <==> Getenv(env, AspNetCorePort) == "" && Getenv(env, HttpPlatformPort) == ""
    ensures src == FromAspNetCore <==> Getenv(env, AspNetCorePort) != ""
  {
    if Getenv(env, AspNetCorePort) != "" then FromAspNetCore
    else if Getenv(env, HttpPlatformPort) != "" then FromHttpPlatform
    else FromDefault
  }

  /** `GetHTTPport`: `ASPNETCORE_PORT`, else `HTTP_PLATFORM_PORT`, else the
      caller's default. */
  function GetHttpPort(env: Env, defaultPort: string): (port: string)
    ensures port == match PortSourceOf(env)
                    case FromAspNetCore => Getenv(env, AspNetCorePort)
                    case FromHttpPlatform => Getenv(env, HttpPlatformPort)
                    case FromDefault => defaultPort
  {
    var port := Getenv(env, AspNetCorePort);
    if port == "" then
      var legacy := Getenv(env, HttpPlatformPort);
      if legacy == "" then defaultPort else legacy
    else port
  }

  /** A non-empty default guarantees a non-empty port. */
  lemma GetHttpPortNonEmpty(env: Env, defaultPort: string)
    requires defaultPort != ""
    ensures GetHttpPort(env, defaultPort) != ""
  {
  }

  /** Only the two port variables are consulted. */
  lemma GetHttpPortReadsTwoVariables(env1: Env, env2: Env, defaultPort: string)
    requires Getenv(env1, AspNetCorePort) == Getenv(env2, AspNetCorePort)
    requires Getenv(env1, HttpPlatformPort) == Getenv(env2, HttpPlatformPort)
    ensures GetHttpPort(env1, defaultPort) == GetHttpPort(env2, defaultPort)
  {
  }

  /** With neither variable set the default comes back; with only the legacy
      one set, its value does. */
  lemma GetHttpPortExamples()
    ensures GetHttpPort(map[], "8080") == "8080"
    ensures GetHttpPort(map[HttpPlatformPort := "9090"], "8080") == "9090"
    ensures GetHttpPort(map[AspNetCorePort := "5000", HttpPlatformPort := "9090"], "8080") == "5000"
  {
  }
}
