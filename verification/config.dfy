/**
 * The application configuration of cmd/config/config.go: the record `Load`
 * builds from the process environment, its `Validate` check, the environment
 * predicates and the `getEnv` family of lookups. The environment is a map from
 * variable name to value; an unset variable is a missing key.
 */
module AppConfig {

  import opened Results
  import opened Numbers

  type Env = map<string, string>

  datatype ServerConfig = ServerConfig(port: string, host: string, environment: string)

  datatype DatabaseConfig = DatabaseConfig(
    driver: string, host: string, port: string, username: string, password: string, name: string, sslMode: string)

  /** The per-provider settings; `baseUrl` is only read for OpenAI and is empty for the others. */
  datatype ProviderConfig = ProviderConfig(apiKey: string, baseUrl: string, defaultModel: string, maxTokens: int)

  datatype AIProvidersConfig = AIProvidersConfig(openAI: ProviderConfig, gemini: ProviderConfig, anthropic: ProviderConfig)

  datatype SecurityConfig = SecurityConfig(jwtSecret: string, corsOrigins: seq<string>)

  datatype ObservabilityConfig = ObservabilityConfig(
    logLevel: string, sentryDsn: string, environment: string, serviceName: string, version: string)

  datatype RateLimitConfig = RateLimitConfig(requestsPerMinute: int, burstSize: int)

  datatype Config = Config(
    server: ServerConfig,
    database: DatabaseConfig,
    aiProviders: AIProvidersConfig,
    security: SecurityConfig,
    observability: ObservabilityConfig,
    rateLimit: RateLimitConfig)

  /** The reasons `Validate` rejects a configuration. */
  datatype ConfigError = PortRequired | DriverRequired | ProviderKeyRequired

  /** Whether a variable counts as set: present and non-empty. */
  predicate IsSet(env: Env, key: string) {
    key in env && env[key] != ""
  }

  /** `getEnv`: the variable's value when it is set, the default otherwise. */
  function GetEnv(env: Env, key: string, default: string): (r: string)
    ensures IsSet(env, key) ==> r == env[key]
    ensures !IsSet(env, key) ==> r == default
    ensures r == "" ==> default == ""
  {
    if key in env && env[key] != "" then env[key] else default
  }

  /** `getIntEnv`: the variable read by `strconv.Atoi`, falling back to the default when it is unset or not a number. */
  function GetIntEnv(env: Env, key: string, default: int): (r: int)
    ensures IsSet(env, key) && Atoi(env[key]).Some? ==> r == Atoi(env[key]).value
    ensures !IsSet(env, key) || Atoi(env[key]).None? ==> r == default
  {
    if key in env && env[key] != "" then Atoi(env[key]).GetOr(default) else default
  }

  /** A variable holding the decimal rendering of an int64 reads back as that number. */
  lemma GetIntEnvReadsFormatted(env: Env, key: string, n: int, default: int)
    requires IsInt64(n)
    ensures GetIntEnv(env[key := FormatInt(n)], key, default) == n
  {
    ParseFormatInt(n);
  }

  /** `getStringSliceEnv`: a set variable becomes a one-element list holding the whole value, commas included. */
  function GetStringSliceEnv(env: Env, key: string, default: seq<string>): (r: seq<string>)
    ensures IsSet(env, key) ==> r == [env[key]]
    ensures !IsSet(env, key) ==> r == default
  {
    if key in env && env[key] != "" then [env[key]] else default
  }

  /** `Config.Validate`: the port first, then the database driver, then at least one provider key. */
  function Validate(c: Config): (r: Option<ConfigError>)
    ensures r == Some(PortRequired) <==> c.server.port == ""
    ensures r == Some(DriverRequired) <==> c.server.port != "" && c.database.driver == ""
    ensures r == Some(ProviderKeyRequired) <==>
      c.server.port != "" && c.database.driver != "" &&
      c.aiProviders.openAI.apiKey == "" && c.aiProviders.gemini.apiKey == "" && c.aiProviders.anthropic.apiKey == ""
    ensures r.None? <==>
      c.server.port != "" && c.database.driver != "" &&
      (c.aiProviders.openAI.apiKey != "" || c.aiProviders.gemini.apiKey != "" || c.aiProviders.anthropic.apiKey != "")
  {
    if c.server.port == "" then Some(PortRequired)
    else if c.database.driver == "" then Some(DriverRequired)
    else if c.aiProviders.openAI.apiKey == "" && c.aiProviders.gemini.apiKey == "" && c.aiProviders.anthropic.apiKey == ""
    then Some(ProviderKeyRequired)
    else None
  }

  predicate IsDevelopment(c: Config) {
    c.server.environment == "development"
  }

  predicate IsProduction(c: Config) {
    c.server.environment == "production"
  }

  /** The record `Load` assembles, before validation; durations are not modelled. */
  function Assemble(env: Env): (c: Config)
    ensures c.server.port != "" && c.database.driver != ""
    ensures c.aiProviders.openAI.apiKey == GetEnv(env, "OPENAI_API_KEY", "")
    ensures c.aiProviders.gemini.apiKey == GetEnv(env, "GEMINI_API_KEY", "")
    ensures c.aiProviders.anthropic.apiKey == GetEnv(env, "ANTHROPIC_API_KEY", "")
    ensures c.server.environment == c.observability.environment
  {
    Config(
      ServerConfig(GetEnv(env, "PORT", "8080"), GetEnv(env, "HOST", "0.0.0.0"), GetEnv(env, "ENVIRONMENT", "development")),
      DatabaseConfig(
        GetEnv(env, "DB_DRIVER", "sqlite"), GetEnv(env, "DB_HOST", "localhost"), GetEnv(env, "DB_PORT", "3306"),
        GetEnv(env, "DB_USERNAME", ""), GetEnv(env, "DB_PASSWORD", ""), GetEnv(env, "DB_NAME", "./ai_service.db"),
        GetEnv(env, "DB_SSL_MODE", "disable")),
      AIProvidersConfig(
        ProviderConfig(
          GetEnv(env, "OPENAI_API_KEY", ""), GetEnv(env, "OPENAI_BASE_URL", "https://api.openai.com/v1"),
          GetEnv(env, "OPENAI_DEFAULT_MODEL", "gpt-3.5-turbo"), GetIntEnv(env, "OPENAI_MAX_TOKENS", 4096)),
        ProviderConfig(
          GetEnv(env, "GEMINI_API_KEY", ""), "",
          GetEnv(env, "GEMINI_DEFAULT_MODEL", "gemini-1.5-flash"), GetIntEnv(env, "GEMINI_MAX_TOKENS", 8192)),
        ProviderConfig(
          GetEnv(env, "ANTHROPIC_API_KEY", ""), "",
          GetEnv(env, "ANTHROPIC_DEFAULT_MODEL", "claude-3-sonnet-20240229"), GetIntEnv(env, "ANTHROPIC_MAX_TOKENS", 8192))),
      SecurityConfig(GetEnv(env, "JWT_SECRET", "your-secret-key"), GetStringSliceEnv(env, "CORS_ORIGINS", ["*"])),
      ObservabilityConfig(
        GetEnv(env, "LOG_LEVEL", "info"), GetEnv(env, "SENTRY_DSN", ""), GetEnv(env, "ENVIRONMENT", "development"),
        GetEnv(env, "SERVICE_NAME", "ai-service"), GetEnv(env, "VERSION", "1.0.0")),
      RateLimitConfig(GetIntEnv(env, "RATE_LIMIT_REQUESTS_PER_MINUTE", 60), GetIntEnv(env, "RATE_LIMIT_BURST_SIZE", 10)))
  }

  /** `Load`: the assembled record, or the validation error. */
  function Load(env: Env): (r: Result<Config, ConfigError>)
    ensures r.Ok? ==> r.value == Assemble(env) && Validate(r.value).None?
    ensures r.Err? ==> Validate(Assemble(env)) == Some(r.error)
  {
    var c := Assemble(env);
    match Validate(c)
    case Some(e) => Err(e)
    case None => Ok(c)
  }

  /**
   * Since the port and the driver have non-empty defaults, loading fails exactly
   * when none of the three provider key variables is set, and then for that reason.
   */
  lemma LoadFailsIffNoProviderKey(env: Env)
    ensures Load(env).Err? <==>
      !IsSet(env, "OPENAI_API_KEY") && !IsSet(env, "GEMINI_API_KEY") && !IsSet(env, "ANTHROPIC_API_KEY")
    ensures Load(env).Err? ==> Load(env).error == ProviderKeyRequired
  {
  }
}
