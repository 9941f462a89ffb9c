/** The database connection settings read from the environment: the
    required connection string and the decision to use SSL. */
module DbConfig {
  import opened Wrappers

  const MissingUrl: string := "DATABASE_URL must be set. Did you forget to provision a database?"

  /** The environment variables consulted; `None` is an unset variable. */
  datatype Env = Env(databaseUrl: Option<string>, databaseSsl: Option<string>, pgSslMode: Option<string>, nodeEnv: Option<string>)

  /** The connection string; an unset or empty one is an error. */
  function DatabaseUrl(env: Env): (r: Result<string, string>)
    ensures r.Ok? <==> env.databaseUrl.Some? && env.databaseUrl.value != ""
    ensures r.Ok? ==> r.value == env.databaseUrl.value
    ensures r.Err? ==> r.error == MissingUrl
  {
    if env.databaseUrl.None? || env.databaseUrl.value == "" then Err(MissingUrl) else Ok(env.databaseUrl.value)
  }

  /** Whether the url names this machine. `hostname` is what the URL parser
      gives for the url, `None` when it throws. */
  predicate IsLocalHost(hostname: Option<string>)
  {
    hostname.Some? && hostname.value in ["localhost", "127.0.0.1"]
  }

  /** `DATABASE_SSL ?? PGSSLMODE`: a set DATABASE_SSL wins, even when empty. */
  function SslMode(env: Env): (r: Option<string>)
    ensures env.databaseSsl.Some? ==> r == env.databaseSsl
    ensures env.databaseSsl.None? ==> r == env.pgSslMode
  {
    if env.databaseSsl.Some? then env.databaseSsl else env.pgSslMode
  }

  /** The SSL mode asks for SSL: it is set, non-empty and neither "disable" nor "false". */
  predicate ModeAsksSsl(mode: Option<string>)
  {
    mode.Some? && mode.value != "" && mode.value != "disable" && mode.value != "false"
  }

  /** SSL is used when the mode asks for it, or in production against a non-local host. */
  predicate ShouldUseSsl(env: Env, hostname: Option<string>)
  {
    ModeAsksSsl(SslMode(env)) || (env.nodeEnv == Some("production") && !IsLocalHost(hostname))
  }

  /** The settings the pool is built with: the url and the SSL decision,
      or the error raised before any pool exists. `parse` is the URL parser. */
  function Configure(env: Env, parse: string -> Option<string>): (r: Result<(string, bool), string>)
    ensures r.Err? <==> env.databaseUrl.None? || env.databaseUrl.value == ""
    ensures r.Err? ==> r.error == MissingUrl
    ensures r.Ok? ==> r.value.0 == env.databaseUrl.value
    ensures r.Ok? ==> (r.value.1 <==> ShouldUseSsl(env, parse(env.databaseUrl.value)))
  {
    match DatabaseUrl(env)
    case Err(e) => Err(e)
    case Ok(url) => Ok((url, ShouldUseSsl(env, parse(url))))
  }

  /** An unparseable url counts as a remote host. */
  lemma UnparseableIsRemote()
    ensures !IsLocalHost(None)
  {
  }

  /** In production a remote host gets SSL even when the mode says "disable". */
  lemma ProductionRemoteForcesSsl(env: Env, hostname: Option<string>)
    requires env.nodeEnv == Some("production") && !IsLocalHost(hostname)
    ensures ShouldUseSsl(env, hostname)
  {
  }

  /** Outside production, SSL is on exactly when the mode asks for it. */
  lemma OutsideProductionFollowsMode(env: Env, hostname: Option<string>)
    requires env.nodeEnv != Some("production")
    ensures ShouldUseSsl(env, hostname) <==> ModeAsksSsl(SslMode(env))
  {
  }

  /** An empty DATABASE_SSL shadows PGSSLMODE, switching SSL off outside production. */
  lemma EmptyDatabaseSslShadows(pgSslMode: Option<string>, hostname: Option<string>)
    ensures !ShouldUseSsl(Env(Some("postgres://db"), Some(""), pgSslMode, None), hostname)
  {
  }
}
