/** Client configuration: the version flag (main.go:85-90) and the flattening
    of credentials for the Scope scheme (main.go:405-412). */
module ClientConfig {
  import opened Wrappers
  import opened Types

  /** The two recognised values of the `Version` field. */
  const Current: string := ">= 2.x"
  const Legacy: string := "1.x <="

  /** `SurrealDB`: copies the configuration and replaces an empty or
      unrecognised version by ">= 2.x". */
  function SurrealDB(config: Config): (c: Config)
    ensures c.version == Current || c.version == Legacy
    ensures config.version == Current || config.version == Legacy ==> c.version == config.version
    ensures config.version != Current && config.version != Legacy ==> c.version == Current
    ensures c.url == config.url && c.namespace == config.namespace
    ensures c.database == config.database && c.auth == config.auth
  {
    if config.version == "" || (config.version != Current && config.version != Legacy) then
      config.(version := Current)
    else
      config
  }

  /** Applying the constructor to its own result changes nothing. */
  lemma SurrealDBIdempotent(config: Config)
    ensures SurrealDB(SurrealDB(config)) == SurrealDB(config)
  {
  }

  /** `AuthVars.ToMap`: the four credential fields under lower-case keys. */
  function ToMap(a: AuthVars): (m: map<string, string>)
    ensures m.Keys == {"username", "password", "namespace", "database"}
  {
    map["username" := a.username, "password" := a.password,
        "namespace" := a.namespace, "database" := a.database]
  }

  /** Reads credentials back from such a map; None when a key is missing. */
  function FromMap(m: map<string, string>): Option<AuthVars> {
    if "username" in m && "password" in m && "namespace" in m && "database" in m then
      Some(AuthVars(m["username"], m["password"], m["namespace"], m["database"]))
    else
      None
  }

  /** The flattening loses no field. */
  lemma FromMapToMap(a: AuthVars)
    ensures FromMap(ToMap(a)) == Some(a)
  {
  }
}
