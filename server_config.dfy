/** loadConfig of cmd/server/main.go: the three settings of the inventory
    server, read from API_TOKEN, DB_PATH and PORT. The environment lookups
    are parameters ("" for an unset variable). */
module ServerConfig {
  import opened Common

  const DefaultDbPath: string := "./lab_gear.db"
  const DefaultPort: string := "8080"

  /** loadConfig's four named results. */
  datatype Loaded = Loaded(token: string, dbPath: string, port: string, err: Option<string>)

  function LoadConfig(apiToken: string, dbPath: string, port: string): (r: Loaded)
    ensures r.err.Some? <==> apiToken == ""
    ensures r.err.Some? ==> r.token == "" && r.dbPath == "" && r.port == ""
    ensures r.err.None? ==> r.token == apiToken && r.dbPath != "" && r.port != ""
    ensures r.err.None? && dbPath != "" ==> r.dbPath == dbPath
    ensures r.err.None? && port != "" ==> r.port == port
    ensures r.err.None? && dbPath == "" ==> r.dbPath == DefaultDbPath
    ensures r.err.None? && port == "" ==> r.port == DefaultPort
  {
    if apiToken == "" then
      Loaded("", "", "", Some("API_TOKEN environment variable is required"))
    else
      Loaded(apiToken,
             if dbPath == "" then DefaultDbPath else dbPath,
             if port == "" then DefaultPort else port,
             None)
  }

  /** A missing token is reported before DB_PATH or PORT is looked at: the
      outcome does not depend on them. Unset DB_PATH and PORT take their
      defaults. */
  lemma LoadConfigOutcomes(dbPath: string, port: string, otherDbPath: string, otherPort: string, token: string)
    ensures LoadConfig("", dbPath, port) == LoadConfig("", otherDbPath, otherPort)
    ensures token != "" ==> LoadConfig(token, "", "") == Loaded(token, DefaultDbPath, DefaultPort, None)
  {
  }
}
