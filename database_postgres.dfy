/** The PostgreSQL database handle: connection parameters read from the
    database configuration, plus the two section ids that locate its
    credentials later. Credentials themselves are never read here. */
module PostgresBackend {
  import opened ConfigParser

  /** PostgreSQL's standard port, used when the configuration names none. */
  const DefaultPort: int := 5432

  /** The five values a handle is built from (the `kwargs` of
      `load_from_config`). */
  datatype ConnectionParams = ConnectionParams(
    host: string,
    port: int,
    database: string,
    cpDbId: string,
    cpSecretsId: string)

  /** What `load_from_config` computes before it constructs the handle: the
      host, then the database name, then the port, each raising as soon as a
      lookup fails. `secretsCp` is accepted and never consulted. */
  function LoadParams(dbCp: ParsedConfig, dbId: string, secretsCp: ParsedConfig, secretsId: string)
    : (r: Result<ConnectionParams, ConfigError>)
    // which lookups must succeed
    ensures r.Ok? <==>
              dbId in dbCp && "host url" in dbCp[dbId] && "database" in dbCp[dbId] &&
              ("port" in dbCp[dbId] ==> IsIntLiteral(dbCp[dbId]["port"]))
    // what a successful load stores
    ensures r.Ok? ==>
              r.value.host == dbCp[dbId]["host url"] &&
              r.value.database == dbCp[dbId]["database"] &&
              r.value.cpDbId == dbId &&
              r.value.cpSecretsId == secretsId
    // the port: the default only when the option is absent
    ensures r.Ok? && "port" !in dbCp[dbId] ==> r.value.port == DefaultPort
    ensures r.Ok? && "port" in dbCp[dbId] ==> ParseInt(dbCp[dbId]["port"]) == Some(r.value.port)
    // which error is raised, in the order the lookups happen
    ensures dbId !in dbCp ==> r == Err(KeyError(dbId))
    ensures dbId in dbCp && "host url" !in dbCp[dbId] ==> r == Err(KeyError("host url"))
    ensures dbId in dbCp && "host url" in dbCp[dbId] && "database" !in dbCp[dbId] ==>
              r == Err(KeyError("database"))
    ensures dbId in dbCp && "host url" in dbCp[dbId] && "database" in dbCp[dbId] &&
            "port" in dbCp[dbId] && !IsIntLiteral(dbCp[dbId]["port"]) ==>
              r == Err(ValueError(dbCp[dbId]["port"]))
  {
    match Lookup(dbCp, dbId, "host url")
    case Err(e) => Err(e)
    case Ok(host) =>
      match Lookup(dbCp, dbId, "database")
      case Err(e) => Err(e)
      case Ok(database) =>
        match GetInt(dbCp, dbId, "port", DefaultPort)
        case Err(e) => Err(e)
        case Ok(port) => Ok(ConnectionParams(host, port, database, dbId, secretsId))
  }

  /** The secrets configuration has no influence on the outcome: no username
      or password can reach the handle. */
  lemma SecretsNeverRead(dbCp: ParsedConfig, dbId: string, secretsCp1: ParsedConfig,
                         secretsCp2: ParsedConfig, secretsId: string)
    ensures LoadParams(dbCp, dbId, secretsCp1, secretsId) == LoadParams(dbCp, dbId, secretsCp2, secretsId)
  {
  }

  /** Every string a successful load stores is one of the two database
      values or one of the two section ids passed in. A restatement, as a
      set inclusion, of the `ensures` of `LoadParams` on what a successful
      load stores. */
  lemma StoredStringsComeFromInputs(dbCp: ParsedConfig, dbId: string, secretsCp: ParsedConfig,
                                    secretsId: string)
    requires LoadParams(dbCp, dbId, secretsCp, secretsId).Ok?
    ensures var p := LoadParams(dbCp, dbId, secretsCp, secretsId).value;
            {p.host, p.database, p.cpDbId, p.cpSecretsId}
              <= {dbCp[dbId]["host url"], dbCp[dbId]["database"], dbId, secretsId}
  {
  }

  /** A section written with `port = str(p)` loads with exactly port p, and a
      section without a port loads with the default. */
  lemma {:induction false} LoadWrittenSection(host: string, database: string, port: Option<int>,
                                              dbId: string, secretsCp: ParsedConfig, secretsId: string)
    ensures var section := map["host url" := host, "database" := database];
            var section' := if port.Some? then section["port" := IntToString(port.value)] else section;
            LoadParams(map[dbId := section'], dbId, secretsCp, secretsId) ==
              Ok(ConnectionParams(host, if port.Some? then port.value else DefaultPort,
                                  database, dbId, secretsId))
  {
    if port.Some? {
      ParseIntToString(port.value);
    }
  }

  /** A port that is present but is not an integer is an error; it does not
      fall back to 5432. An instance of the last `ensures` of `LoadParams`
      (a malformed port gives `ValueError` of that value). */
  lemma MalformedPortIsError(dbId: string, secretsCp: ParsedConfig, secretsId: string)
    ensures var section := map["host url" := "db.example.com", "database" := "trades", "port" := "notanumber"];
            LoadParams(map[dbId := section], dbId, secretsCp, secretsId) == Err(ValueError("notanumber"))
  {
  }

  /** The PostgreSQL database handle. */
  class DatabasePostgres {
    var host: string
    var port: int
    var database: string
    var cpDbId: string
    var cpSecretsId: string

    /** Stores the five arguments and nothing else. */
    constructor (host: string, port: int, database: string, cpDbId: string, cpSecretsId: string)
      ensures this.host == host && this.port == port && this.database == database
      ensures this.cpDbId == cpDbId && this.cpSecretsId == cpSecretsId
    {
      this.host := host;
      this.port := port;
      this.database := database;
      this.cpDbId := cpDbId;
      this.cpSecretsId := cpSecretsId;
    }

    /** The handle's fields, as a value. */
    function Params(): ConnectionParams
      reads this
    {
      ConnectionParams(host, port, database, cpDbId, cpSecretsId)
    }

    /** `load_from_config`: fills in host, database and port from section
        `dbId` of `dbCp`, records both section ids, and builds a new handle;
        the first failing lookup is returned as the error instead. */
    static method LoadFromConfig(dbCp: ParsedConfig, dbId: string, secretsCp: ParsedConfig, secretsId: string)
      returns (r: Result<DatabasePostgres, ConfigError>)
      ensures r.Ok? <==> LoadParams(dbCp, dbId, secretsCp, secretsId).Ok?
      ensures r.Ok? ==> fresh(r.value) && r.value.Params() == LoadParams(dbCp, dbId, secretsCp, secretsId).value
      ensures r.Err? ==> r.error == LoadParams(dbCp, dbId, secretsCp, secretsId).error
    {
      var host := Lookup(dbCp, dbId, "host url");
      if host.Err? {
        return Err(host.error);
      }
      var database := Lookup(dbCp, dbId, "database");
      if database.Err? {
        return Err(database.error);
      }
      var port := GetInt(dbCp, dbId, "port", DefaultPort);
      if port.Err? {
        return Err(port.error);
      }
      var handle := new DatabasePostgres(host.value, port.value, database.value, dbId, secretsId);
      r := Ok(handle);
    }

    /** Two loads from the same inputs agree on the outcome and, on success,
        give two distinct handles with equal fields. */
    static method LoadTwice(dbCp: ParsedConfig, dbId: string, secretsCp: ParsedConfig, secretsId: string)
      returns (first: Result<DatabasePostgres, ConfigError>, second: Result<DatabasePostgres, ConfigError>)
      ensures first.Ok? <==> second.Ok?
      ensures first.Ok? ==> first.value != second.value && first.value.Params() == second.value.Params()
      ensures first.Err? ==> first.error == second.error
    {
      first := LoadFromConfig(dbCp, dbId, secretsCp, secretsId);
      second := LoadFromConfig(dbCp, dbId, secretsCp, secretsId);
    }

    /** `get_type_names`: the aliases that select this backend in the
        database configuration's `type` option, in this order. */
    static function GetTypeNames(): (names: seq<string>)
      ensures |names| == 2 && names[0] == "postgres" && names[1] == "postgresql"
      ensures forall t :: t in names <==> t == "postgres" || t == "postgresql"
    {
      ["postgres", "postgresql"]
    }
  }
}
