/** The configuration document shared by the collector and the profile manager:
    the `databases` registry, the `sqlite.output_path` destination, the
    `sql_directory` and the `options` section. Only the keys the modelled code
    reads are kept. */
module ConfigFile {
  import opened Values
  import opened Outcomes
  import opened OrderedMap

  /** One connection profile, a dict such as {type, host, port, database, user, password}. */
  type Profile = Dict<string, Value>

  /** The `databases` mapping from profile name to profile. */
  type Registry = Dict<string, Profile>

  datatype SqliteSection = SqliteSection(outputPath: Option<string>)

  datatype OptionsSection = OptionsSection(logLevel: Option<string>, batchSize: Option<int>)

  /** A missing top-level key is `None`. */
  datatype Config = Config(
    databases: Option<Registry>,
    sqlite: Option<SqliteSection>,
    sqlDirectory: Option<string>,
    options: Option<OptionsSection>)

  const DefaultOutputPath: string := "../data/collected_data.db"
  const DefaultSqlDirectory: string := "sql_queries"
  const DefaultBatchSize: int := 1000

  /** The document the manager starts from when no file exists. */
  function DefaultConfig(): Config {
    Config(Some([]), Some(SqliteSection(Some(DefaultOutputPath))), Some(DefaultSqlDirectory),
           Some(OptionsSection(None, None)))
  }

  /** `profile[key]`. */
  function Lookup(p: Profile, key: string): (r: Result<Value>)
    ensures r.Ok? <==> key in Keys(p)
    ensures r.Ok? ==> Get(p, key) == Some(r.value)
    ensures r.Err? ==> r.error == KeyMissing(key)
  {
    match Get(p, key)
    case Some(v) => Ok(v)
    case None => Err(KeyMissing(key))
  }

  /** `config.get('databases', {})`. */
  function Registered(c: Config): Registry {
    c.databases.GetOr([])
  }

  /** `config['sqlite']['output_path']`. */
  function OutputPath(c: Config): (r: Result<string>)
    ensures c.sqlite.None? ==> r == Err(KeyMissing("sqlite"))
    ensures c.sqlite.Some? && c.sqlite.value.outputPath.None? ==> r == Err(KeyMissing("output_path"))
    ensures r.Ok? <==> c.sqlite.Some? && c.sqlite.value.outputPath.Some?
    ensures r.Ok? ==> r.value == c.sqlite.value.outputPath.value
  {
    match c.sqlite
    case None => Err(KeyMissing("sqlite"))
    case Some(section) =>
      match section.outputPath
      case None => Err(KeyMissing("output_path"))
      case Some(path) => Ok(path)
  }

  /** `config['sql_directory']`. */
  function SqlDirectory(c: Config): Result<string> {
    match c.sqlDirectory
    case None => Err(KeyMissing("sql_directory"))
    case Some(dir) => Ok(dir)
  }

  /** `config.get('options', {}).get('batch_size', 1000)`. */
  function BatchSize(c: Config): (b: int)
    ensures c.options.Some? && c.options.value.batchSize.Some? ==> b == c.options.value.batchSize.value
    ensures c.options.None? || c.options.value.batchSize.None? ==> b == 1000
  {
    match c.options
    case None => DefaultBatchSize
    case Some(o) => o.batchSize.GetOr(DefaultBatchSize)
  }

  /** `_load_config` of the manager: the parsed document, or the default
      document when the file does not exist. The default has an empty registry,
      the stock output path and query directory, and the stock batch size. */
  function LoadConfig(file: Option<Config>): (c: Config)
    ensures file.Some? ==> c == file.value
    ensures file.None? ==> c.databases == Some([])
    ensures file.None? ==> OutputPath(c) == Ok("../data/collected_data.db")
    ensures file.None? ==> SqlDirectory(c) == Ok("sql_queries")
    ensures file.None? ==> BatchSize(c) == 1000 && c.options == Some(OptionsSection(None, None))
  {
    file.GetOr(DefaultConfig())
  }

  const ProfileKeys: seq<string> := ["type", "host", "port", "database", "user", "password"]

  /** The engine-specific keys are not among the common ones. */
  lemma ExtraKeysAreNew()
    ensures "service_name" !in ProfileKeys && "sid" !in ProfileKeys && "trusted_connection" !in ProfileKeys
  {
  }

  /** The six entries every profile built by the menu or the web form starts
      with, in this order. */
  function BaseProfile(dbType: Value, host: Value, port: Value, database: Value, user: Value, password: Value): (p: Profile)
    ensures Keys(p) == ProfileKeys
    ensures Get(p, "type") == Some(dbType) && Get(p, "host") == Some(host) && Get(p, "port") == Some(port)
    ensures Get(p, "database") == Some(database) && Get(p, "user") == Some(user)
    ensures Get(p, "password") == Some(password)
  {
    var p: Profile := [("type", dbType), ("host", host), ("port", port),
                       ("database", database), ("user", user), ("password", password)];
    assert Keys(p) == ProfileKeys;
    GetAt(p, 0); GetAt(p, 1); GetAt(p, 2); GetAt(p, 3); GetAt(p, 4); GetAt(p, 5);
    p
  }

  /** The six common entries followed by at most one engine-specific entry
      under a key they do not use (a dict assignment of a new key appends it). */
  function NewProfile(dbType: Value, host: Value, port: Value, database: Value, user: Value, password: Value,
                      extra: Option<(string, Value)>): (p: Profile)
    requires extra.Some? ==> extra.value.0 !in ProfileKeys
    ensures Keys(p) == ProfileKeys + (if extra.Some? then [extra.value.0] else [])
    ensures Get(p, "type") == Some(dbType) && Get(p, "host") == Some(host) && Get(p, "port") == Some(port)
    ensures Get(p, "database") == Some(database) && Get(p, "user") == Some(user)
    ensures Get(p, "password") == Some(password)
    ensures extra.Some? ==> Get(p, extra.value.0) == Some(extra.value.1)
    ensures forall k :: k !in ProfileKeys ==> (k in Keys(p) <==> extra.Some? && extra.value.0 == k)
  {
    var base := BaseProfile(dbType, host, port, database, user, password);
    if extra.None? then base
    else
      var k := extra.value.0;
      assert k != "type" && k != "host" && k != "port" && k != "database" && k != "user" && k != "password";
      Set(base, k, extra.value.1)
  }
}
