/** The connection-profile registry (`DBConfigManager`): CRUD over the
    insertion-ordered `databases` mapping and the live connection test. Every
    successful mutation is written back to the file; the model returns the new
    document and leaves the write out. */
module Profiles {
  import opened Values
  import opened Outcomes
  import opened OrderedMap
  import opened ConfigFile
  import opened Drivers

  /** `list_databases`: profile names in insertion order, each registered
      name exactly once. */
  function ListDatabases(c: Config): (names: seq<string>)
    ensures |names| == |Registered(c)|
    ensures forall name :: name in names <==> Get(Registered(c), name).Some?
    ensures forall i, j :: 0 <= i < j < |names| ==> names[i] != names[j]
  {
    Keys(Registered(c))
  }

  /** `get_database`: the profile, or None for an unknown name. */
  function GetDatabase(c: Config, name: string): (r: Option<Profile>)
    ensures r.Some? <==> name in ListDatabases(c)
    ensures r.Some? ==> (name, r.value) in Registered(c)
  {
    Get(Registered(c), name)
  }

  /** Everything outside the registry is left as it was. */
  predicate SameSettings(c: Config, d: Config) {
    c.sqlite == d.sqlite && c.sqlDirectory == d.sqlDirectory && c.options == d.options
  }

  /** `add_database`: registers or overwrites `name`. A new name goes to the
      end of the listing; an existing name keeps its place. */
  function AddDatabase(c: Config, name: string, p: Profile): (r: Config)
    ensures GetDatabase(r, name) == Some(p)
    ensures forall other :: other != name ==> GetDatabase(r, other) == GetDatabase(c, other)
    ensures name in ListDatabases(c) ==> ListDatabases(r) == ListDatabases(c)
    ensures name !in ListDatabases(c) ==> ListDatabases(r) == ListDatabases(c) + [name]
    ensures r.databases.Some? && SameSettings(c, r)
  {
    c.(databases := Some(Set(Registered(c), name, p)))
  }

  /** `update_database`: replaces the profile of a registered name in place;
      an unknown name raises ValueError and nothing changes. */
  function UpdateDatabase(c: Config, name: string, p: Profile): (r: Result<Config>)
    ensures r.Err? <==> name !in ListDatabases(c)
    ensures r.Err? ==> r.error == NotRegistered(name)
    ensures r.Ok? ==> GetDatabase(r.value, name) == Some(p)
    ensures r.Ok? ==> forall other :: other != name ==> GetDatabase(r.value, other) == GetDatabase(c, other)
    ensures r.Ok? ==> ListDatabases(r.value) == ListDatabases(c) && SameSettings(c, r.value)
  {
    if name !in ListDatabases(c) then Err(NotRegistered(name))
    else Ok(c.(databases := Some(Set(Registered(c), name, p))))
  }

  /** `delete_database`: drops a registered name, the others keeping their
      relative order; an unknown name raises ValueError and nothing changes. */
  function DeleteDatabase(c: Config, name: string): (r: Result<Config>)
    ensures r.Err? <==> name !in ListDatabases(c)
    ensures r.Err? ==> r.error == NotRegistered(name)
    ensures r.Ok? ==> GetDatabase(r.value, name).None?
    ensures r.Ok? ==> forall other :: other != name ==> GetDatabase(r.value, other) == GetDatabase(c, other)
    ensures r.Ok? ==> var i := IndexOf(Registered(c), name);
      ListDatabases(r.value) == ListDatabases(c)[..i] + ListDatabases(c)[i + 1..]
    ensures r.Ok? ==> SameSettings(c, r.value)
  {
    if name !in ListDatabases(c) then Err(NotRegistered(name))
    else Ok(c.(databases := Some(Remove(Registered(c), name))))
  }

  /** The i-th listed name is the key of the i-th registry entry, and looking
      it up finds that entry's profile. */
  lemma RegistryPositions(c: Config)
    ensures |ListDatabases(c)| == |Registered(c)|
    ensures forall i :: 0 <= i < |Registered(c)| ==>
      ListDatabases(c)[i] == Registered(c)[i].0 && GetDatabase(c, ListDatabases(c)[i]) == Some(Registered(c)[i].1)
  {
    var reg := Registered(c);
    forall i | 0 <= i < |reg|
      ensures ListDatabases(c)[i] == reg[i].0 && GetDatabase(c, ListDatabases(c)[i]) == Some(reg[i].1)
    {
      GetAt(reg, i);
    }
  }

  /** A default document lists no profile. */
  lemma FreshConfigIsEmpty()
    ensures ListDatabases(LoadConfig(None)) == []
    ensures forall name :: GetDatabase(LoadConfig(None), name).None?
  {
  }

  predicate HasKeys(p: Profile, keys: seq<string>) {
    forall k :: k in keys ==> k in Keys(p)
  }

  /** The common keys sit at the front of a built profile. */
  lemma CommonKeysPresent(p: Profile)
    requires |p| >= 6 && Keys(p)[..6] == ProfileKeys
    ensures HasKeys(p, ["host", "port", "database", "user", "password"])
    ensures HasKeys(p, ["host", "port", "user", "password"])
  {
    assert forall k :: k in ProfileKeys ==> k in Keys(p) by {
      forall k | k in ProfileKeys ensures k in Keys(p) {
        var i :| 0 <= i < 6 && ProfileKeys[i] == k;
        assert Keys(p)[i] == k;
      }
    }
  }

  /** The connection settings of a profile. */
  datatype Endpoint = Endpoint(host: Value, port: Value, database: Value, user: Value, password: Value)

  /** `host`, `port`, `database`, `user` and `password` read in this order,
      as both dispatchers do for the engines that take all five; the first
      one missing raises KeyError. */
  function ReadEndpoint(p: Profile): (r: Result<Endpoint>)
    ensures r.Ok? <==> HasKeys(p, ["host", "port", "database", "user", "password"])
    ensures r.Ok? ==> Get(p, "host") == Some(r.value.host) && Get(p, "port") == Some(r.value.port)
    ensures r.Ok? ==> Get(p, "database") == Some(r.value.database) && Get(p, "user") == Some(r.value.user)
    ensures r.Ok? ==> Get(p, "password") == Some(r.value.password)
    ensures r.Err? ==> r.error.KeyMissing? && r.error.key in ["host", "port", "database", "user", "password"]
  {
    var host :- Lookup(p, "host");
    var port :- Lookup(p, "port");
    var database :- Lookup(p, "database");
    var user :- Lookup(p, "user");
    var password :- Lookup(p, "password");
    Ok(Endpoint(host, port, database, user, password))
  }

  /** The engine tags `test_connection` knows how to dial. */
  predicate ProbeSupported(dbType: Value) {
    dbType in {Str("postgresql"), Str("mysql"), Str("oracle"), Str("mssql")}
  }

  /** The dial request `test_connection` builds inside its try block. A missing
      key (KeyError) or an unknown engine tag ends the attempt before any dial.
      Oracle takes `service_name` whenever that key is present, and `sid`
      otherwise. */
  function ProbeRequest(p: Profile, dbType: Value): (r: Result<DialRequest>)
    ensures !ProbeSupported(dbType) ==> r == Err(UnsupportedType(dbType))
    ensures ProbeSupported(dbType) && dbType != Str("oracle") ==>
      (r.Ok? <==> HasKeys(p, ["host", "port", "database", "user", "password"]))
    ensures dbType == Str("oracle") ==>
      (r.Ok? <==> HasKeys(p, ["host", "port", "user", "password"]) && ("service_name" in Keys(p) || "sid" in Keys(p)))
    ensures r.Ok? && dbType == Str("postgresql") ==> r.value.Psycopg?
    ensures r.Ok? && dbType == Str("mysql") ==> r.value.PyMySql?
    ensures r.Ok? && dbType == Str("mssql") ==> r.value.PyOdbc?
    ensures r.Ok? && dbType == Str("oracle") ==> r.value.CxOracle?
    ensures r.Ok? && r.value.CxOracle? ==> (r.value.dsn.ServiceDsn? <==> "service_name" in Keys(p))
    ensures r.Ok? && r.value.CxOracle? && r.value.dsn.ServiceDsn? ==>
      Get(p, "service_name") == Some(r.value.dsn.serviceName)
    ensures r.Ok? && r.value.CxOracle? && r.value.dsn.SidDsn? ==> Get(p, "sid") == Some(r.value.dsn.sid)
    ensures r.Ok? && r.value.CxOracle? ==>
      Get(p, "host") == Some(r.value.dsn.host) && Get(p, "port") == Some(r.value.dsn.port)
      && Get(p, "user") == Some(r.value.user) && Get(p, "password") == Some(r.value.password)
    ensures r.Ok? && (r.value.Psycopg? || r.value.PyMySql?) ==>
      ReadEndpoint(p) == Ok(Endpoint(r.value.host, r.value.port, r.value.database, r.value.user, r.value.password))
    ensures r.Ok? && r.value.PyOdbc? ==> ReadEndpoint(p).Ok?
    ensures r.Ok? && r.value.PyOdbc? ==> var e := ReadEndpoint(p).value;
      r.value.connectionString == OdbcConnectionString(e.host, e.port, e.database, e.user, e.password)
  {
    if dbType == Str("postgresql") then
      var e :- ReadEndpoint(p);
      Ok(Psycopg(e.host, e.port, e.database, e.user, e.password))
    else if dbType == Str("mysql") then
      var e :- ReadEndpoint(p);
      Ok(PyMySql(e.host, e.port, e.database, e.user, e.password))
    else if dbType == Str("oracle") then
      var host :- Lookup(p, "host");
      var port :- Lookup(p, "port");
      var dsn :- if "service_name" in Keys(p) then
                   Ok(ServiceDsn(host, port, Get(p, "service_name").value))
                 else
                   var sid :- Lookup(p, "sid");
                   Ok(SidDsn(host, port, sid));
      var user :- Lookup(p, "user");
      var password :- Lookup(p, "password");
      Ok(CxOracle(user, password, dsn))
    else if dbType == Str("mssql") then
      var e :- ReadEndpoint(p);
      Ok(PyOdbc(OdbcConnectionString(e.host, e.port, e.database, e.user, e.password)))
    else
      Err(UnsupportedType(dbType))
  }

  /** The outcome of a connection test: whether it connected, and what (if
      anything) was dialed. */
  datatype Probe = Probe(connected: bool, dialed: Option<DialRequest>)

  /** What a test of profile `p` dials, if anything. */
  function ProbeTarget(p: Profile): (r: Result<DialRequest>)
    ensures "type" !in Keys(p) ==> r == Err(KeyMissing("type"))
    ensures Get(p, "type").Some? ==> r == ProbeRequest(p, Get(p, "type").value)
  {
    var dbType :- Lookup(p, "type");
    ProbeRequest(p, dbType)
  }

  /** `test_connection` with the engine tag read inside the error handling, so
      that it never raises: False for an unknown name or an empty profile
      (before any dial), for a missing key, for an unsupported engine and for a
      failed dial; True only when the dial succeeds. */
  function TestConnection(c: Config, name: string, dial: Dialer): (r: Probe)
    ensures GetDatabase(c, name).None? ==> r == Probe(false, None)
    ensures r.connected ==> r.dialed.Some? && dial(r.dialed.value)
    ensures r.dialed.Some? ==> r.connected == dial(r.dialed.value)
    ensures r.dialed.Some? <==> GetDatabase(c, name).Some? && ProbeTarget(GetDatabase(c, name).value).Ok?
    ensures r.dialed.Some? ==> ProbeTarget(GetDatabase(c, name).value) == Ok(r.dialed.value)
  {
    match GetDatabase(c, name)
    case None => Probe(false, None)
    case Some(p) =>
      if p == [] then Probe(false, None)
      else
        match ProbeTarget(p)
        case Err(_) => Probe(false, None)
        case Ok(req) => Probe(dial(req), Some(req))
  }

  /** `test_connection` as written: `db_config['type']` is read before the try
      block, so a non-empty profile without a `type` key raises KeyError instead
      of returning False. Otherwise it agrees with `TestConnection`. */
  function TestConnectionAsWritten(c: Config, name: string, dial: Dialer): (r: Result<Probe>)
    ensures r.Err? <==> GetDatabase(c, name).Some? && GetDatabase(c, name).value != []
                        && "type" !in Keys(GetDatabase(c, name).value)
    ensures r.Err? ==> r.error == KeyMissing("type")
    ensures r.Ok? ==> r.value == TestConnection(c, name, dial)
  {
    match GetDatabase(c, name)
    case None => Ok(Probe(false, None))
    case Some(p) =>
      if p == [] then Ok(Probe(false, None))
      else
        var dbType :- Lookup(p, "type");
        match ProbeRequest(p, dbType)
        case Err(_) => Ok(Probe(false, None))
        case Ok(req) => Ok(Probe(dial(req), Some(req)))
  }

  /** A registry whose only profile lacks `type`. */
  function TypelessRegistry(): Config {
    Config(Some([("src", [("host", Str("db.internal"))])]), None, None, None)
  }

  /** The counterexample: testing that profile raises as written, while the
      corrected test reports a plain failure without dialing. */
  lemma TypelessProfileRaises(dial: Dialer)
    ensures TestConnectionAsWritten(TypelessRegistry(), "src", dial) == Err(KeyMissing("type"))
    ensures TestConnection(TypelessRegistry(), "src", dial) == Probe(false, None)
  {
    var c := TypelessRegistry();
    assert GetDatabase(c, "src") == Some([("host", Str("db.internal"))]);
    assert "type" !in Keys([("host", Str("db.internal"))]);
  }
}
