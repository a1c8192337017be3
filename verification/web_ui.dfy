/** The request handlers of the web front end: the listing of the index page,
    the profile built from the add and edit forms, and the JSON replies of the
    delete and test endpoints. Templates, redirects and routing are left out. */
module WebUi {
  import opened Values
  import opened Outcomes
  import opened OrderedMap
  import opened ConfigFile
  import opened Drivers
  import opened Profiles

  /** The submitted form. A field the browser did not send is None; `port`
      is None when `int()` of the submitted text raises. */
  datatype Form = Form(
    dbName: string, dbType: Option<string>, host: Option<string>, port: Option<int>,
    database: Option<string>, user: Option<string>, password: Option<string>,
    serviceName: Option<string>, sid: Option<string>, trustedConnection: Option<string>)

  /** `data.get(field)` stored as a profile value: a missing field is stored as None. */
  function Field(o: Option<string>): Value {
    match o
    case None => Null
    case Some(s) => Str(s)
  }

  /** A form field that is present and non-empty, i.e. truthy. */
  predicate Given(o: Option<string>) {
    o.Some? && o.value != ""
  }

  /** The engine-specific entry: Oracle takes the service name when one is
      given, else the SID when one is given, else nothing; SQL Server takes
      `trusted_connection = True` when the box is ticked. */
  function FormExtra(f: Form): (x: Option<(string, Value)>)
    ensures x.Some? ==> x.value.0 !in ProfileKeys
    ensures (x.Some? && x.value.0 == "service_name") <==> f.dbType == Some("oracle") && Given(f.serviceName)
    ensures (x.Some? && x.value.0 == "sid") <==> f.dbType == Some("oracle") && !Given(f.serviceName) && Given(f.sid)
    ensures (x.Some? && x.value.0 == "trusted_connection") <==> f.dbType == Some("mssql") && Given(f.trustedConnection)
    ensures x.Some? && x.value.0 == "service_name" ==> x.value.1 == Field(f.serviceName)
    ensures x.Some? && x.value.0 == "sid" ==> x.value.1 == Field(f.sid)
    ensures x.Some? && x.value.0 == "trusted_connection" ==> x.value.1 == Bool(true)
  {
    if f.dbType == Some("oracle") then
      if Given(f.serviceName) then Some(("service_name", Field(f.serviceName)))
      else if Given(f.sid) then Some(("sid", Field(f.sid)))
      else None
    else if f.dbType == Some("mssql") && Given(f.trustedConnection) then Some(("trusted_connection", Bool(true)))
    else None
  }

  /** The `db_config` dict the add and edit handlers build once the port has
      been converted; the other fields are stored as submitted. */
  function ParsedFormProfile(f: Form, port: int): (p: Profile)
    ensures |p| >= 6 && Keys(p)[..6] == ProfileKeys && |p| <= 7
    ensures Get(p, "type") == Some(Field(f.dbType)) && Get(p, "host") == Some(Field(f.host))
    ensures Get(p, "port") == Some(Int(port)) && Get(p, "database") == Some(Field(f.database))
    ensures Get(p, "user") == Some(Field(f.user)) && Get(p, "password") == Some(Field(f.password))
    ensures "service_name" in Keys(p) <==> f.dbType == Some("oracle") && Given(f.serviceName)
    ensures "sid" in Keys(p) <==> f.dbType == Some("oracle") && !Given(f.serviceName) && Given(f.sid)
    ensures "trusted_connection" in Keys(p) <==> f.dbType == Some("mssql") && Given(f.trustedConnection)
    ensures "service_name" in Keys(p) ==> Get(p, "service_name") == Some(Field(f.serviceName))
    ensures "sid" in Keys(p) ==> Get(p, "sid") == Some(Field(f.sid))
    ensures "trusted_connection" in Keys(p) ==> Get(p, "trusted_connection") == Some(Bool(true))
  {
    var extra := FormExtra(f);
    var p := NewProfile(Field(f.dbType), Field(f.host), Int(port),
                        Field(f.database), Field(f.user), Field(f.password), extra);
    ExtraKeysAreNew();
    assert "service_name" in Keys(p) <==> extra.Some? && extra.value.0 == "service_name";
    assert "sid" in Keys(p) <==> extra.Some? && extra.value.0 == "sid";
    assert "trusted_connection" in Keys(p) <==> extra.Some? && extra.value.0 == "trusted_connection";
    p
  }

  /** Building the dict fails only when `int()` of the port raises. */
  function FormProfile(f: Form): (r: Result<Profile>)
    ensures r.Err? <==> f.port.None?
    ensures r.Err? ==> r.error == NotAnInteger("port")
    ensures r.Ok? ==> r.value == ParsedFormProfile(f, f.port.value)
  {
    if f.port.None? then Err(NotAnInteger("port"))
    else Ok(ParsedFormProfile(f, f.port.value))
  }


  /** The profile fields the index page shows next to the name. */
  const ListedFields: seq<string> := ["type", "host", "port", "database"]

  /** The keys of one row of the index page, in order. */
  const ListingKeys: seq<string> := ["name", "type", "host", "port", "database"]

  /** `row` shows profile `p` registered under `name`: the name first, then the
      listed fields with the profile's own values. */
  predicate Shows(row: Dict<string, Value>, name: string, p: Profile) {
    && Keys(row) == ListingKeys
    && Get(row, "name") == Some(Str(name))
    && Get(row, "type") == Get(p, "type") && Get(row, "host") == Get(p, "host")
    && Get(row, "port") == Get(p, "port") && Get(row, "database") == Get(p, "database")
  }

  /** The first of `fields` that `p` lacks, if any. */
  function FirstMissing(p: Profile, fields: seq<string>): (k: Option<string>)
    ensures k.None? <==> HasKeys(p, fields)
    ensures k.Some? ==> k.value in fields && k.value !in Keys(p)
    decreases |fields|
  {
    if fields == [] then None
    else if fields[0] !in Keys(p) then Some(fields[0])
    else
      var k := FirstMissing(p, fields[1..]);
      assert fields == [fields[0]] + fields[1..];
      k
  }

  lemma ListedFieldsAre()
    ensures forall k :: k in ListedFields <==> k == "type" || k == "host" || k == "port" || k == "database"
  {
  }

  /** The row dict, keys in display order. */
  function RowOf(name: string, dbType: Value, host: Value, port: Value, database: Value): (row: Dict<string, Value>)
    ensures Keys(row) == ListingKeys
    ensures Get(row, "name") == Some(Str(name)) && Get(row, "type") == Some(dbType)
    ensures Get(row, "host") == Some(host) && Get(row, "port") == Some(port) && Get(row, "database") == Some(database)
  {
    var row: Dict<string, Value> :=
      [("name", Str(name)), ("type", dbType), ("host", host), ("port", port), ("database", database)];
    assert Keys(row) == ListingKeys;
    GetAt(row, 0); GetAt(row, 1); GetAt(row, 2); GetAt(row, 3); GetAt(row, 4);
    row
  }

  /** One row of the index page; reading a listed field the profile lacks
      raises KeyError, the fields being read in display order. */
  function ListingRow(name: string, p: Profile): (r: Result<Dict<string, Value>>)
    ensures r.Ok? <==> HasKeys(p, ListedFields)
    ensures r.Ok? ==> Shows(r.value, name, p)
    ensures r.Err? ==> r.error == KeyMissing(FirstMissing(p, ListedFields).value)
  {
    match FirstMissing(p, ListedFields)
    case Some(k) => Err(KeyMissing(k))
    case None =>
      ListedFieldsAre();
      var row := RowOf(name, Get(p, "type").value, Get(p, "host").value,
                       Get(p, "port").value, Get(p, "database").value);
      Ok(row)
  }

  /** Position of the first entry whose profile lacks a listed field, or the
      number of entries when there is none. */
  function FirstUnlisted(entries: seq<(string, Profile)>): (i: nat)
    ensures i <= |entries|
    ensures i < |entries| ==> !HasKeys(entries[i].1, ListedFields)
    ensures forall j :: 0 <= j < i ==> HasKeys(entries[j].1, ListedFields)
    decreases |entries|
  {
    if entries == [] then 0
    else if !HasKeys(entries[0].1, ListedFields) then 0
    else
      var i := FirstUnlisted(entries[1..]);
      assert forall j :: 1 <= j < |entries| ==> entries[j] == entries[1..][j - 1];
      1 + i
  }

  /** The rows for a run of registry entries, in order; the first profile that
      lacks a listed field aborts the page with that field's KeyError. */
  function Listing(entries: seq<(string, Profile)>): (r: Result<seq<Dict<string, Value>>>)
    ensures r.Ok? <==> FirstUnlisted(entries) == |entries|
    ensures r.Ok? ==> |r.value| == |entries|
    ensures r.Ok? ==> forall i :: 0 <= i < |entries| ==> Shows(r.value[i], entries[i].0, entries[i].1)
    ensures r.Err? ==> r.error == KeyMissing(FirstMissing(entries[FirstUnlisted(entries)].1, ListedFields).value)
    decreases |entries|
  {
    if entries == [] then Ok([])
    else
      var first := ListingRow(entries[0].0, entries[0].1);
      if first.Err? then Err(first.error)
      else
        var rest := Listing(entries[1..]);
        var tail := FirstUnlisted(entries[1..]);
        assert FirstUnlisted(entries) == 1 + tail;
        if rest.Err? then
          assert entries[1 + tail] == entries[1..][tail];
          Err(rest.error)
        else
          ShowsCons(first.value, rest.value, entries);
          Ok([first.value] + rest.value)
  }

  lemma ShowsCons(row: Dict<string, Value>, rows: seq<Dict<string, Value>>, entries: seq<(string, Profile)>)
    requires |entries| > 0 && |rows| == |entries| - 1 && Shows(row, entries[0].0, entries[0].1)
    requires forall i :: 0 <= i < |rows| ==> Shows(rows[i], entries[1..][i].0, entries[1..][i].1)
    ensures forall i :: 0 <= i < |entries| ==> Shows(([row] + rows)[i], entries[i].0, entries[i].1)
  {
    forall i | 0 <= i < |entries| ensures Shows(([row] + rows)[i], entries[i].0, entries[i].1) {
      if i > 0 {
        assert ([row] + rows)[i] == rows[i - 1];
        assert entries[i] == entries[1..][i - 1];
      }
    }
  }

  /** `index`: one row per registered profile, in listing order, each showing
      the profile registered under its name; a profile lacking a listed field
      makes the page fail. */
  function Index(c: Config): (r: Result<seq<Dict<string, Value>>>)
    ensures r.Ok? <==> forall i :: 0 <= i < |Registered(c)| ==> HasKeys(Registered(c)[i].1, ListedFields)
    ensures r.Ok? ==> |r.value| == |ListDatabases(c)|
    ensures r.Ok? ==> forall i :: 0 <= i < |r.value| ==>
      GetDatabase(c, ListDatabases(c)[i]) == Some(Registered(c)[i].1)
      && Shows(r.value[i], ListDatabases(c)[i], Registered(c)[i].1)
    ensures r.Err? ==> r.error.KeyMissing? && r.error.key in ListedFields
  {
    var reg := Registered(c);
    RegistryPositions(c);
    var r := Listing(reg);
    if r.Err? then
      assert FirstMissing(reg[FirstUnlisted(reg)].1, ListedFields).Some?;
      r
    else
      r
  }

  /** POST /add: registers the form's profile under the submitted name, a new
      name at the end of the listing, an existing one replaced in place. */
  function AddPost(c: Config, f: Form): (r: Result<Config>)
    ensures r.Err? <==> f.port.None?
    ensures r.Err? ==> r.error == NotAnInteger("port")
    ensures r.Ok? ==> GetDatabase(r.value, f.dbName) == Some(ParsedFormProfile(f, f.port.value))
    ensures r.Ok? ==> forall other :: other != f.dbName ==> GetDatabase(r.value, other) == GetDatabase(c, other)
    ensures r.Ok? && f.dbName !in ListDatabases(c) ==> ListDatabases(r.value) == ListDatabases(c) + [f.dbName]
    ensures r.Ok? && f.dbName in ListDatabases(c) ==> ListDatabases(r.value) == ListDatabases(c)
  {
    var p :- FormProfile(f);
    Ok(AddDatabase(c, f.dbName, p))
  }

  /** POST /edit/<name>: the port is converted before the registry is
      consulted, so a bad port is reported even for an unknown name; an
      unknown name raises ValueError; otherwise the profile is replaced in place. */
  function EditPost(c: Config, name: string, f: Form): (r: Result<Config>)
    ensures r.Err? <==> f.port.None? || name !in ListDatabases(c)
    ensures f.port.None? ==> r == Err(NotAnInteger("port"))
    ensures f.port.Some? && name !in ListDatabases(c) ==> r == Err(NotRegistered(name))
    ensures r.Ok? ==> GetDatabase(r.value, name) == Some(ParsedFormProfile(f, f.port.value))
    ensures r.Ok? ==> forall other :: other != name ==> GetDatabase(r.value, other) == GetDatabase(c, other)
    ensures r.Ok? ==> ListDatabases(r.value) == ListDatabases(c)
  {
    var p :- FormProfile(f);
    UpdateDatabase(c, name, p)
  }

  /** The JSON body of the delete and test endpoints. */
  datatype Reply = Reply(success: bool, error: Option<Error>)

  /** POST /delete/<name>: success with the name gone, or the ValueError for
      an unknown name with nothing changed. */
  function DeletePost(c: Config, name: string): (r: (Config, Reply))
    ensures r.1.success <==> name in ListDatabases(c)
    ensures !r.1.success ==> r.0 == c && r.1.error == Some(NotRegistered(name))
    ensures r.1.success ==> r.1.error.None? && GetDatabase(r.0, name).None? && name !in ListDatabases(r.0)
    ensures r.1.success ==> |ListDatabases(r.0)| == |ListDatabases(c)| - 1
    ensures forall other :: other != name ==> GetDatabase(r.0, other) == GetDatabase(c, other)
  {
    match DeleteDatabase(c, name)
    case Ok(d) => (d, Reply(true, None))
    case Err(e) => (c, Reply(false, Some(e)))
  }

  /** POST /test/<name>: success exactly when the registered profile yields a
      dial request that the driver accepts. */
  function TestPost(c: Config, name: string, dial: Dialer): (r: Reply)
    ensures r.error.None?
    ensures r.success <==> GetDatabase(c, name).Some? && ProbeTarget(GetDatabase(c, name).value).Ok?
                           && dial(ProbeTarget(GetDatabase(c, name).value).value)
  {
    Reply(TestConnection(c, name, dial).connected, None)
  }

  /** POST /test/<name> on `test_connection` as written: the route has no
      error handling of its own, so the KeyError a registered, non-empty
      profile without `type` raises escapes it (an HTTP 500 page rather than
      a JSON reply). Every other request gets the reply `TestPost` gives. */
  function TestPostAsWritten(c: Config, name: string, dial: Dialer): (r: Result<Reply>)
    ensures r.Err? <==> GetDatabase(c, name).Some? && GetDatabase(c, name).value != []
                        && "type" !in Keys(GetDatabase(c, name).value)
    ensures r.Err? ==> r.error == KeyMissing("type")
    ensures r.Ok? ==> r.value == TestPost(c, name, dial)
  {
    var probe :- TestConnectionAsWritten(c, name, dial);
    Ok(Reply(probe.connected, None))
  }

  /** A form profile for a supported engine can always be tested, except an
      Oracle profile submitted with neither a service name nor a SID, which
      carries no connect descriptor and fails with KeyError before dialing. */
  lemma FormProfileDialable(f: Form, port: int)
    requires f.dbType.Some? && f.dbType.value in ["postgresql", "mysql", "oracle", "mssql"]
    ensures ProbeTarget(ParsedFormProfile(f, port)).Ok? <==>
      (f.dbType.value == "oracle" ==> Given(f.serviceName) || Given(f.sid))
  {
    var p := ParsedFormProfile(f, port);
    CommonKeysPresent(p);
    assert Lookup(p, "type") == Ok(Str(f.dbType.value));
    assert ProbeSupported(Str(f.dbType.value));
  }
}
