/** The data computed by the text menu: the profile built from the answers of
    `interactive_add_database`, and the masked detail view of `main_menu`.
    Prompts and printing are left out; answers arrive already stripped. */
module Menu {
  import opened Values
  import opened Outcomes
  import opened OrderedMap
  import opened ConfigFile
  import opened Drivers
  import opened Profiles

  datatype Engine = PostgreSQL | MySQL | Oracle | MSSQL

  /** The engine tag stored under `type`. */
  function TypeTag(e: Engine): string {
    match e
    case PostgreSQL => "postgresql"
    case MySQL => "mysql"
    case Oracle => "oracle"
    case MSSQL => "mssql"
  }

  /** `db_type_map.get(choice)`: menu entries 1 to 4; anything else aborts. */
  function EngineForChoice(choice: string): Option<Engine> {
    if choice == "1" then Some(PostgreSQL)
    else if choice == "2" then Some(MySQL)
    else if choice == "3" then Some(Oracle)
    else if choice == "4" then Some(MSSQL)
    else None
  }

  /** `default_ports[db_type]`. */
  function DefaultPort(e: Engine): int {
    match e
    case PostgreSQL => 5432
    case MySQL => 3306
    case Oracle => 1521
    case MSSQL => 1433
  }

  /** The menu offers exactly four entries, one per engine, and the tag it
      stores identifies the engine; each engine has its own default port. */
  lemma {:induction false} ChoicesCoverEngines(choice: string)
    ensures EngineForChoice(choice).Some? <==> choice in ["1", "2", "3", "4"]
    ensures forall e: Engine :: EngineForChoice([(('0' as int) + EngineOrdinal(e)) as char]) == Some(e)
    ensures forall e1: Engine, e2: Engine :: TypeTag(e1) == TypeTag(e2) ==> e1 == e2
    ensures forall e1: Engine, e2: Engine :: DefaultPort(e1) == DefaultPort(e2) ==> e1 == e2
  {
    forall e: Engine ensures EngineForChoice([(('0' as int) + EngineOrdinal(e)) as char]) == Some(e) {
      match e
      case PostgreSQL => assert [(('0' as int) + 1) as char] == "1";
      case MySQL => assert [(('0' as int) + 2) as char] == "2";
      case Oracle => assert [(('0' as int) + 3) as char] == "3";
      case MSSQL => assert [(('0' as int) + 4) as char] == "4";
    }
  }

  /** Position of the engine in the menu listing. */
  function EngineOrdinal(e: Engine): nat {
    match e
    case PostgreSQL => 1
    case MySQL => 2
    case Oracle => 3
    case MSSQL => 4
  }

  /** The port answer as `int()` sees it: empty, a number, or text it rejects. */
  datatype PortAnswer = Blank | Number(n: int) | NotNumber

  /** The stripped answers, in prompt order. */
  datatype Answers = Answers(
    name: string, typeChoice: string, host: string, port: PortAnswer,
    database: string, user: string, password: string,
    oracleMode: string, oracleValue: string, windowsAuth: string)

  /** `input(...).strip().lower() == 'y'`. */
  predicate SaysYes(answer: string) {
    answer == "y" || answer == "Y"
  }

  /** The engine-specific entry the menu adds after the six common ones. */
  function MenuExtra(e: Engine, a: Answers): (x: Option<(string, Value)>)
    ensures x.Some? ==> x.value.0 !in ProfileKeys
    ensures (x.Some? && x.value.0 == "service_name") <==> e == Oracle && (a.oracleMode == "" || a.oracleMode == "1")
    ensures (x.Some? && x.value.0 == "sid") <==> e == Oracle && a.oracleMode != "" && a.oracleMode != "1"
    ensures (x.Some? && x.value.0 == "trusted_connection") <==> e == MSSQL && SaysYes(a.windowsAuth)
    ensures x.Some? && (x.value.0 == "service_name" || x.value.0 == "sid") ==> x.value.1 == Str(a.oracleValue)
    ensures x.Some? && x.value.0 == "trusted_connection" ==> x.value.1 == Bool(true)
  {
    if e == Oracle then
      if a.oracleMode == "" || a.oracleMode == "1" then Some(("service_name", Str(a.oracleValue)))
      else Some(("sid", Str(a.oracleValue)))
    else if e == MSSQL && SaysYes(a.windowsAuth) then Some(("trusted_connection", Bool(true)))
    else None
  }

  /** The profile `interactive_add_database` builds once the engine is known.
      An empty host answer means "localhost" and an empty port answer means the
      engine's default port. An Oracle profile always gets exactly one of
      `service_name` (mode "1", the default) or `sid`, even when that answer is
      empty. SQL Server gets `trusted_connection` only on a yes. */
  function AnswersProfile(e: Engine, a: Answers): (p: Profile)
    requires !a.port.NotNumber?
    ensures |p| >= 6 && Keys(p)[..6] == ProfileKeys && |p| <= 7
    ensures Get(p, "type") == Some(Str(TypeTag(e)))
    ensures Get(p, "host") == Some(Str(if a.host == "" then "localhost" else a.host))
    ensures a.port.Blank? ==> Get(p, "port") == Some(Int(DefaultPort(e)))
    ensures a.port.Number? ==> Get(p, "port") == Some(Int(a.port.n))
    ensures Get(p, "database") == Some(Str(a.database)) && Get(p, "user") == Some(Str(a.user))
    ensures Get(p, "password") == Some(Str(a.password))
    ensures "service_name" in Keys(p) <==> e == Oracle && (a.oracleMode == "" || a.oracleMode == "1")
    ensures "sid" in Keys(p) <==> e == Oracle && a.oracleMode != "" && a.oracleMode != "1"
    ensures "trusted_connection" in Keys(p) <==> e == MSSQL && SaysYes(a.windowsAuth)
    ensures "service_name" in Keys(p) ==> Get(p, "service_name") == Some(Str(a.oracleValue))
    ensures "sid" in Keys(p) ==> Get(p, "sid") == Some(Str(a.oracleValue))
    ensures "trusted_connection" in Keys(p) ==> Get(p, "trusted_connection") == Some(Bool(true))
  {
    var extra := MenuExtra(e, a);
    var p := NewProfile(
      Str(TypeTag(e)), Str(if a.host == "" then "localhost" else a.host),
      Int(if a.port.Number? then a.port.n else DefaultPort(e)), Str(a.database), Str(a.user), Str(a.password), extra);
    ExtraKeysAreNew();
    p
  }

  /** `interactive_add_database` up to the registration: it returns without
      registering on an empty name or an unknown menu entry, raises ValueError
      when `int()` rejects the port answer, and otherwise registers the built
      profile under the given name. */
  function MenuProfile(a: Answers): (r: Result<Option<(string, Profile)>>)
    ensures r == Ok(None) <==> a.name == "" || EngineForChoice(a.typeChoice).None?
    ensures r.Err? <==> a.name != "" && EngineForChoice(a.typeChoice).Some? && a.port.NotNumber?
    ensures r.Err? ==> r.error == NotAnInteger("port")
    ensures r.Ok? && r.value.Some? ==> r.value.value == (a.name, AnswersProfile(EngineForChoice(a.typeChoice).value, a))
  {
    var e := EngineForChoice(a.typeChoice);
    if a.name == "" || e.None? then Ok(None)
    else if a.port.NotNumber? then Err(NotAnInteger("port"))
    else Ok(Some((a.name, AnswersProfile(e.value, a))))
  }

  /** `interactive_add_database` on the loaded document: nothing changes when
      it returns early, the ValueError of a bad port escapes, and otherwise
      the profile is registered like any `add_database`. */
  function InteractiveAdd(c: Config, a: Answers): (r: Result<Config>)
    ensures r.Err? <==> MenuProfile(a).Err?
    ensures r.Err? ==> r.error == NotAnInteger("port")
    ensures MenuProfile(a) == Ok(None) ==> r == Ok(c)
    ensures MenuProfile(a).Ok? && MenuProfile(a).value.Some? ==>
      var (name, p) := MenuProfile(a).value.value;
      r.Ok? && GetDatabase(r.value, name) == Some(p)
      && (forall other :: other != name ==> GetDatabase(r.value, other) == GetDatabase(c, other))
      && (name !in ListDatabases(c) ==> ListDatabases(r.value) == ListDatabases(c) + [name])
      && (name in ListDatabases(c) ==> ListDatabases(r.value) == ListDatabases(c))
  {
    var entry :- MenuProfile(a);
    match entry
    case None => Ok(c)
    case Some((name, p)) => Ok(AddDatabase(c, name, p))
  }

  /** `main_menu` option 3: every entry of the profile in order, the password
      replaced by as many '*' as `str(password)` has characters. */
  function DetailView(p: Profile): (lines: seq<(string, string)>)
    ensures Keys(lines) == Keys(p)
    ensures forall i :: 0 <= i < |p| && p[i].0 == "password" ==>
      |lines[i].1| == |Render(p[i].1)| && forall j :: 0 <= j < |lines[i].1| ==> lines[i].1[j] == '*'
    ensures forall i :: 0 <= i < |p| && p[i].0 != "password" ==> lines[i].1 == Render(p[i].1)
  {
    seq(|p|, i requires 0 <= i < |p| =>
      (p[i].0, if p[i].0 == "password" then Mask(p[i].1) else Render(p[i].1)))
  }

  /** The shown password never differs in length from the stored one, and an
      integer password is masked by as many '*' as it has decimal characters. */
  lemma {:induction false} MaskedPasswordLength(p: Profile, pw: Value)
    requires Get(p, "password") == Some(pw)
    ensures exists i :: 0 <= i < |p| && DetailView(p)[i] == ("password", Mask(pw))
    ensures |Mask(pw)| == |Render(pw)|
    ensures pw.Int? && pw.i >= 0 ==> |Mask(pw)| == |NatToString(pw.i)|
  {
    var i := IndexOf(p, "password");
    assert p[i] == ("password", pw);
    assert DetailView(p)[i] == ("password", Mask(pw));
  }

  /** Every profile the menu builds can be tested: it carries all the keys
      the engine's dial needs, and an Oracle profile dials by service name
      exactly when that mode was chosen. */
  lemma MenuProfileDialable(e: Engine, a: Answers)
    requires !a.port.NotNumber?
    ensures ProbeTarget(AnswersProfile(e, a)).Ok?
    ensures e == Oracle ==> (ProbeTarget(AnswersProfile(e, a)).Ok? && ProbeTarget(AnswersProfile(e, a)).value.CxOracle? &&
      (ProbeTarget(AnswersProfile(e, a)).value.dsn.ServiceDsn? <==> a.oracleMode == "" || a.oracleMode == "1"))
  {
    var p := AnswersProfile(e, a);
    CommonKeysPresent(p);
    assert Lookup(p, "type") == Ok(Str(TypeTag(e)));
    assert ProbeSupported(Str(TypeTag(e)));
  }
}
