/** `DBCollector`: runs every query file of the SQL directory against one
    source profile and copies each result set into a table of the SQLite
    destination named after the file. The source database and the file system
    are parameters; the destination is a `Destination.Store`. */
module Collector {
  import opened Values
  import opened Outcomes
  import opened OrderedMap
  import opened ConfigFile
  import opened Drivers
  import opened Profiles
  import opened Paths
  import opened Batching
  import opened Destination

  /** The `sqlite_conn` attribute: never opened, open on a store, or closed.
      `close()` does not reset the attribute, so a closed connection stays in
      place and every later save runs into it. */
  datatype SqliteConn = NoConn | OpenConn(store: Store) | ClosedConn

  /** The collector: its configuration, its destination connection, and the
      destination file as of the last open or close. While a connection is
      open, each commit goes to that connection's `durable` view, and `file`
      is the snapshot it was opened on; `close()` writes the committed tables
      back to `file`. */
  datatype Collector = Collector(config: Config, conn: SqliteConn, file: map<string, Table>)

  /** `connect_sqlite` as written: `os.makedirs(os.path.dirname(path))` runs
      even when the directory part is empty, and `os.makedirs('')` raises, so
      an output path that is a bare file name can never be opened. */
  function ConnectSqliteAsWritten(c: Collector): (r: Result<Collector>)
    ensures r.Err? <==> OutputPath(c.config).Err? || '/' !in OutputPath(c.config).value
    ensures OutputPath(c.config).Err? ==> r == Err(OutputPath(c.config).error)
    ensures OutputPath(c.config).Ok? && r.Err? ==> r.error == NoSuchDirectory("")
    ensures r.Ok? ==> r == ConnectSqlite(c)
  {
    var path :- OutputPath(c.config);
    DirNameEmpty(path);
    if DirName(path) == "" then Err(NoSuchDirectory(""))
    else Ok(c.(conn := OpenConn(Open(c.file))))
  }

  /** `connect_sqlite` creating the directory only when the path names one:
      the output path is read (KeyError when absent) and the destination file
      is opened on its committed tables, with no transaction open. */
  function ConnectSqlite(c: Collector): (r: Result<Collector>)
    ensures r.Err? <==> OutputPath(c.config).Err?
    ensures r.Err? ==> r.error == OutputPath(c.config).error
    ensures r.Ok? ==> r.value.conn.OpenConn? && r.value.config == c.config && r.value.file == c.file
    ensures r.Ok? ==> r.value.conn.store.live == c.file && r.value.conn.store.durable == c.file
    ensures r.Ok? ==> !r.value.conn.store.inTxn
  {
    var path :- OutputPath(c.config);
    Ok(c.(conn := OpenConn(Open(c.file))))
  }

  /** A collector whose output path is the bare file name "collected.db". */
  function BareFileCollector(): Collector {
    Collector(Config(None, Some(SqliteSection(Some("collected.db"))), None, None), NoConn, map[])
  }

  /** The counterexample: as written, opening "collected.db" raises, while
      the corrected connect opens it in the working directory. */
  lemma BareFileNameRaises()
    ensures ConnectSqliteAsWritten(BareFileCollector()) == Err(NoSuchDirectory(""))
    ensures ConnectSqlite(BareFileCollector()).Ok?
  {
    var c := BareFileCollector();
    assert OutputPath(c.config) == Ok("collected.db");
    assert '/' !in "collected.db";
  }

  /** `get_source_connection` up to the driver call: the profile is
      `config['databases'][db_name]` and its `type` is read first (each a
      KeyError when absent); PostgreSQL and MySQL then read host, port,
      database, user and password in that order; any other engine is a
      ValueError. */
  function SourceRequest(config: Config, dbName: string): (r: Result<DialRequest>)
    ensures config.databases.None? ==> r == Err(KeyMissing("databases"))
    ensures config.databases.Some? && Get(config.databases.value, dbName).None? ==> r == Err(KeyMissing(dbName))
    ensures r.Ok? ==> config.databases.Some? && Get(config.databases.value, dbName).Some?
    ensures r.Ok? ==> var p := Get(config.databases.value, dbName).value;
      (r.value.Psycopg? && Get(p, "type") == Some(Str("postgresql")))
      || (r.value.PyMySql? && Get(p, "type") == Some(Str("mysql")))
    ensures r.Ok? ==> var p := Get(config.databases.value, dbName).value;
      Get(p, "host") == Some(r.value.host) && Get(p, "port") == Some(r.value.port)
      && Get(p, "database") == Some(r.value.database) && Get(p, "user") == Some(r.value.user)
      && Get(p, "password") == Some(r.value.password)
    ensures config.databases.Some? && Get(config.databases.value, dbName).Some? ==>
      var p := Get(config.databases.value, dbName).value;
      (r.Ok? <==> (Get(p, "type") == Some(Str("postgresql")) || Get(p, "type") == Some(Str("mysql")))
                  && HasKeys(p, ["host", "port", "database", "user", "password"]))
    ensures r.Err? && r.error.UnsupportedType? ==>
      config.databases.Some? && Get(config.databases.value, dbName).Some?
      && Get(Get(config.databases.value, dbName).value, "type") == Some(r.error.dbType)
      && r.error.dbType != Str("postgresql") && r.error.dbType != Str("mysql")
    ensures config.databases.Some? && Get(config.databases.value, dbName).Some? ==>
      var t := Get(Get(config.databases.value, dbName).value, "type");
      (t.Some? && t.value != Str("postgresql") && t.value != Str("mysql") ==> r == Err(UnsupportedType(t.value)))
  {
    var registry :- if config.databases.Some? then Ok(config.databases.value) else Err(KeyMissing("databases"));
    var p :- if Get(registry, dbName).Some? then Ok(Get(registry, dbName).value) else Err(KeyMissing(dbName));
    var dbType :- Lookup(p, "type");
    if dbType == Str("postgresql") then
      var e :- ReadEndpoint(p);
      Ok(Psycopg(e.host, e.port, e.database, e.user, e.password))
    else if dbType == Str("mysql") then
      var e :- ReadEndpoint(p);
      Ok(PyMySql(e.host, e.port, e.database, e.user, e.password))
    else
      Err(UnsupportedType(dbType))
  }

  /** For PostgreSQL and MySQL profiles the collector dials exactly what the
      profile manager's connection test dials; Oracle and SQL Server, which
      the test supports, the collector refuses. */
  lemma SourceDialsLikeProbe(config: Config, dbName: string)
    requires config.databases.Some? && Get(config.databases.value, dbName).Some?
    ensures var p := Get(config.databases.value, dbName).value;
      Get(p, "type") == Some(Str("postgresql")) || Get(p, "type") == Some(Str("mysql")) ==>
        SourceRequest(config, dbName) == ProbeTarget(p)
    ensures var p := Get(config.databases.value, dbName).value;
      Get(p, "type") == Some(Str("oracle")) || Get(p, "type") == Some(Str("mssql")) ==>
        SourceRequest(config, dbName) == Err(UnsupportedType(Get(p, "type").value))
        && !(ProbeTarget(p).Err? && ProbeTarget(p).error.UnsupportedType?)
  {
  }

  /** A result set as the DB-API cursor exposes it: the column names of its
      description (None after a statement that returns no rows) and the
      fetched rows. */
  datatype Answer = Answer(description: Option<seq<string>>, rows: seq<Row>)

  /** The source database behind the drivers: whether it accepts a dial, and
      what executing a query on such a connection yields (an error standing
      for whatever the driver raises while executing or fetching). The same
      value serves every round of a run, so a source that answers one round
      and refuses the next is not represented. */
  datatype SourceDb = SourceDb(accepts: Dialer, run: (DialRequest, string) -> Result<Answer>)

  /** The profile yields a dial request and the source accepts it. */
  predicate Reachable(config: Config, src: SourceDb, dbName: string) {
    SourceRequest(config, dbName).Ok? && src.accepts(SourceRequest(config, dbName).value)
  }

  /** The source half of `execute_and_collect`: connect, execute, read the
      column names from the description, fetch every row. */
  function Fetch(config: Config, src: SourceDb, dbName: string, query: string): (r: Result<(seq<string>, seq<Row>)>)
    ensures SourceRequest(config, dbName).Err? ==> r == Err(SourceRequest(config, dbName).error)
    ensures SourceRequest(config, dbName).Ok? && !Reachable(config, src, dbName) ==> r == Err(ConnectRefused)
    ensures r.Ok? ==> (Reachable(config, src, dbName)
      && src.run(SourceRequest(config, dbName).value, query) == Ok(Answer(Some(r.value.0), r.value.1)))
    ensures (Reachable(config, src, dbName) && src.run(SourceRequest(config, dbName).value, query).Ok?
      && src.run(SourceRequest(config, dbName).value, query).value.description.None?) ==> r == Err(NoResultSet)
  {
    var req :- SourceRequest(config, dbName);
    if !src.accepts(req) then Err(ConnectRefused)
    else
      var answer :- src.run(req, query);
      if answer.description.None? then Err(NoResultSet)
      else Ok((answer.description.value, answer.rows))
  }

  /** Opening and closing of a source connection. */
  datatype SourceEvent = SourceOpened(req: DialRequest) | SourceClosed(req: DialRequest)

  /** Every opened source connection is closed before the next one opens. */
  predicate Balanced(t: seq<SourceEvent>)
    decreases |t|
  {
    t == [] || (|t| >= 2 && t[0].SourceOpened? && t[1] == SourceClosed(t[0].req) && Balanced(t[2..]))
  }

  lemma {:induction false} BalancedAppend(a: seq<SourceEvent>, b: seq<SourceEvent>)
    requires Balanced(a) && Balanced(b)
    ensures Balanced(a + b)
    decreases |a|
  {
    if a != [] {
      assert (a + b)[0] == a[0] && (a + b)[1] == a[1];
      assert (a + b)[2..] == a[2..] + b;
      BalancedAppend(a[2..], b);
    } else {
      assert a + b == b;
    }
  }

  /** One connection opened and closed again is balanced. */
  lemma BalancedPair(req: DialRequest)
    ensures Balanced([SourceOpened(req), SourceClosed(req)])
    ensures forall e :: e in [SourceOpened(req), SourceClosed(req)] ==> e.req == req
  {
    assert [SourceOpened(req), SourceClosed(req)][2..] == [];
  }

  /** The connection `_save_to_sqlite` writes through: the open one, or one
      opened on the spot when none was opened yet. A closed connection is
      still truthy, so it is used, and raises. */
  function Attach(c: Collector): (r: Result<Store>)
    ensures c.conn.OpenConn? ==> r == Ok(c.conn.store)
    ensures c.conn.ClosedConn? ==> r == Err(DatabaseClosed)
    ensures c.conn.NoConn? ==> (r.Ok? <==> OutputPath(c.config).Ok?)
    ensures c.conn.NoConn? && r.Ok? ==> r.value.live == c.file && r.value.durable == c.file && !r.value.inTxn
    ensures c.conn.NoConn? && r.Err? ==> r.error == OutputPath(c.config).error
  {
    match c.conn
    case OpenConn(s) => Ok(s)
    case ClosedConn => Err(DatabaseClosed)
    case NoConn =>
      var c1 :- ConnectSqlite(c);
      Ok(c1.conn.store)
  }

  /** `Attach` with the connect as written: when no connection was opened yet
      and the output path is a bare file name, the save raises the
      `os.makedirs('')` error where `Attach` opens the file. */
  function AttachAsWritten(c: Collector): (r: Result<Store>)
    ensures c.conn.NoConn? && OutputPath(c.config).Ok? && '/' !in OutputPath(c.config).value ==>
      r == Err(NoSuchDirectory("")) && Attach(c).Ok?
    ensures !(c.conn.NoConn? && OutputPath(c.config).Ok? && '/' !in OutputPath(c.config).value) ==> r == Attach(c)
  {
    match c.conn
    case NoConn =>
      var c1 :- ConnectSqliteAsWritten(c);
      Ok(c1.conn.store)
    case _ => Attach(c)
  }

  /** `_save_to_sqlite`: recreate the table and load the rows in batches of
      `options.batch_size` (default 1000) on the destination connection. */
  function SaveToSqlite(c: Collector, table: string, cols: seq<string>, rows: seq<Row>): (r: (Collector, Option<Error>))
    ensures r.0.config == c.config && r.0.file == c.file
    ensures Attach(c).Err? ==> r == (c, Some(Attach(c).error))
    ensures Attach(c).Ok? ==> r.0.conn.OpenConn?
    ensures Attach(c).Ok? && !ValidColumns(cols) ==> r.1 == Some(SchemaRejected(table))
    ensures Attach(c).Ok? && ValidColumns(cols) && BatchSize(c.config) == 0 ==> r.1 == Some(ZeroBatchSize)
    ensures Attach(c).Ok? && ValidColumns(cols) && BatchSize(c.config) < 0 ==>
      r.1.None? && Fold(table) in r.0.conn.store.live && r.0.conn.store.live[Fold(table)] == Table(cols, [])
  {
    match Attach(c)
    case Err(e) => (c, Some(e))
    case Ok(s) =>
      var (s2, failure) := SaveTable(s, table, cols, rows, BatchSize(c.config));
      (c.(conn := OpenConn(s2)), failure)
  }

  /** What one call of `execute_and_collect` leaves behind: the collector,
      the row count or the exception, and the source connections it opened. */
  datatype Collected = Collected(collector: Collector, outcome: Result<nat>, trace: seq<SourceEvent>)

  /** `execute_and_collect`: the table is named after the query unless a
      name is given. A source connection, once opened, is closed on every
      path; a failure on the source side leaves the destination untouched;
      success reports the number of fetched rows. */
  function ExecuteAndCollect(c: Collector, src: SourceDb, dbName: string, sqlName: string, query: string,
                             tableName: Option<string>): (r: Collected)
    ensures r.collector.config == c.config && r.collector.file == c.file
    ensures r.collector.conn == c.conn || r.collector.conn.OpenConn?
    ensures r.trace != [] <==> Reachable(c.config, src, dbName)
    ensures r.trace != [] ==> var req := SourceRequest(c.config, dbName).value;
      r.trace == [SourceOpened(req), SourceClosed(req)]
    ensures Balanced(r.trace) && forall e :: e in r.trace ==> SourceRequest(c.config, dbName) == Ok(e.req)
    ensures Fetch(c.config, src, dbName, query).Err? ==>
      r.collector == c && r.outcome == Err(Fetch(c.config, src, dbName, query).error)
    ensures r.outcome.Ok? ==> (Fetch(c.config, src, dbName, query).Ok?
      && r.outcome.value == |Fetch(c.config, src, dbName, query).value.1|)
  {
    var table := tableName.GetOr(sqlName);
    var trace := if Reachable(c.config, src, dbName) then
                   var req := SourceRequest(c.config, dbName).value;
                   BalancedPair(req);
                   [SourceOpened(req), SourceClosed(req)]
                 else [];
    match Fetch(c.config, src, dbName, query)
    case Err(e) => Collected(c, Err(e), trace)
    case Ok(fetched) =>
      var (c2, failure) := SaveToSqlite(c, table, fetched.0, fetched.1);
      Collected(c2, if failure.Some? then Err(failure.value) else Ok(|fetched.1|), trace)
  }

  /** `close()`: closing an open connection drops what it has not committed,
      so the file keeps the committed tables; otherwise nothing happens. */
  function Close(c: Collector): (r: Collector)
    ensures r.config == c.config
    ensures c.conn.OpenConn? ==> r.conn == ClosedConn && r.file == c.conn.store.durable
    ensures !c.conn.OpenConn? ==> r == c
  {
    match c.conn
    case OpenConn(s) => c.(conn := ClosedConn, file := s.durable)
    case _ => c
  }

  /** The connection is open and shows table `t` with this content. */
  predicate HoldsTable(conn: SqliteConn, t: string, tab: Table) {
    conn.OpenConn? && Fold(t) in conn.store.live && conn.store.live[Fold(t)] == tab
  }

  /** A successful collect went through a save on the attached store, with
      an acceptable column list and every row bindable. */
  lemma SuccessfulSave(c: Collector, src: SourceDb, dbName: string, sqlName: string, query: string,
                       tableName: Option<string>, cols: seq<string>, rows: seq<Row>)
    requires Fetch(c.config, src, dbName, query) == Ok((cols, rows))
    requires ExecuteAndCollect(c, src, dbName, sqlName, query, tableName).outcome.Ok?
    requires BatchSize(c.config) > 0
    ensures Attach(c).Ok? && ValidColumns(cols) && AllBindable(rows, |cols|)
    ensures ExecuteAndCollect(c, src, dbName, sqlName, query, tableName).collector.conn
      == OpenConn(SaveTable(Attach(c).value, tableName.GetOr(sqlName), cols, rows, BatchSize(c.config)).0)
  {
    var table := tableName.GetOr(sqlName);
    var b := BatchSize(c.config);
    var stored := SaveToSqlite(c, table, cols, rows);
    assert ExecuteAndCollect(c, src, dbName, sqlName, query, tableName).collector == stored.0 && stored.1.None?;
    var s := Attach(c).value;
    var saved := SaveTable(s, table, cols, rows, b);
    assert stored == (c.(conn := OpenConn(saved.0)), saved.1);
    SaveTableOkMeansBindable(s, table, cols, rows, b);
  }

  /** A collect that reports success under a positive batch size copied the
      result set exactly: the table holds the fetched columns and rows, and a
      commit followed each batch. */
  lemma CollectedExactly(c: Collector, src: SourceDb, dbName: string, sqlName: string, query: string,
                         tableName: Option<string>, cols: seq<string>, rows: seq<Row>)
    requires Fetch(c.config, src, dbName, query) == Ok((cols, rows))
    requires ExecuteAndCollect(c, src, dbName, sqlName, query, tableName).outcome.Ok?
    requires BatchSize(c.config) > 0
    ensures HoldsTable(ExecuteAndCollect(c, src, dbName, sqlName, query, tableName).collector.conn,
                       tableName.GetOr(sqlName), Table(cols, rows))
    ensures var conn := ExecuteAndCollect(c, src, dbName, sqlName, query, tableName).collector.conn;
      conn.OpenConn? && Attach(c).Ok?
      && conn.store.commits == Attach(c).value.commits + (|rows| + BatchSize(c.config) - 1) / BatchSize(c.config)
  {
    SuccessfulSave(c, src, dbName, sqlName, query, tableName, cols, rows);
    var s, t, b := Attach(c).value, tableName.GetOr(sqlName), BatchSize(c.config);
    var conn := ExecuteAndCollect(c, src, dbName, sqlName, query, tableName).collector.conn;
    assert conn == OpenConn(SaveTable(s, t, cols, rows, b).0);
    SaveTableSucceeds(s, t, cols, rows, b);
  }

  /** After such a collect of at least one row everything is committed, so
      closing the collector keeps the table in the file. */
  lemma CollectedKeptOnClose(c: Collector, src: SourceDb, dbName: string, sqlName: string, query: string,
                             tableName: Option<string>, cols: seq<string>, rows: seq<Row>)
    requires Fetch(c.config, src, dbName, query) == Ok((cols, rows))
    requires ExecuteAndCollect(c, src, dbName, sqlName, query, tableName).outcome.Ok?
    requires BatchSize(c.config) > 0
    ensures |rows| > 0 ==>
      Fold(tableName.GetOr(sqlName)) in Close(ExecuteAndCollect(c, src, dbName, sqlName, query, tableName).collector).file
    ensures |rows| > 0 ==>
      Close(ExecuteAndCollect(c, src, dbName, sqlName, query, tableName).collector).file[Fold(tableName.GetOr(sqlName))]
        == Table(cols, rows)
  {
    SuccessfulSave(c, src, dbName, sqlName, query, tableName, cols, rows);
    SaveTableSucceeds(Attach(c).value, tableName.GetOr(sqlName), cols, rows, BatchSize(c.config));
  }

  /** The success direction: when the result set is fetched, the destination
      can be attached, the column list is acceptable and every row binds,
      the collect reports the number of fetched rows, and the table holds
      exactly those columns and rows. */
  lemma CollectSucceeds(c: Collector, src: SourceDb, dbName: string, sqlName: string, query: string,
                        tableName: Option<string>, cols: seq<string>, rows: seq<Row>)
    requires Fetch(c.config, src, dbName, query) == Ok((cols, rows))
    requires Attach(c).Ok? && BatchSize(c.config) > 0 && ValidColumns(cols) && AllBindable(rows, |cols|)
    ensures ExecuteAndCollect(c, src, dbName, sqlName, query, tableName).outcome == Ok(|rows|)
    ensures HoldsTable(ExecuteAndCollect(c, src, dbName, sqlName, query, tableName).collector.conn,
                       tableName.GetOr(sqlName), Table(cols, rows))
  {
    var table := tableName.GetOr(sqlName);
    var s := Attach(c).value;
    var saved := SaveTable(s, table, cols, rows, BatchSize(c.config));
    assert SaveToSqlite(c, table, cols, rows) == (c.(conn := OpenConn(saved.0)), saved.1);
    SaveTableSucceeds(s, table, cols, rows, BatchSize(c.config));
  }

  /** A row that does not bind (wrong arity, a value of a type without an
      adapter, an integer beyond 64 bits) fails the collect with the binding
      error. The table then shows the rows before it in the open transaction,
      and only the batches before the failing one are committed. */
  lemma CollectStopsAtBadRow(c: Collector, src: SourceDb, dbName: string, sqlName: string, query: string,
                             tableName: Option<string>, cols: seq<string>, rows: seq<Row>)
    requires Fetch(c.config, src, dbName, query) == Ok((cols, rows))
    requires Attach(c).Ok? && BatchSize(c.config) > 0 && ValidColumns(cols)
    requires FirstFail(rows, Binds(|cols|)) < |rows|
    ensures ExecuteAndCollect(c, src, dbName, sqlName, query, tableName).outcome == Err(BindingRejected)
    ensures HoldsTable(ExecuteAndCollect(c, src, dbName, sqlName, query, tableName).collector.conn,
                       tableName.GetOr(sqlName), Table(cols, rows[..FirstFail(rows, Binds(|cols|))]))
    ensures var conn := ExecuteAndCollect(c, src, dbName, sqlName, query, tableName).collector.conn;
      conn.OpenConn? && conn.store.inTxn
  {
    var table := tableName.GetOr(sqlName);
    var s := Attach(c).value;
    var saved := SaveTable(s, table, cols, rows, BatchSize(c.config));
    assert SaveToSqlite(c, table, cols, rows) == (c.(conn := OpenConn(saved.0)), saved.1);
    SaveTableFails(s, table, cols, rows, BatchSize(c.config));
  }

  /** After `close()` of an opened collector every later collect fails: on
      the source side as before, otherwise on the closed destination; the
      file is not touched again. */
  lemma ClosedCollectorFails(c: Collector, src: SourceDb, dbName: string, sqlName: string, query: string,
                             tableName: Option<string>)
    requires c.conn.OpenConn?
    ensures var r := ExecuteAndCollect(Close(c), src, dbName, sqlName, query, tableName);
      && r.collector == Close(c)
      && r.outcome.Err?
      && (Fetch(c.config, src, dbName, query).Ok? ==> r.outcome.error == DatabaseClosed)
  {
  }

  /** Closing twice is closing once. */
  lemma CloseIdempotent(c: Collector)
    ensures Close(Close(c)) == Close(c)
  {
  }

  /** A directory entry as `Path.glob` yields it: its name and, when it can
      be read as UTF-8 text, that text. None stands for an entry whose
      `open()` or `read()` raises: a directory whose name ends in ".sql", or
      a file that is not valid UTF-8. */
  datatype Entry = Entry(name: string, text: Option<string>)

  /** The directories of the file system: each maps to its entries in the
      order `Path.glob` yields them. */
  type FileSystem = map<string, seq<Entry>>

  /** The glob matches the entry and its stem is `k`. */
  predicate HasStem(e: Entry, k: string) {
    IsSqlFile(e.name) && Stem(e.name) == k
  }

  /** The glob matches the entry, and reading it raises. */
  predicate ReadFails(e: Entry) {
    IsSqlFile(e.name) && e.text.None?
  }

  /** Position of the last matched entry whose stem is `k`, or -1. */
  function LastSql(entries: seq<Entry>, k: string): (i: int)
    ensures -1 <= i < |entries|
    ensures i >= 0 ==> HasStem(entries[i], k)
    ensures forall j :: i < j < |entries| ==> !HasStem(entries[j], k)
    decreases |entries|
  {
    if entries == [] then -1
    else if HasStem(entries[|entries| - 1], k) then |entries| - 1
    else
      var prefix := entries[..|entries| - 1];
      assert forall j :: 0 <= j < |prefix| ==> prefix[j] == entries[j];
      LastSql(prefix, k)
  }

  /** Position of the first matched entry whose stem is `k`, or `|entries|`. */
  function FirstSql(entries: seq<Entry>, k: string): (i: nat)
    ensures i <= |entries|
    ensures i < |entries| ==> HasStem(entries[i], k)
    ensures forall j :: 0 <= j < i ==> !HasStem(entries[j], k)
    decreases |entries|
  {
    if entries == [] then 0
    else
      var prefix := entries[..|entries| - 1];
      var f := FirstSql(prefix, k);
      assert forall j :: 0 <= j < |prefix| ==> prefix[j] == entries[j];
      if f < |prefix| then f
      else if HasStem(entries[|entries| - 1], k) then |entries| - 1
      else |entries|
  }

  /** Position of the first matched entry that cannot be read, or `|entries|`. */
  function FirstUnreadable(entries: seq<Entry>): (i: nat)
    ensures i <= |entries|
    ensures i < |entries| ==> ReadFails(entries[i])
    ensures forall j :: 0 <= j < i ==> !ReadFails(entries[j])
    decreases |entries|
  {
    if entries == [] then 0
    else
      var prefix := entries[..|entries| - 1];
      var f := FirstUnreadable(prefix);
      assert forall j :: 0 <= j < |prefix| ==> prefix[j] == entries[j];
      if f < |prefix| then f
      else if ReadFails(entries[|entries| - 1]) then |entries| - 1
      else |entries|
  }

  /** The stems of the matched entries, each once, in glob order of first
      occurrence. */
  function DistinctStems(entries: seq<Entry>): seq<string>
    decreases |entries|
  {
    if entries == [] then []
    else
      var ks0 := DistinctStems(entries[..|entries| - 1]);
      var e := entries[|entries| - 1];
      if IsSqlFile(e.name) && Stem(e.name) !in ks0 then ks0 + [Stem(e.name)] else ks0
  }

  /** The distinct stems are exactly the stems of matched entries. */
  lemma {:induction false} DistinctStemsMembers(entries: seq<Entry>)
    ensures forall k :: k in DistinctStems(entries) <==> FirstSql(entries, k) < |entries|
    decreases |entries|
  {
    if entries != [] {
      var prefix := entries[..|entries| - 1];
      var e := entries[|entries| - 1];
      DistinctStemsMembers(prefix);
      var ks := DistinctStems(entries);
      forall k ensures k in ks <==> FirstSql(entries, k) < |entries| {
        FirstSqlStep(entries, k);
        if HasStem(e, k) {
          assert k in ks;
        }
      }
    }
  }

  /** The distinct stems are ordered by where each first occurs: the key
      order of a dict filled in glob order. */
  lemma {:induction false} DistinctStemsOrder(entries: seq<Entry>)
    ensures var ks := DistinctStems(entries);
      forall i, j :: 0 <= i < j < |ks| ==> FirstSql(entries, ks[i]) < FirstSql(entries, ks[j])
    decreases |entries|
  {
    if entries != [] {
      var prefix := entries[..|entries| - 1];
      DistinctStemsOrder(prefix);
      DistinctStemsMembers(prefix);
      var ks := DistinctStems(entries);
      forall i, j | 0 <= i < j < |ks| ensures FirstSql(entries, ks[i]) < FirstSql(entries, ks[j]) {
        OrderStep(entries, i, j);
      }
    }
  }

  /** One pair of keys after one more entry, given the order and the members
      of the keys before it. */
  lemma OrderStep(entries: seq<Entry>, i: nat, j: nat)
    requires entries != []
    requires var prefix := entries[..|entries| - 1];
      var ks0 := DistinctStems(prefix);
      && (forall k :: k in ks0 <==> FirstSql(prefix, k) < |prefix|)
      && (forall i, j :: 0 <= i < j < |ks0| ==> FirstSql(prefix, ks0[i]) < FirstSql(prefix, ks0[j]))
    requires i < j < |DistinctStems(entries)|
    ensures var ks := DistinctStems(entries); FirstSql(entries, ks[i]) < FirstSql(entries, ks[j])
  {
    var prefix := entries[..|entries| - 1];
    var e := entries[|entries| - 1];
    var ks0 := DistinctStems(prefix);
    var ks := DistinctStems(entries);
    assert ks[i] == ks0[i] && ks0[i] in ks0;
    FirstSqlStep(entries, ks[i]);
    FirstSqlStep(entries, ks[j]);
    if j < |ks0| {
      assert ks[j] == ks0[j] && ks0[j] in ks0;
      assert FirstSql(prefix, ks0[i]) < FirstSql(prefix, ks0[j]);
    } else {
      assert ks[j] == Stem(e.name) && ks[j] !in ks0 && HasStem(e, ks[j]);
    }
  }

  /** Where `k` first occurs in `prefix + [e]`. */
  function FirstSqlAfter(prefix: seq<Entry>, e: Entry, k: string): nat {
    if FirstSql(prefix, k) < |prefix| then FirstSql(prefix, k)
    else if HasStem(e, k) then |prefix|
    else |prefix| + 1
  }

  lemma FirstSqlStep(entries: seq<Entry>, k: string)
    requires entries != []
    ensures FirstSql(entries, k) == FirstSqlAfter(entries[..|entries| - 1], entries[|entries| - 1], k)
  {
  }

  /** The loop of `load_sql_files`: every matched entry is read and stored
      under its stem, in glob order. The first entry that cannot be read
      raises, and the exception escapes. Two names with the same stem
      (".sql" and ".sql.sql") share one key, which keeps the place of its
      first file and the text of its last. */
  function Gather(entries: seq<Entry>): (r: Result<Dict<string, string>>)
    ensures r.Err? <==> FirstUnreadable(entries) < |entries|
    ensures r.Err? ==> r.error == Unreadable(entries[FirstUnreadable(entries)].name)
    ensures r.Ok? ==> Keys(r.value) == DistinctStems(entries)
    ensures r.Ok? ==> forall k :: Get(r.value, k) == (if LastSql(entries, k) < 0 then None else entries[LastSql(entries, k)].text)
    decreases |entries|
  {
    if entries == [] then Ok([])
    else
      var prefix := entries[..|entries| - 1];
      var e := entries[|entries| - 1];
      assert FirstUnreadable(prefix) < |prefix| ==> FirstUnreadable(entries) == FirstUnreadable(prefix);
      var d0 :- Gather(prefix);
      if !IsSqlFile(e.name) then
        assert forall k :: LastSql(entries, k) == LastSql(prefix, k);
        Ok(d0)
      else if e.text.None? then
        Err(Unreadable(e.name))
      else
        assert forall k :: k != Stem(e.name) ==> LastSql(entries, k) == LastSql(prefix, k);
        Ok(Set(d0, Stem(e.name), e.text.value))
  }

  /** `load_sql_files`: a missing `sql_directory` key raises KeyError; a
      directory that does not exist yields no queries; otherwise the query
      files are gathered, and an unreadable one raises. */
  function LoadSqlFiles(config: Config, fs: FileSystem): (r: Result<Dict<string, string>>)
    ensures config.sqlDirectory.None? ==> r == Err(KeyMissing("sql_directory"))
    ensures config.sqlDirectory.Some? && config.sqlDirectory.value !in fs ==> r == Ok([])
    ensures config.sqlDirectory.Some? && config.sqlDirectory.value in fs ==>
      var es := fs[config.sqlDirectory.value];
      && (r.Err? <==> FirstUnreadable(es) < |es|)
      && (r.Err? ==> r.error == Unreadable(es[FirstUnreadable(es)].name))
      && (r.Ok? ==> Keys(r.value) == DistinctStems(es))
      && (r.Ok? ==> forall k :: Get(r.value, k) == (if LastSql(es, k) < 0 then None else es[LastSql(es, k)].text))
  {
    var dir :- SqlDirectory(config);
    if dir !in fs then Ok([]) else Gather(fs[dir])
  }

  /** The entry `run_all` records for one query: the row count, or the
      exception (kept as the error rather than its text). */
  datatype Status = Succeeded(rows: nat) | Failed(error: Error)

  type Report = Dict<string, Status>

  /** The entry for a collect's outcome. */
  function StatusOf(outcome: Result<nat>): Status {
    if outcome.Ok? then Succeeded(outcome.value) else Failed(outcome.error)
  }

  /** One round of the `run_all` loop: the query is collected into the table
      named after it and any exception becomes a failure entry. The source
      connection is opened and closed within the round. */
  method CollectOne(c: Collector, src: SourceDb, dbName: string, name: string, query: string)
    returns (out: Collector, status: Status, trace: seq<SourceEvent>)
    ensures out.config == c.config && out.file == c.file
    ensures Balanced(trace)
    ensures forall e :: e in trace ==> SourceRequest(c.config, dbName) == Ok(e.req)
    ensures Reachable(c.config, src, dbName) ==> |trace| == 2
    ensures SourceRequest(c.config, dbName).Err? ==>
      out == c && trace == [] && status == Failed(SourceRequest(c.config, dbName).error)
    ensures Reports(c.config, src, dbName, query, status)
    ensures var s := ExecuteAndCollect(c, src, dbName, name, query, None);
      && out == s.collector && trace == s.trace
      && (status.Succeeded? <==> s.outcome.Ok?)
      && (s.outcome.Ok? ==> status.rows == s.outcome.value)
      && (s.outcome.Err? ==> status == Failed(s.outcome.error))
  {
    var step := ExecuteAndCollect(c, src, dbName, name, query, None);
    status := StatusOf(step.outcome);
    out, trace := step.collector, step.trace;
  }

  /** The entry recorded for a query agrees with the source: a success
      counts exactly the rows the source returned for that query, and a
      failure on the source side is recorded with that failure. */
  predicate Reports(config: Config, src: SourceDb, dbName: string, query: string, status: Status) {
    && (status.Succeeded? ==>
          Fetch(config, src, dbName, query).Ok? && status.rows == |Fetch(config, src, dbName, query).value.1|)
    && (Fetch(config, src, dbName, query).Err? ==> status == Failed(Fetch(config, src, dbName, query).error))
  }

  /** Recording the outcome of the next file under its name appends an entry,
      since the names met so far are exactly those of the earlier files. */
  lemma ReportStep(report: Report, files: Dict<string, string>, i: nat, status: Status)
    requires i < |files| && Keys(report) == Keys(files[..i])
    ensures Set(report, files[i].0, status) == report + [(files[i].0, status)]
    ensures Keys(Set(report, files[i].0, status)) == Keys(files[..i + 1])
  {
    var name := files[i].0;
    assert name !in Keys(report) by {
      forall j | 0 <= j < i ensures Keys(report)[j] != name {
        assert Keys(files[..i])[j] == files[j].0;
      }
    }
    SetNewKey(report, name, status);
    KeysAppend(report, (name, status));
    assert files[..i + 1] == files[..i] + [files[i]];
    KeysAppend(files[..i], files[i]);
  }

  /** The states a loop goes through: the start, then after each step. */
  function Steps<S, X>(s: S, step: (S, X) -> S, xs: seq<X>): (ss: seq<S>)
    ensures |ss| == |xs| + 1 && ss[0] == s
    decreases |xs|
  {
    if xs == [] then [s]
    else
      var ss0 := Steps(s, step, xs[..|xs| - 1]);
      ss0 + [step(ss0[|xs| - 1], xs[|xs| - 1])]
  }

  /** State `i + 1` is step `i` applied to state `i`. */
  lemma {:induction false} StepsNext<S, X>(s: S, step: (S, X) -> S, xs: seq<X>, i: nat)
    requires i < |xs|
    ensures Steps(s, step, xs)[i + 1] == step(Steps(s, step, xs)[i], xs[i])
    decreases |xs|
  {
    var n := |xs| - 1;
    var ss0 := Steps(s, step, xs[..n]);
    assert Steps(s, step, xs) == ss0 + [step(ss0[n], xs[n])];
    if i < n {
      StepsNext(s, step, xs[..n], i);
      assert xs[..n][i] == xs[i];
    }
  }

  /** One step keeps the invariant. (Taking the state as a parameter gives
      the verifier its type, which an element of `Steps` does not.) */
  lemma StepKeeps<S, X>(step: (S, X) -> S, inv: S -> bool, t: S, x: X)
    requires forall t, x :: inv(t) ==> inv(step(t, x))
    ensures inv(t) ==> inv(step(t, x))
  {
  }

  /** What holds of the start and survives every step holds of every state. */
  lemma {:induction false} StepsKeep<S, X>(s: S, step: (S, X) -> S, xs: seq<X>, i: nat, inv: S -> bool)
    requires i <= |xs| && inv(s)
    requires forall t, x :: inv(t) ==> inv(step(t, x))
    ensures inv(Steps(s, step, xs)[i])
    decreases i
  {
    if i > 0 {
      StepsKeep(s, step, xs, i - 1, inv);
      StepsNext(s, step, xs, i - 1);
      StepKeeps(step, inv, Steps(s, step, xs)[i - 1], xs[i - 1]);
    }
  }

  /** The collectors the rounds of `run_all` go through: the given one, then
      the collector each round leaves to the next. */
  function Rounds(c: Collector, src: SourceDb, dbName: string, files: seq<(string, string)>): (cs: seq<Collector>)
    ensures |cs| == |files| + 1 && cs[0] == c
  {
    Steps(c, (d: Collector, f: (string, string)) => After(d, src, dbName, f), files)
  }

  /** The collector one round of `run_all` leaves to the next: the
      configuration and the file stay, and an unclosed destination is not
      closed. */
  function After(c: Collector, src: SourceDb, dbName: string, file: (string, string)): (d: Collector)
    ensures d.config == c.config && d.file == c.file
    ensures !c.conn.ClosedConn? ==> !d.conn.ClosedConn?
  {
    ExecuteAndCollect(c, src, dbName, file.0, file.1, None).collector
  }

  /** Round `i` starts from the collector round `i - 1` left. */
  lemma RoundNext(c: Collector, src: SourceDb, dbName: string, files: seq<(string, string)>, i: nat)
    requires i < |files|
    ensures Rounds(c, src, dbName, files)[i + 1] == After(Rounds(c, src, dbName, files)[i], src, dbName, files[i])
  {
    StepsNext(c, (d: Collector, f: (string, string)) => After(d, src, dbName, f), files, i);
  }

  /** Every round keeps the configuration and the file as they were. */
  lemma RoundsKeepConfig(c: Collector, src: SourceDb, dbName: string,
                                            files: seq<(string, string)>, i: nat)
    requires i <= |files|
    ensures Rounds(c, src, dbName, files)[i].config == c.config
    ensures Rounds(c, src, dbName, files)[i].file == c.file
  {
    var keep := (d: Collector) => d.config == c.config && d.file == c.file;
    StepsKeep(c, (d: Collector, f: (string, string)) => After(d, src, dbName, f), files, i, keep);
  }

  /** Round `i` of `run_all`: the collect of file `i` on the collector the
      earlier rounds left. */
  function Round(c: Collector, src: SourceDb, dbName: string, files: seq<(string, string)>, i: nat): Collected
    requires i < |files|
  {
    ExecuteAndCollect(Rounds(c, src, dbName, files)[i], src, dbName, files[i].0, files[i].1, None)
  }

  /** Round `i` leaves the collector round `i + 1` starts from. */
  lemma RoundStep(c: Collector, src: SourceDb, dbName: string, files: seq<(string, string)>, i: nat, from: Collector)
    requires i < |files| && from == Rounds(c, src, dbName, files)[i]
    ensures Round(c, src, dbName, files, i) == ExecuteAndCollect(from, src, dbName, files[i].0, files[i].1, None)
    ensures Rounds(c, src, dbName, files)[i + 1] == Round(c, src, dbName, files, i).collector
  {
    RoundNext(c, src, dbName, files, i);
  }

  /** No round closes the destination: a collector that was not closed
      stays unclosed through every round. */
  lemma RoundsStayOpen(c: Collector, src: SourceDb, dbName: string,
                                          files: seq<(string, string)>, i: nat)
    requires i <= |files| && !c.conn.ClosedConn?
    ensures !Rounds(c, src, dbName, files)[i].conn.ClosedConn?
  {
    var unclosed := (d: Collector) => !d.conn.ClosedConn?;
    StepsKeep(c, (d: Collector, f: (string, string)) => After(d, src, dbName, f), files, i, unclosed);
  }

  /** In a run on an unclosed collector with a positive batch size, a query
      whose result has a row that does not bind is recorded as failed with
      the binding error, and its table shows the rows before that row. */
  lemma RunRecordsBadRow(c: Collector, src: SourceDb, dbName: string, files: seq<(string, string)>,
                         i: nat, cols: seq<string>, rows: seq<Row>)
    requires i < |files| && !c.conn.ClosedConn? && OutputPath(c.config).Ok? && BatchSize(c.config) > 0
    requires Fetch(c.config, src, dbName, files[i].1) == Ok((cols, rows))
    requires ValidColumns(cols) && FirstFail(rows, Binds(|cols|)) < |rows|
    ensures StatusOf(Round(c, src, dbName, files, i).outcome) == Failed(BindingRejected)
    ensures HoldsTable(Round(c, src, dbName, files, i).collector.conn, files[i].0,
                       Table(cols, rows[..FirstFail(rows, Binds(|cols|))]))
  {
    var cs := Rounds(c, src, dbName, files);
    RoundsStayOpen(c, src, dbName, files, i);
    RoundsKeepConfig(c, src, dbName, files, i);
    CollectStopsAtBadRow(cs[i], src, dbName, files[i].0, files[i].1, None, cols, rows);
  }

  /** In a run on an unclosed collector with a positive batch size, a query
      whose result set binds completely is recorded as a success with the
      number of rows the source returned, and its table holds exactly them. */
  lemma RunRecordsCleanResult(c: Collector, src: SourceDb, dbName: string, files: seq<(string, string)>,
                              i: nat, cols: seq<string>, rows: seq<Row>)
    requires i < |files| && !c.conn.ClosedConn? && OutputPath(c.config).Ok? && BatchSize(c.config) > 0
    requires Fetch(c.config, src, dbName, files[i].1) == Ok((cols, rows))
    requires ValidColumns(cols) && AllBindable(rows, |cols|)
    ensures StatusOf(Round(c, src, dbName, files, i).outcome) == Succeeded(|rows|)
    ensures HoldsTable(Round(c, src, dbName, files, i).collector.conn, files[i].0, Table(cols, rows))
  {
    var cs := Rounds(c, src, dbName, files);
    RoundsStayOpen(c, src, dbName, files, i);
    RoundsKeepConfig(c, src, dbName, files, i);
    CollectSucceeds(cs[i], src, dbName, files[i].0, files[i].1, None, cols, rows);
  }

  /** In a run with a positive batch size, a query recorded as a success is
      recorded with the number of rows the source returned, and its table
      holds exactly those columns and rows. */
  lemma RunRecordsSuccess(c: Collector, src: SourceDb, dbName: string, files: seq<(string, string)>,
                          i: nat, cols: seq<string>, rows: seq<Row>)
    requires i < |files| && BatchSize(c.config) > 0
    requires Fetch(c.config, src, dbName, files[i].1) == Ok((cols, rows))
    requires StatusOf(Round(c, src, dbName, files, i).outcome).Succeeded?
    ensures StatusOf(Round(c, src, dbName, files, i).outcome) == Succeeded(|rows|)
    ensures HoldsTable(Round(c, src, dbName, files, i).collector.conn, files[i].0, Table(cols, rows))
  {
    var cs := Rounds(c, src, dbName, files);
    RoundsKeepConfig(c, src, dbName, files, i);
    CollectedExactly(cs[i], src, dbName, files[i].0, files[i].1, None, cols, rows);
  }

  /** An entry equal to the outcome of its round agrees with the source, and
      when the profile yields no dial request every entry is that failure. */
  lemma RecordedReports(c: Collector, src: SourceDb, dbName: string, files: seq<(string, string)>, report: Report)
    requires |report| <= |files|
    requires forall j :: 0 <= j < |report| ==> report[j].1 == StatusOf(Round(c, src, dbName, files, j).outcome)
    ensures forall j :: 0 <= j < |report| ==> Reports(c.config, src, dbName, files[j].1, report[j].1)
    ensures SourceRequest(c.config, dbName).Err? ==>
      forall j :: 0 <= j < |report| ==> report[j].1 == Failed(SourceRequest(c.config, dbName).error)
  {
    var cs := Rounds(c, src, dbName, files);
    forall j | 0 <= j < |report|
      ensures Reports(c.config, src, dbName, files[j].1, report[j].1)
      ensures SourceRequest(c.config, dbName).Err? ==> report[j].1 == Failed(SourceRequest(c.config, dbName).error)
    {
      RoundsKeepConfig(c, src, dbName, files, j);
    }
  }

  /** Appending the entry of round `i` keeps every entry equal to the
      outcome of its own round. */
  lemma RecordedGrow(c: Collector, src: SourceDb, dbName: string, files: Dict<string, string>,
                     report: Report, i: nat, status: Status)
    requires i < |files| && |report| == i
    requires forall j :: 0 <= j < i ==> report[j].1 == StatusOf(Round(c, src, dbName, files, j).outcome)
    requires status == StatusOf(Round(c, src, dbName, files, i).outcome)
    ensures forall j :: 0 <= j < i + 1 ==>
      (report + [(files[i].0, status)])[j].1 == StatusOf(Round(c, src, dbName, files, j).outcome)
  {
    var grown := report + [(files[i].0, status)];
    forall j | 0 <= j < i + 1 ensures grown[j].1 == StatusOf(Round(c, src, dbName, files, j).outcome) {
      if j < i {
        assert grown[j] == report[j];
      }
    }
  }

  /** Round `i` of the loop, collecting from the collector the earlier
      rounds left behind. */
  method CollectRound(c: Collector, src: SourceDb, dbName: string, files: seq<(string, string)>,
                      i: nat, from: Collector)
    returns (next: Collector, status: Status, events: seq<SourceEvent>)
    requires i < |files| && from == Rounds(c, src, dbName, files)[i]
    ensures next == Rounds(c, src, dbName, files)[i + 1]
    ensures status == StatusOf(Round(c, src, dbName, files, i).outcome)
    ensures next.config == from.config && next.file == from.file
    ensures Balanced(events)
    ensures forall e :: e in events ==> SourceRequest(from.config, dbName) == Ok(e.req)
    ensures Reachable(from.config, src, dbName) ==> |events| == 2
    ensures SourceRequest(from.config, dbName).Err? ==> next == from && events == []
  {
    next, status, events := CollectOne(from, src, dbName, files[i].0, files[i].1);
    RoundStep(c, src, dbName, files, i, from);
  }

  /** The loop of `run_all` over the loaded queries, in order: every query
      gets exactly one entry under its own name, and a failure of one query
      does not stop the others. Each round opens and closes its own source
      connection, all of them to the configured profile. */
  method RunQueries(c: Collector, src: SourceDb, dbName: string, files: Dict<string, string>)
    returns (out: Collector, report: Report, trace: seq<SourceEvent>)
    ensures Keys(report) == Keys(files)
    ensures out.config == c.config && out.file == c.file
    ensures Balanced(trace)
    ensures forall e :: e in trace ==> SourceRequest(c.config, dbName) == Ok(e.req)
    ensures Reachable(c.config, src, dbName) ==> |trace| == 2 * |files|
    ensures SourceRequest(c.config, dbName).Err? ==> out == c && trace == []
    ensures out == Rounds(c, src, dbName, files)[|files|]
    ensures forall i :: 0 <= i < |report| ==> report[i].1 == StatusOf(Round(c, src, dbName, files, i).outcome)
  {
    report := [];
    out, trace := c, [];
    ghost var req := SourceRequest(c.config, dbName);
    ghost var reach := Reachable(c.config, src, dbName);
    var i := 0;
    while i < |files|
      invariant 0 <= i <= |files|
      invariant Keys(report) == Keys(files[..i])
      invariant out.config == c.config && out.file == c.file
      invariant Balanced(trace)
      invariant forall e :: e in trace ==> req == Ok(e.req)
      invariant reach ==> |trace| == 2 * i
      invariant req.Err? ==> out == c && trace == []
      invariant out == Rounds(c, src, dbName, files)[i]
      invariant forall j :: 0 <= j < i ==> report[j].1 == StatusOf(Round(c, src, dbName, files, j).outcome)
    {
      var next, status, events := CollectRound(c, src, dbName, files, i, out);
      ReportStep(report, files, i, status);
      RecordedGrow(c, src, dbName, files, report, i, status);
      report := Set(report, files[i].0, status);
      BalancedAppend(trace, events);
      out, trace := next, trace + events;
      i := i + 1;
    }
    assert files[..i] == files;
  }

  /** `run_all`: the queries are loaded outside the per-query error
      handling, so a missing `sql_directory` key or an unreadable query file
      escapes; with no query file the result is None; otherwise the report
      of the loop, entry `i` being the outcome of round `i`. */
  method RunAll(c: Collector, src: SourceDb, dbName: string, fs: FileSystem)
    returns (out: Collector, r: Result<Option<Report>>, trace: seq<SourceEvent>)
    ensures r.Err? <==> LoadSqlFiles(c.config, fs).Err?
    ensures r.Err? ==> r.error == LoadSqlFiles(c.config, fs).error && out == c && trace == []
    ensures c.config.sqlDirectory.None? ==> r == Err(KeyMissing("sql_directory"))
    ensures r == Ok(None) <==> LoadSqlFiles(c.config, fs) == Ok([])
    ensures r == Ok(None) ==> out == c && trace == []
    ensures r.Ok? && r.value.Some? ==> Keys(r.value.value) == Keys(LoadSqlFiles(c.config, fs).value)
    ensures out.config == c.config && out.file == c.file
    ensures Balanced(trace)
    ensures forall e :: e in trace ==> SourceRequest(c.config, dbName) == Ok(e.req)
    ensures r.Ok? && r.value.Some? && Reachable(c.config, src, dbName) ==> |trace| == 2 * |r.value.value|
    ensures SourceRequest(c.config, dbName).Err? ==> out == c && trace == []
    ensures r.Ok? && r.value.Some? && SourceRequest(c.config, dbName).Err? ==>
      forall i :: 0 <= i < |r.value.value| ==> r.value.value[i].1 == Failed(SourceRequest(c.config, dbName).error)
    ensures r.Ok? && r.value.Some? ==> forall i :: 0 <= i < |r.value.value| ==>
      Reports(c.config, src, dbName, LoadSqlFiles(c.config, fs).value[i].1, r.value.value[i].1)
    ensures r.Ok? && r.value.Some? ==> var files := LoadSqlFiles(c.config, fs).value;
      && out == Rounds(c, src, dbName, files)[|files|]
      && forall i :: 0 <= i < |r.value.value| ==> r.value.value[i].1 == StatusOf(Round(c, src, dbName, files, i).outcome)
  {
    var loaded := LoadSqlFiles(c.config, fs);
    if loaded.Err? {
      return c, Err(loaded.error), [];
    }
    if loaded.value == [] {
      return c, Ok(None), [];
    }
    var report;
    out, report, trace := RunQueries(c, src, dbName, loaded.value);
    assert |report| == |Keys(report)| == |loaded.value|;
    RecordedReports(c, src, dbName, loaded.value, report);
    r := Ok(Some(report));
  }
}
