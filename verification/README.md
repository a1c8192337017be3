# db-collect in Dafny

A model of the core of db-collect, a small tool with two parts.

- **The collector.** `DBCollector` runs every `*.sql` file of a directory against one registered source database. It copies each result set into a table of a local SQLite file, named after the query file.
- **The profile manager.** `DBConfigManager`, its text menu and its Flask front end maintain the registry of connection profiles that the collector reads. The registry is the `databases` section of a YAML document. The manager can add, update, delete and list profiles, and can test a live connection.

Pure functions describe what each operation computes. Lemmas and method contracts then relate the operations to each other:

- the collector and the connection test dial the same thing;
- a report holds one entry per query file, and each entry agrees with what the source returned;
- the destination table holds exactly the fetched rows, with one commit per batch;
- the committed and uncommitted state after a row fails to bind;
- the INSERT holds one placeholder per column;
- form and menu profiles carry what the connection test needs.

The files, one module each:

| file | module | models |
|---|---|---|
| `values.dfy` | `Values` | scalar values, Python's `str()`, the password mask |
| `outcomes.dfy` | `Outcomes` | `Option`, `Result` and the exceptions of the code |
| `ordered_map.dfy` | `OrderedMap` | Python's insertion-ordered `dict` as an association list |
| `config_file.dfy` | `ConfigFile` | the configuration document, its defaults, and profile construction |
| `drivers.dfy` | `Drivers` | the arguments handed to psycopg2, pymysql, cx_Oracle and pyodbc |
| `profiles.dfy` | `Profiles` | `DBConfigManager`: CRUD and `test_connection` |
| `menu.dfy` | `Menu` | `interactive_add_database` and the masked detail view of `main_menu` |
| `web_ui.dfy` | `WebUi` | the Flask handlers: index listing, add/edit forms, delete/test replies |
| `paths.dfy` | `Paths` | `os.path.dirname`, `PurePath.stem`, the `*.sql` glob |
| `batching.dfy` | `Batching` | the slices `rows[i:i + b]` of the batch loop |
| `destination.dfy` | `Destination` | the SQLite file under `sqlite3`'s default transaction handling |
| `sql_text.dfy` | `SqlText` | the DROP, CREATE and INSERT text of `_save_to_sqlite` |
| `collector.dfy` | `Collector` | `DBCollector`: connect, dispatch, load queries, collect, run all, close |

Abstractions:

- **Source databases.** A `SourceDb` value stands for the source engines. It says whether a dial request is accepted, and what running a query on an accepted connection yields. One value serves a whole run, so every round sees the same acceptance and the same answers.
- **The connection test.** Its drivers are a `Dialer` parameter.
- **The file system.** A `FileSystem` value maps each directory to its entries in glob order. An entry has no text when opening or reading it raises, as for a directory named `x.sql` or a file that is not UTF-8.
- **The destination.** A `Destination.Store` has two views:
  - `live`: what the connection sees;
  - `durable`: what is committed to the file.

  It also records whether a transaction is open, and the number of commits.
  A collector's `file` is the destination file as of the last open or close. While a connection is open, what its commits write to the file is the store's `durable` view, and closing copies that view into `file`.
- **Fetched cells.** A cell is an integer, text, None or a boolean, or a float, bytes, a date or a datetime. Anything else, such as a `Decimal` or a `time`, is a foreign object that `sqlite3` has no adapter for.

## Model

| member | source | states |
|---|---|---|
| ConfigFile.LoadConfig | src/db_config_manager.py:17-24 | An existing file's document is used as parsed. Without a file, the registry is empty, the output path is `../data/collected_data.db`, the query directory is `sql_queries` and the batch size falls back to 1000. |
| Profiles.RegistryPositions | src/db_config_manager.py:32-38 | The listing has one name per registry entry, in insertion order. Looking up the i-th listed name finds the i-th entry's profile. |
| Profiles.AddDatabase | src/db_config_manager.py:40-47 | After adding, the name maps to the given profile and every other name keeps its profile. A new name is appended to the listing; an existing name keeps its position. The rest of the document is unchanged. |
| Profiles.UpdateDatabase | src/db_config_manager.py:49-56 | Updating fails with the not-registered error exactly when the name is unknown. Otherwise only that name's profile changes, and the listing order is kept. |
| Profiles.DeleteDatabase | src/db_config_manager.py:58-65 | Deleting fails exactly when the name is unknown. Otherwise the name becomes unknown, every other profile is unchanged, and the listing loses exactly that position. |
| Profiles.ListDatabases | src/db_config_manager.py:32-34 | The listing has one name per registry entry and no name twice. A name is listed exactly when looking it up finds a profile. |
| Profiles.GetDatabase | src/db_config_manager.py:36-38 | Looking up a name finds a profile exactly when the name is listed, and that profile is the one registered under the name. |
| Profiles.FreshConfigIsEmpty | src/db_config_manager.py:17-21 | A manager started without a file lists no profile and finds none. |
| Profiles.ReadEndpoint | src/db_config_manager.py:79-85 | Reading host, port, database, user and password succeeds exactly when all five keys are present. It returns their stored values; a missing one is a KeyError on one of these keys. |
| Profiles.ProbeRequest | src/db_config_manager.py:76-134 | The four known engine tags yield a dial request for their own driver. The request succeeds exactly when the keys that engine reads are present. Oracle dials by service name exactly when `service_name` is present, and by SID otherwise. Any other tag is refused. PostgreSQL and MySQL requests carry the five values ReadEndpoint reads. An Oracle request carries the stored host, port, user and password. A SQL Server request is the ODBC string built from the five values. |
| Drivers.OdbcConnectionString | src/db_config_manager.py:116-122 | The string starts with the fixed ODBC Driver 17 clause, then `SERVER=` and the host's `str()`. It ends with `;PWD=` and the password's `str()`. Its length is the fixed text plus the five rendered values, so nothing else of the profile enters it. |
| Profiles.ProbeTarget | src/db_config_manager.py:74-126 | A profile without `type` fails with the `type` KeyError before anything is dialed. Otherwise the dial request is the one its engine tag selects. |
| Profiles.TestConnection | src/db_config_manager.py:67-134 | The test reports a connection only when something was dialed and the driver accepted it. It dials exactly when the name is registered and its profile yields a request, and then it dials that request. An unknown name reports failure without dialing. |
| Profiles.TestConnectionAsWritten | src/db_config_manager.py:67-74 | As written, the test raises the `type` KeyError exactly when the profile is registered, non-empty and lacks `type`. In every other case it agrees with the corrected test. |
| Profiles.TypelessProfileRaises | src/db_config_manager.py:69-74 | Counterexample: for a registered profile without `type`, the test as written raises. The corrected test reports a plain failure. |
| Menu.ChoicesCoverEngines | src/db_config_manager.py:154-176 | The menu accepts exactly the entries 1 to 4. Entry n selects the n-th engine. Distinct engines get distinct tags and distinct default ports. |
| Menu.MenuExtra | src/db_config_manager.py:193-207 | The engine-specific key is never one of the six common ones. Oracle gets `service_name` in mode 1 (the default) and `sid` otherwise. SQL Server gets `trusted_connection` exactly on a yes. The Oracle key holds the answer given for it, and `trusted_connection` holds True. |
| Menu.AnswersProfile | src/db_config_manager.py:167-207 | The built profile holds the six common keys in order, plus at most one more. A blank host means `localhost`, and a blank port means the engine's default port. The type tag, port, database, user and password are as given. The extra key appears under the same conditions and with the same value as in MenuExtra. |
| Menu.MenuProfile | src/db_config_manager.py:143-178 | Nothing is built exactly when the name is empty or the menu entry is unknown. The port's ValueError is raised exactly when the entry is valid and the port answer is not a number. Otherwise the profile is built from the answers. |
| Menu.InteractiveAdd | src/db_config_manager.py:137-210 | An early return leaves the document unchanged, and a bad port escapes as the error. Otherwise the built profile is registered under its name with add's guarantees: other profiles unchanged, new names appended, existing names kept in place. |
| Menu.DetailView | src/db_config_manager.py:249-260 | The detail view lists every key of the profile in order. The password is shown as one `*` per character of its `str()`, and every other value as its `str()`. |
| Menu.MaskedPasswordLength | src/db_config_manager.py:254-256 | The view holds the masked password. The mask is as long as the password's `str()`, and for a non-negative integer password it is as long as its decimal digits. |
| Menu.MenuProfileDialable | src/db_config_manager.py:194-201 | Every profile the menu builds yields a dial request. An Oracle profile dials by service name exactly when mode 1 was chosen. |
| WebUi.FormExtra | src/web_config_ui.py:46-55 | An Oracle form takes the service name when one is given, else the SID when one is given, else nothing. A SQL Server form takes `trusted_connection = True` when the box is ticked. The extra key is never a common one. |
| WebUi.ParsedFormProfile | src/web_config_ui.py:37-55 | The form's profile holds the six common keys in order, storing each submitted field (or None), plus at most the one extra key of FormExtra. |
| WebUi.FormProfile | src/web_config_ui.py:40 | Building the form's profile fails with the `port` ValueError exactly when the port does not parse as an integer. |
| WebUi.ListingRow | src/web_config_ui.py:17-25 | An index row exists exactly when the profile has the listed fields. It shows the name and the profile's own type, host, port and database. Otherwise it fails with the KeyError of the first missing field. |
| WebUi.Listing | src/web_config_ui.py:15-25 | The rows follow the entries one to one, in order. The first entry lacking a listed field aborts the page with that field's KeyError. |
| WebUi.Index | src/web_config_ui.py:12-26 | The index succeeds exactly when every registered profile has the listed fields. Row i then shows the i-th listed name with the profile registered under it. A failure is a KeyError on a listed field. |
| WebUi.AddPost | src/web_config_ui.py:29-58 | Posting the add form fails only on a bad port. Otherwise the form's profile is registered under the submitted name with add's guarantees. |
| WebUi.EditPost | src/web_config_ui.py:63-89 | Posting the edit form fails on a bad port, which is checked first, or on an unknown name. Otherwise only that name's profile is replaced, and the listing order is kept. |
| WebUi.DeletePost | src/web_config_ui.py:95-102 | The delete reply reports success exactly when the name was registered, and then the name is gone and the listing is one shorter. Otherwise the reply carries the error and nothing changes. Other profiles never change. |
| WebUi.TestPost | src/web_config_ui.py:105-109 | The test reply reports success exactly when the registered profile yields a dial request that the driver accepts. |
| WebUi.TestPostAsWritten | src/web_config_ui.py:105-109 | With `test_connection` as written, the route raises the `type` KeyError exactly when the profile is registered, non-empty and lacks `type`. Every other request gets the reply of WebUi.TestPost. |
| WebUi.FormProfileDialable | src/web_config_ui.py:46-51 | A form profile for a supported engine yields a dial request, except an Oracle form with neither a service name nor a SID. |
| Paths.DirName | db_collector.py:45 | The directory part is a prefix of the path that ends no later than its last `/`. It is non-empty whenever the path holds a `/`. |
| Paths.DirNameEmpty | db_collector.py:45 | The directory part of a path is empty exactly when the path holds no `/`. |
| Paths.Stem | db_collector.py:91 | The stem is a prefix of the name. When it is not the whole name, a `.` follows it, and neither the stem nor the part after the dot is empty. |
| Paths.StemOfSqlFile | db_collector.py:89-91 | A query file's stem is its name without the `.sql` suffix. The bare name `.sql` keeps its whole name. |
| ConfigFile.OutputPath | db_collector.py:44 | Reading the output path raises KeyError on `sqlite` when that section is missing, and on `output_path` when the key is missing. Otherwise it is the configured path. |
| ConfigFile.BatchSize | db_collector.py:155 | The batch size is the configured `options.batch_size`, and 1000 when the section or the key is missing. |
| Batching.ChunksFlatten | db_collector.py:156-158 | Joining the batches back together gives the rows, so batching loses, duplicates and reorders nothing. |
| Batching.ChunksShape | db_collector.py:156-157 | Every batch is non-empty and at most b rows long. Only the last batch may be shorter. |
| Batching.ChunksCount | db_collector.py:156 | There are ceil(n / b) batches for n rows, none for no rows. |
| Batching.ChunkAt | db_collector.py:156-157 | Batch k is the slice starting at k * b, clamped at the end of the rows. |
| Batching.FailingSlice | db_collector.py:156-158 | With f the first row that fails, the first failing batch is number f / b, and it fails at offset f % b. When no row fails, no batch fails. |
| Destination.Open | db_collector.py:47 | A newly opened connection sees exactly the committed tables, with no transaction open and no commit made. |
| Destination.DropTable | db_collector.py:144 | DROP TABLE IF EXISTS removes the table (compared case-insensitively) and leaves every other table as it was. |
| Destination.CreateTable | db_collector.py:147-149 | CREATE TABLE succeeds exactly when no such table exists and the column list is non-empty without duplicates. It adds the empty table and autocommits when no transaction is open. |
| Destination.InsertMany | db_collector.py:158 | The batch insert appends rows up to the first that does not bind, and fails exactly when there is such a row. A transaction is left open and nothing is committed. |
| Destination.Commit | db_collector.py:159 | Commit makes everything the connection sees durable, and closes the transaction. |
| Destination.LoadChunks | db_collector.py:156-159 | The loop over no batch changes nothing, and any failure of the loop is the binding error. |
| Destination.LoadChunksOutcome | db_collector.py:156-159 | The batch loop fails exactly when some batch fails, after one commit per earlier batch. A failure leaves the transaction open. |
| Destination.LoadChunksLive | db_collector.py:156-159 | After the loop the table holds its old rows, every earlier batch, and the failing batch up to its bad row. Other tables are untouched. |
| Destination.LoadChunksDurable | db_collector.py:156-159 | After the loop the file holds the table as it stood after the last batch that succeeded. When no batch succeeded, the file is unchanged. |
| Destination.SaveTable | db_collector.py:143-159 | A bad column list fails with the schema error and leaves no table. Otherwise the table is recreated with the fetched columns. A batch size of 0 raises after the CREATE, and a negative one leaves the table empty without error. Other tables are untouched. |
| Destination.SaveTableSucceeds | db_collector.py:143-159 | When every row binds, the table holds exactly the fetched columns and rows. There are ceil(n / b) commits for n rows, and with at least one row everything is committed. |
| Destination.SaveTableFails | db_collector.py:156-159 | With f the first row that does not bind, the save fails with the binding error. The connection shows `rows[..f]` after f / b commits, with the transaction open. |
| Destination.SaveTableFailsDurable | db_collector.py:156-159 | After such a failure, the file holds the whole batches before the failing one. When the first batch fails, it holds the empty recreated table, or the old file if a transaction was already open. |
| Destination.NextSaveCommitsPartialRows | db_collector.py:156-159 | When a save fails at row f, a later save of a non-empty result to another table, in which every row binds, commits the open transaction. The file then holds the failed table with exactly its first f rows. |
| Destination.SaveTableOkMeansBindable | db_collector.py:152-159 | With a positive batch size, a save succeeds only if the column list is acceptable and every row binds. |
| SqlText.InsertPlaceholders | db_collector.py:152-153 | The INSERT statement holds one `?` per column, plus any `?` in the table name itself. |
| SqlText.CreateColumnCount | db_collector.py:147-148 | With comma-free column names, the CREATE's column list has one separator between each pair of columns. It therefore declares as many columns as were fetched. |
| SqlText.CreateSqlCommas | db_collector.py:147-149 | With comma-free column names, the CREATE statement's commas are one per pair of neighbouring columns plus any in the table name, so it declares as many columns as were fetched. |
| SqlText.BindsToInsert | db_collector.py:152-158 | A row binds exactly when it has one cell per placeholder of the INSERT and every cell is storable. |
| Collector.ConnectSqliteAsWritten | db_collector.py:42-49 | As written, connecting fails exactly when the output path is missing or has no directory part, the latter through `os.makedirs('')`. Otherwise it agrees with the corrected connect. |
| Collector.ConnectSqlite | db_collector.py:42-49 | Connecting fails only on a missing output path. Otherwise it opens a connection on the committed tables, with no transaction open. |
| Collector.BareFileNameRaises | db_collector.py:44-45 | Counterexample: the output path `collected.db` raises as written. The corrected connect opens it. |
| Collector.SourceRequest | db_collector.py:51-75 | The source dispatch reads the registry, then the profile, then `type`, each a KeyError when absent. It yields a request exactly for PostgreSQL and MySQL profiles that have all five connection keys, and passes each key's value through. Any other tag that is present is the unsupported-type error for that tag. |
| Collector.SourceDialsLikeProbe | db_collector.py:51-78 | For PostgreSQL and MySQL profiles, the collector dials exactly what the connection test dials. Oracle and SQL Server profiles, which the test supports, the collector refuses. |
| Collector.Fetch | db_collector.py:112-120 | A dispatch failure is propagated, and a refused dial fails. A fetch succeeds only with the columns and rows the source returned for this query. A statement without a result set fails. |
| Collector.ExecuteAndCollect | db_collector.py:96-134 | A source connection is opened and closed exactly when the profile is reachable. A source-side failure leaves the collector untouched and is propagated. A success reports the number of fetched rows. |
| Collector.Attach | db_collector.py:138-141 | A save uses the open connection, or opens one when none was opened. A closed connection fails. |
| Collector.AttachAsWritten | db_collector.py:138-139 | With the connect as written, a save on a collector that has no connection yet raises the `os.makedirs('')` error when the output path is a bare file name, where Collector.Attach opens the file. In every other case the two agree. |
| Collector.SaveToSqlite | db_collector.py:136-161 | Saving leaves the `file` snapshot as it was: its commits go to the open connection's committed view, which reaches `file` on close. It fails with the schema error on bad columns and with the zero-batch error on a zero batch size. A negative batch size leaves an empty table. |
| Collector.Close | db_collector.py:181-185 | Closing an open connection keeps only the committed tables in the file. Otherwise nothing changes. |
| Collector.CollectedExactly | db_collector.py:96-161 | A successful collect with a positive batch size leaves the table holding exactly the fetched columns and rows, after ceil(n / b) commits for n rows. |
| Collector.CollectedKeptOnClose | db_collector.py:156-159 | After such a collect of at least one row, everything is committed, so the table survives closing with exactly the fetched rows. |
| Collector.CollectSucceeds | db_collector.py:124-127 | When the result set is fetched, the destination can be attached, the column list is acceptable and every row binds, the collect reports the number of fetched rows. The table then holds exactly those columns and rows. |
| Collector.CollectStopsAtBadRow | db_collector.py:136-161 | A row that does not bind fails the collect with the binding error. The table then shows the rows before it, in an open transaction. |
| Collector.ClosedCollectorFails | db_collector.py:138-141 | After closing, every collect fails and the collector stays as it was. A query that fetches fails on the closed destination. |
| Collector.CloseIdempotent | db_collector.py:181-185 | Closing twice is closing once. |
| Collector.Gather | db_collector.py:89-91 | Reading fails exactly when some matched entry cannot be read, with the first such entry's name. Otherwise the keys are the distinct stems in the order they first occur, and each stem maps to the text of the last `*.sql` entry with that stem. |
| Collector.DistinctStemsMembers | db_collector.py:89-91 | A stem is a key exactly when some matched entry has it. |
| Collector.DistinctStemsOrder | db_collector.py:89-91 | The keys are ordered by where each stem first occurs in glob order, as a dict filled in that order keeps them. |
| Collector.LoadSqlFiles | db_collector.py:80-94 | A missing `sql_directory` raises KeyError. A directory that does not exist gives no query. Otherwise loading fails exactly when a matched entry cannot be read, naming the first one. Its keys are the distinct stems in order of first occurrence, and each maps to its last file's text. |
| Collector.CollectOne | db_collector.py:172-177 | One round opens and closes its own source connection to the configured profile. The collector and trace it leaves are those of collecting the query. The entry is a success with the row count exactly when that collect succeeded, and otherwise the failure with its error. The entry agrees with what the source returned. |
| Collector.Rounds | db_collector.py:172-174 | The rounds start from the given collector, with one more collector per query file. |
| Collector.RoundNext | db_collector.py:172-174 | Each round starts from the collector the previous round left. |
| Collector.RoundsKeepConfig | db_collector.py:172-177 | No round changes the configuration or the `file` snapshot; a round's commits go to the open connection's committed view. |
| Collector.RoundsStayOpen | db_collector.py:172-177 | No round closes the destination connection. |
| Collector.RunRecordsBadRow | db_collector.py:172-177 | In a run on an unclosed collector with a positive batch size, a query whose result has a row that does not bind is recorded as failed with the binding error. Its table holds the rows before that row. |
| Collector.RunRecordsCleanResult | db_collector.py:172-175 | In a run on an unclosed collector with a positive batch size, a query whose result set binds completely is recorded as a success with the number of rows the source returned. Its table holds exactly those rows. |
| Collector.RunRecordsSuccess | db_collector.py:172-177 | In a run with a positive batch size, a query recorded as a success is recorded with the number of rows the source returned. Its table holds exactly those columns and rows. |
| Collector.RecordedReports | db_collector.py:172-177 | An entry equal to its round's outcome agrees with the source. When the profile yields no dial request, every entry is that failure. |
| Collector.RunQueries | db_collector.py:171-179 | The report has exactly one entry per query file, in load order, under that file's name. Entry i is the outcome of collecting file i on the collector the earlier rounds left, and the final collector is the last round's. Every source connection opened is closed before the next opens. The `file` snapshot stays as it was, since commits go to the open connection's committed view. |
| Collector.RunAll | db_collector.py:163-179 | A load error (a missing `sql_directory` or an unreadable query file) escapes before any query runs. With no query file the result is None, and no connection is opened. Otherwise the report covers exactly the loaded files, entry i is round i's outcome, and each entry agrees with the source. |
| Values.Render | src/db_config_manager.py:254-256 | Python's `str()`: `None`, `True` or `False`, a string as itself, and an integer as its decimal digits with no leading zero, starting with `-` exactly when it is negative. |
| OrderedMap.Set | src/db_config_manager.py:45 | Assigning a key makes it map to the value and leaves other keys alone. A new key is appended; an existing key keeps its position. |
| OrderedMap.Remove | src/db_config_manager.py:63 | Deleting a key removes exactly that key, keeping the others in order. |
| OrderedMap.Get | src/db_config_manager.py:38 | Looking up a key finds the value stored under it, and nothing for an absent key. |

## Left out

- YAML parsing and writing (`yaml.safe_load`, `_save_config` with its `os.makedirs`) and `load_dotenv`. A document is a `Config` value, and every mutation returns the new document instead of writing it.
- `_setup_logging` and all log and `print` output. An unknown log level makes `getattr` raise in the collector's constructor; that is not modelled.
- The collector's own `_load_config`, which opens the file unconditionally. The collector is handed its `Config`.
- The prompt loop of `main_menu`, its listing option (which prints what `WebUi.Index` reads), and its delete confirmation. The trailing connection-test prompt of `interactive_add_database` (lines 213-215) is left out too: it calls the modelled `test_connection`.
- Flask routing, templates, redirects, JSON encoding and the GET branches of the add and edit pages.
- Parsing with `int()`. A port arrives already parsed, or marked as rejected.
- WebUi.AddPost: the database name is taken as a string. The `None` key that a form without `db_name` would register is not modelled.
- The `__main__` blocks of the three files. Iterating the `None` returned by `run_all` for an empty query set is outside the model.
- The real drivers and the `sqlite3` library. They are abstracted as described above.
- Collector.SaveToSqlite: SQL text is interpolated without quoting. The model treats table and column names as identifiers and does not model SQL injection, parse errors from unusual names, or reserved words. A column list is acceptable when it is non-empty and free of case-insensitive duplicates.
- Destination.SaveTable: column affinity and value conversion. A stored row is the fetched row.
- The order of `Path.glob`. Directory entries are given in glob order.
- Exception messages. An exception is kept as its kind, not as its `str()`.
- Collector.SourceDb: acceptance and answers are fixed for a whole run. A source that refuses one round's dial and accepts another's (a flaky connection, which fails only that query) is not modelled. The trace-length clauses of Collector.RunQueries and Collector.RunAll (two events per query when the profile is reachable) rely on this.
- Values.Value: profile values are None, booleans, integers and strings. Other YAML scalars that `yaml.safe_load` can yield (floats, dates, datetimes) and nested values are not modelled, nor their `str()` in the password mask and the ODBC string.
- Collector.Attach: the save path (Collector.SaveToSqlite, Collector.ExecuteAndCollect and the run members) opens the destination with the corrected connect, so a bare output file name opens in the working directory. As written, every save on such a collector raises the `os.makedirs('')` error instead, and the run records it as each query's failure. Collector.AttachAsWritten states the difference.
- WebUi.TestPost: built on the corrected connection test, so it always gives a JSON reply. As written, a registered, non-empty profile without `type` makes the route raise. WebUi.TestPostAsWritten states the difference.
- Destination.Storable: which Python objects `sqlite3` adapts is reduced to the cell kinds above. Registered adapters and the conversion of each kind are not modelled.

Behaviour of the code that the model keeps as it is:

- With no query file, `run_all` returns None rather than an empty report (Collector.RunAll).
- The password mask has as many `*` as the password has characters, not a fixed length (Menu.DetailView).
- Nothing checks that an Oracle profile has a service name or a SID. A form with neither builds a profile without either key, and testing it fails with a KeyError before dialing (WebUi.FormProfileDialable).
- A port is whatever `int()` accepts. There is no 16-bit range check, and a non-numeric port raises ValueError.
- The ODBC connection string ignores `trusted_connection` (Drivers.OdbcConnectionString).
- The collector supports only PostgreSQL and MySQL sources (Collector.SourceDialsLikeProbe).
- A failed load is not rolled back:
  - whole batches before the failing row stay committed;
  - the failing batch's earlier rows stay visible in the open transaction (Destination.SaveTableFailsDurable);
  - `close()` discards those rows unless a later save commits first, which makes them durable (Destination.NextSaveCommitsPartialRows).
- `close()` does not reset the connection attribute, so every later save fails on the closed connection (Collector.ClosedCollectorFails).

## Findings

| source | as written | input that shows it | evidently intended | confidence | as-written member | corrected member |
|---|---|---|---|---|---|---|
| db_collector.py:44-47 | `os.makedirs(os.path.dirname(path))` is called even when the directory part is empty, and `os.makedirs('')` raises | `sqlite.output_path` set to `collected.db` | a bare file name opens the database in the working directory | not executed | Collector.ConnectSqliteAsWritten (counterexample Collector.BareFileNameRaises) | Collector.ConnectSqlite |
| src/db_config_manager.py:69-74 | `db_config['type']` is read before the `try`, so a profile without `type` raises KeyError | a registered profile `{host: db.internal}` with no `type` | `test_connection` returns False on any failure and never raises | not executed | Profiles.TestConnectionAsWritten (counterexample Profiles.TypelessProfileRaises) | Profiles.TestConnection |
