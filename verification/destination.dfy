/** The destination SQLite database as `_save_to_sqlite` drives it through
    Python's `sqlite3` module with its default transaction handling: DDL
    statements run in autocommit mode unless a transaction is already open, an
    INSERT first opens a transaction implicitly, `commit()` makes the open
    transaction durable, and `close()` drops whatever was not committed.
    Table and column names compare ASCII case-insensitively, as in SQLite. */
module Destination {
  import opened Values
  import opened Outcomes
  import opened Batching

  /** A value fetched from the source: a scalar; a `float`, stored as REAL;
      `bytes` or `memoryview`, stored as a BLOB; a `date` or `datetime`, which
      the module's default adapters store as ISO text. `Foreign` stands for an
      object of a type `sqlite3` has no adapter for, such as a `Decimal`. */
  datatype Cell =
    | Scalar(v: Value)
    | Float(x: real)
    | Blob(bytes: seq<bv8>)
    | Temporal(iso: string)
    | Foreign(typeName: string)

  type Row = seq<Cell>

  datatype Table = Table(columns: seq<string>, rows: seq<Row>)

  /** `live` is what the connection sees, `durable` what is committed to the
      file; `inTxn` says whether a transaction is open; `commits` counts the
      calls to `commit()`. Tables are keyed by their case-folded name. */
  datatype Store = Store(live: map<string, Table>, durable: map<string, Table>, inTxn: bool, commits: nat)

  /** Outside a transaction every change is already in the file. */
  predicate Settled(s: Store) {
    !s.inTxn ==> s.live == s.durable
  }

  /** The store a freshly opened connection sees: the file's tables. */
  function Open(file: map<string, Table>): (s: Store)
    ensures Settled(s) && s.live == file && s.durable == file && !s.inTxn && s.commits == 0
  {
    Store(file, file, false, 0)
  }

  function FoldChar(c: char): char {
    if 'A' <= c <= 'Z' then (c as int + 32) as char else c
  }

  /** SQLite's identifier comparison: ASCII letters fold to lower case. */
  function Fold(name: string): (r: string)
    ensures |r| == |name|
    ensures forall i :: 0 <= i < |name| ==> r[i] == FoldChar(name[i])
  {
    seq(|name|, i requires 0 <= i < |name| => FoldChar(name[i]))
  }

  const MinInt64: int := -0x8000_0000_0000_0000
  const MaxInt64: int := 0x7FFF_FFFF_FFFF_FFFF

  /** A cell `sqlite3` can bind: None, a bool, a 64-bit integer, a string, a
      float, a byte string or a date; an integer beyond 64 bits overflows. */
  predicate Storable(c: Cell) {
    !c.Foreign? && (c.Scalar? && c.v.Int? ==> MinInt64 <= c.v.i <= MaxInt64)
  }

  /** A row binds to an INSERT with `n` placeholders when it has exactly `n`
      cells and each one is storable. */
  predicate Bindable(row: Row, n: nat) {
    |row| == n && forall i :: 0 <= i < |row| ==> Storable(row[i])
  }

  /** `Bindable` as a test on rows, for the first-failure search. */
  function Binds(n: nat): Row -> bool {
    row => Bindable(row, n)
  }

  /** CREATE TABLE accepts a non-empty column list without duplicates. */
  predicate ValidColumns(cols: seq<string>) {
    |cols| > 0 && forall i, j :: 0 <= i < j < |cols| ==> Fold(cols[i]) != Fold(cols[j])
  }

  /** A DDL statement: autocommitted unless a transaction is open. */
  function Ddl(s: Store, live: map<string, Table>): (r: Store)
    ensures r.live == live && r.inTxn == s.inTxn && r.commits == s.commits
    ensures Settled(r)
    ensures s.inTxn ==> r.durable == s.durable
  {
    s.(live := live, durable := if s.inTxn then s.durable else live)
  }

  /** `DROP TABLE IF EXISTS t`. */
  function DropTable(s: Store, t: string): (r: Store)
    ensures Fold(t) !in r.live
    ensures forall u :: u != Fold(t) ==> (u in r.live <==> u in s.live)
    ensures forall u :: u != Fold(t) && u in s.live ==> r.live[u] == s.live[u]
    ensures r.inTxn == s.inTxn && r.commits == s.commits && Settled(r)
    ensures s.inTxn ==> r.durable == s.durable
  {
    Ddl(s, s.live - {Fold(t)})
  }

  /** `CREATE TABLE t (c1 TEXT, ...)`: fails on an existing table or a bad column list. */
  function CreateTable(s: Store, t: string, cols: seq<string>): (r: Result<Store>)
    ensures r.Ok? <==> Fold(t) !in s.live && ValidColumns(cols)
    ensures r.Err? ==> r.error == SchemaRejected(t)
    ensures r.Ok? ==> r.value.live == s.live[Fold(t) := Table(cols, [])]
    ensures r.Ok? ==> r.value.inTxn == s.inTxn && r.value.commits == s.commits && Settled(r.value)
    ensures r.Ok? && s.inTxn ==> r.value.durable == s.durable
  {
    if Fold(t) in s.live || !ValidColumns(cols) then Err(SchemaRejected(t))
    else Ok(Ddl(s, s.live[Fold(t) := Table(cols, [])]))
  }

  /** `executemany(INSERT ..., batch)`: opens a transaction, then inserts the
      rows in order up to the first that fails to bind, which raises; the rows
      already inserted stay in the open transaction. */
  function InsertMany(s: Store, t: string, batch: seq<Row>): (r: (Store, Option<Error>))
    requires Fold(t) in s.live
    ensures var tab := s.live[Fold(t)];
      var f := FirstFail(batch, Binds(|tab.columns|));
      r.0.live == s.live[Fold(t) := Table(tab.columns, tab.rows + batch[..f])]
      && (r.1.None? <==> f == |batch|)
    ensures r.1.Some? ==> r.1.value == BindingRejected
    ensures r.0.inTxn && r.0.durable == s.durable && r.0.commits == s.commits
  {
    var tab := s.live[Fold(t)];
    var f := FirstFail(batch, Binds(|tab.columns|));
    (s.(live := s.live[Fold(t) := Table(tab.columns, tab.rows + batch[..f])], inTxn := true),
     if f < |batch| then Some(BindingRejected) else None)
  }

  /** `commit()`. */
  function Commit(s: Store): (r: Store)
    ensures r.live == s.live && r.durable == s.live && !r.inTxn && r.commits == s.commits + 1
  {
    s.(durable := s.live, inTxn := false, commits := s.commits + 1)
  }

  /** Position of the first batch holding a row that fails to bind, or `|cs|`. */
  function FirstBadChunk(cs: seq<seq<Row>>, n: nat): (k: nat)
    ensures k <= |cs|
  {
    FirstFail(cs, SlicePasses(Binds(n)))
  }

  /** The batch loop: each batch is inserted and then committed; the first
      batch that fails ends the loop with its exception, uncommitted. */
  function LoadChunks(s: Store, t: string, cs: seq<seq<Row>>): (r: (Store, Option<Error>))
    requires Fold(t) in s.live
    ensures r.1.Some? ==> r.1.value == BindingRejected
    ensures cs == [] ==> r == (s, None)
    decreases |cs|
  {
    if cs == [] then (s, None)
    else
      var step := InsertMany(s, t, cs[0]);
      if step.1.Some? then step
      else LoadChunks(Commit(step.0), t, cs[1..])
  }

  /** The loop stops at the first failing batch, after one commit per batch
      before it; it fails exactly when some batch fails, and then leaves a
      transaction open. */
  lemma {:induction false} LoadChunksOutcome(s: Store, t: string, cs: seq<seq<Row>>)
    requires Fold(t) in s.live
    ensures var k := FirstBadChunk(cs, |s.live[Fold(t)].columns|);
      && (LoadChunks(s, t, cs).1.None? <==> k == |cs|)
      && LoadChunks(s, t, cs).0.commits == s.commits + k
      && (k < |cs| ==> LoadChunks(s, t, cs).0.inTxn)
      && (0 < k == |cs| ==> !LoadChunks(s, t, cs).0.inTxn)
    decreases |cs|
  {
    if cs != [] {
      var n := |s.live[Fold(t)].columns|;
      var step := InsertMany(s, t, cs[0]);
      if step.1.None? {
        var s1 := Commit(step.0);
        LoadChunksOutcome(s1, t, cs[1..]);
        assert FirstBadChunk(cs, n) == 1 + FirstBadChunk(cs[1..], n);
      } else {
        assert FirstBadChunk(cs, n) == 0;
      }
    }
  }

  /** What the connection sees afterwards: the table holds its old rows, then
      every row of the batches before the failing one, then the rows of the
      failing batch up to its first bad row. Other tables are untouched. */
  lemma {:induction false} LoadChunksLive(s: Store, t: string, cs: seq<seq<Row>>)
    requires Fold(t) in s.live
    ensures var tab := s.live[Fold(t)]; var n := |tab.columns|; var k := FirstBadChunk(cs, n);
      LoadChunks(s, t, cs).0.live == s.live[Fold(t) := Table(tab.columns, tab.rows + Flatten(cs[..k])
        + (if k < |cs| then cs[k][..FirstFail(cs[k], Binds(n))] else []))]
    decreases |cs|
  {
    var tab := s.live[Fold(t)];
    var n := |tab.columns|;
    if cs == [] {
      assert tab.rows + Flatten(cs[..0]) + [] == tab.rows;
      assert s.live[Fold(t) := tab] == s.live;
    } else {
      var step := InsertMany(s, t, cs[0]);
      if step.1.Some? {
        var f := FirstFail(cs[0], Binds(n));
        assert FirstBadChunk(cs, n) == 0;
        assert tab.rows + Flatten(cs[..0]) + cs[0][..f] == tab.rows + cs[0][..f];
      } else {
        var s1 := Commit(step.0);
        assert cs[0][..|cs[0]|] == cs[0];
        assert s1.live == s.live[Fold(t) := Table(tab.columns, tab.rows + cs[0])];
        assert LoadChunks(s, t, cs) == LoadChunks(s1, t, cs[1..]);
        LoadChunksLive(s1, t, cs[1..]);
        var k' := FirstBadChunk(cs[1..], n);
        assert FirstBadChunk(cs, n) == 1 + k';
        FlattenPrefix(cs, k');
        var tail := if k' < |cs[1..]| then cs[1..][k'][..FirstFail(cs[1..][k'], Binds(n))] else [];
        assert k' < |cs[1..]| ==> cs[1 + k'] == cs[1..][k'];
        assert (tab.rows + cs[0]) + Flatten(cs[1..][..k']) + tail == tab.rows + Flatten(cs[..1 + k']) + tail;
      }
    }
  }

  lemma FlattenPrefix<T>(cs: seq<seq<T>>, k: nat)
    requires k < |cs|
    ensures Flatten(cs[..1 + k]) == cs[0] + Flatten(cs[1..][..k])
  {
    assert cs[..1 + k] == [cs[0]] + cs[1..][..k];
    assert (cs[..1 + k])[1..] == cs[1..][..k];
  }

  /** What is committed afterwards: the table as it stood after the last
      successful batch, or the file as it was when no batch succeeded. */
  lemma {:induction false} LoadChunksDurable(s: Store, t: string, cs: seq<seq<Row>>)
    requires Fold(t) in s.live
    ensures var tab := s.live[Fold(t)]; var k := FirstBadChunk(cs, |tab.columns|);
      k > 0 ==> LoadChunks(s, t, cs).0.durable == s.live[Fold(t) := Table(tab.columns, tab.rows + Flatten(cs[..k]))]
    ensures FirstBadChunk(cs, |s.live[Fold(t)].columns|) == 0 ==> LoadChunks(s, t, cs).0.durable == s.durable
    decreases |cs|
  {
    var tab := s.live[Fold(t)];
    var n := |tab.columns|;
    if cs != [] {
      var step := InsertMany(s, t, cs[0]);
      if step.1.Some? {
        assert FirstBadChunk(cs, n) == 0;
      } else {
        var s1 := Commit(step.0);
        assert cs[0][..|cs[0]|] == cs[0];
        assert s1.live == s.live[Fold(t) := Table(tab.columns, tab.rows + cs[0])];
        assert LoadChunks(s, t, cs) == LoadChunks(s1, t, cs[1..]);
        LoadChunksDurable(s1, t, cs[1..]);
        var k' := FirstBadChunk(cs[1..], n);
        assert FirstBadChunk(cs, n) == 1 + k';
        FlattenPrefix(cs, k');
        if k' == 0 {
          assert Flatten(cs[1..][..0]) == [];
          assert tab.rows + Flatten(cs[..1]) == tab.rows + cs[0];
        } else {
          assert (tab.rows + cs[0]) + Flatten(cs[1..][..k']) == tab.rows + Flatten(cs[..1 + k']);
        }
      }
    }
  }

  /** When every batch binds, the loop appends all of them and commits after
      each, so with at least one batch nothing is left uncommitted. */
  lemma LoadChunksAll(s: Store, t: string, cs: seq<seq<Row>>)
    requires Fold(t) in s.live && FirstBadChunk(cs, |s.live[Fold(t)].columns|) == |cs|
    ensures var tab := s.live[Fold(t)];
      LoadChunks(s, t, cs).0.live == s.live[Fold(t) := Table(tab.columns, tab.rows + Flatten(cs))]
    ensures LoadChunks(s, t, cs).1.None? && LoadChunks(s, t, cs).0.commits == s.commits + |cs|
    ensures cs != [] ==> !LoadChunks(s, t, cs).0.inTxn && LoadChunks(s, t, cs).0.durable == LoadChunks(s, t, cs).0.live
  {
    var tab := s.live[Fold(t)];
    LoadChunksOutcome(s, t, cs);
    LoadChunksLive(s, t, cs);
    LoadChunksDurable(s, t, cs);
    assert cs[..|cs|] == cs;
    assert tab.rows + Flatten(cs[..|cs|]) + [] == tab.rows + Flatten(cs);
  }

  /** When batch `k` is the first that fails, the loop stops inside it after
      `k` commits with the transaction open; what is committed is the table
      after batch `k - 1`, or the state before the loop when `k` is 0. */
  lemma LoadChunksStops(s: Store, t: string, cs: seq<seq<Row>>, k: nat)
    requires Fold(t) in s.live && k < |cs| && FirstBadChunk(cs, |s.live[Fold(t)].columns|) == k
    ensures var tab := s.live[Fold(t)];
      LoadChunks(s, t, cs).0.live == s.live[Fold(t) := Table(tab.columns, tab.rows + Flatten(cs[..k])
        + cs[k][..FirstFail(cs[k], Binds(|tab.columns|))])]
    ensures LoadChunks(s, t, cs).1 == Some(BindingRejected)
    ensures LoadChunks(s, t, cs).0.commits == s.commits + k && LoadChunks(s, t, cs).0.inTxn
    ensures var tab := s.live[Fold(t)];
      k > 0 ==> LoadChunks(s, t, cs).0.durable == s.live[Fold(t) := Table(tab.columns, tab.rows + Flatten(cs[..k]))]
    ensures k == 0 ==> LoadChunks(s, t, cs).0.durable == s.durable
  {
    LoadChunksOutcome(s, t, cs);
    LoadChunksLive(s, t, cs);
    LoadChunksDurable(s, t, cs);
  }

  /** The body of `_save_to_sqlite` once the connection is open: DROP TABLE IF
      EXISTS, CREATE TABLE with the fetched column names, then the batch loop
      with batch size `b`. A zero batch size makes `range()` raise after the
      table was recreated; a negative one makes the loop run zero times. */
  function SaveTable(s: Store, t: string, cols: seq<string>, rows: seq<Row>, b: int): (r: (Store, Option<Error>))
    ensures !ValidColumns(cols) ==> r.1 == Some(SchemaRejected(t)) && Fold(t) !in r.0.live
    ensures ValidColumns(cols) ==> Fold(t) in r.0.live && r.0.live[Fold(t)].columns == cols
    ensures ValidColumns(cols) && b <= 0 ==> r.0.live[Fold(t)] == Table(cols, [])
    ensures ValidColumns(cols) && b == 0 ==> r.1 == Some(ZeroBatchSize)
    ensures ValidColumns(cols) && b < 0 ==> r.1.None?
    ensures forall u :: u != Fold(t) ==> (u in r.0.live <==> u in s.live)
    ensures forall u :: u != Fold(t) && u in s.live ==> r.0.live[u] == s.live[u]
  {
    var s1 := DropTable(s, t);
    match CreateTable(s1, t, cols)
    case Err(e) => (s1, Some(e))
    case Ok(s2) =>
      if b == 0 then (s2, Some(ZeroBatchSize))
      else if b < 0 then (s2, None)
      else
        LoadChunksLive(s2, t, Chunks(rows, b));
        LoadChunks(s2, t, Chunks(rows, b))
  }

  /** The store after DROP TABLE and a successful CREATE TABLE: the table is
      present and empty. */
  function Recreated(s: Store, t: string, cols: seq<string>): (s2: Store)
    requires ValidColumns(cols)
    ensures Fold(t) in s2.live && s2.live[Fold(t)] == Table(cols, [])
    ensures !s.inTxn ==> s2.durable == s2.live
    ensures s.inTxn ==> s2.durable == s.durable && s2.inTxn
    ensures s2.commits == s.commits
  {
    CreateTable(DropTable(s, t), t, cols).value
  }

  /** With a positive batch size and an acceptable column list, the save is
      the batch loop run on the recreated, empty table. */
  lemma SaveTableLoads(s: Store, t: string, cols: seq<string>, rows: seq<Row>, b: int)
    requires ValidColumns(cols) && b > 0
    ensures SaveTable(s, t, cols, rows, b) == LoadChunks(Recreated(s, t, cols), t, Chunks(rows, b))
  {
  }

  /** The batch loop over the slices of `rows`, started on an empty table,
      when row `f` is the first that fails to bind: it raises the binding
      error after one commit per earlier batch, showing `rows[..f]` in the
      open transaction; when the first batch fails nothing is committed. */
  lemma LoadRowsStop(s: Store, t: string, cols: seq<string>, rows: seq<Row>, b: int)
    requires Fold(t) in s.live && s.live[Fold(t)] == Table(cols, [])
    requires b > 0 && FirstFail(rows, Binds(|cols|)) < |rows|
    ensures LoadChunks(s, t, Chunks(rows, b)).1 == Some(BindingRejected)
    ensures LoadChunks(s, t, Chunks(rows, b)).0.live == s.live[Fold(t) := Table(cols, rows[..FirstFail(rows, Binds(|cols|))])]
    ensures LoadChunks(s, t, Chunks(rows, b)).0.commits == s.commits + FirstFail(rows, Binds(|cols|)) / b
    ensures LoadChunks(s, t, Chunks(rows, b)).0.inTxn
    ensures FirstFail(rows, Binds(|cols|)) / b == 0 ==> LoadChunks(s, t, Chunks(rows, b)).0.durable == s.durable
  {
    var cs := Chunks(rows, b);
    var tab := s.live[Fold(t)];
    var k, r := FailurePoint(rows, b, Binds(|cols|));
    assert tab.rows == [] && |tab.columns| == |cols|;
    LoadChunksStops(s, t, cs, k);
    var done := Flatten(cs[..k]) + cs[k][..r];
    assert tab.rows + Flatten(cs[..k]) + cs[k][..FirstFail(cs[k], Binds(|tab.columns|))] == [] + done;
    assert [] + done == rows[..FirstFail(rows, Binds(|cols|))];
  }

  /** In the same situation, when an earlier batch succeeded, the file holds
      the batches before the failing one. */
  lemma LoadRowsStopDurable(s: Store, t: string, cols: seq<string>, rows: seq<Row>, b: int)
    requires Fold(t) in s.live && s.live[Fold(t)] == Table(cols, [])
    requires b > 0 && FirstFail(rows, Binds(|cols|)) < |rows|
    ensures var f := FirstFail(rows, Binds(|cols|));
      f / b > 0 ==> LoadChunks(s, t, Chunks(rows, b)).0.durable == s.live[Fold(t) := Table(cols, rows[..BatchStart(f, b)])]
  {
    var k, r := FailurePoint(rows, b, Binds(|cols|));
    LoadChunksDurable(s, t, Chunks(rows, b));
    if k > 0 {
      assert [] + Flatten(Chunks(rows, b)[..k]) == rows[..BatchStart(FirstFail(rows, Binds(|cols|)), b)];
    }
  }

  /** With a positive batch size and an acceptable column list, a save in
      which every row binds succeeds: the table then holds exactly the fetched
      columns and rows, one commit follows each of the ceil(|rows| / b)
      batches, and when there was at least one batch everything is committed. */
  lemma SaveTableSucceeds(s: Store, t: string, cols: seq<string>, rows: seq<Row>, b: int)
    requires ValidColumns(cols) && b > 0 && AllBindable(rows, |cols|)
    ensures SaveTable(s, t, cols, rows, b).1.None?
    ensures SaveTable(s, t, cols, rows, b).0.live[Fold(t)] == Table(cols, rows)
    ensures SaveTable(s, t, cols, rows, b).0.commits == s.commits + (|rows| + b - 1) / b
    ensures |rows| > 0 ==> !SaveTable(s, t, cols, rows, b).0.inTxn
    ensures |rows| > 0 ==> SaveTable(s, t, cols, rows, b).0.durable == SaveTable(s, t, cols, rows, b).0.live
  {
    var n := |cols|;
    var s2 := Recreated(s, t, cols);
    var cs := Chunks(rows, b);
    SaveTableLoads(s, t, cols, rows, b);
    FirstFailIs(rows, Binds(n), |rows|);
    FailingSlice(rows, b, Binds(n));
    ChunksFlatten(rows, b);
    ChunksCount(rows, b);
    LoadChunksAll(s2, t, cs);
    assert [] + Flatten(cs) == rows;
  }

  /** Every row binds to an INSERT with `n` placeholders. */
  predicate AllBindable(rows: seq<Row>, n: nat) {
    forall i :: 0 <= i < |rows| ==> Bindable(rows[i], n)
  }

  /** With a positive batch size and an acceptable column list, a row that
      fails to bind makes the save fail with the binding error. With `f` the
      first such row, the table as the connection sees it holds `rows[..f]`,
      one commit having followed each batch before the failing one, and the
      transaction is left open. */
  lemma SaveTableFails(s: Store, t: string, cols: seq<string>, rows: seq<Row>, b: int)
    requires ValidColumns(cols) && b > 0 && FirstFail(rows, Binds(|cols|)) < |rows|
    ensures SaveTable(s, t, cols, rows, b).1 == Some(BindingRejected)
    ensures SaveTable(s, t, cols, rows, b).0.live[Fold(t)] == Table(cols, rows[..FirstFail(rows, Binds(|cols|))])
    ensures SaveTable(s, t, cols, rows, b).0.commits == s.commits + FirstFail(rows, Binds(|cols|)) / b
    ensures SaveTable(s, t, cols, rows, b).0.inTxn
  {
    SaveTableLoads(s, t, cols, rows, b);
    LoadRowsStop(Recreated(s, t, cols), t, cols, rows, b);
  }

  /** After such a failure the committed table holds the whole batches before
      the failing one, `rows[..f - f % b]`; when the very first batch fails,
      nothing of this table is committed beyond what the DDL left. */
  lemma SaveTableFailsDurable(s: Store, t: string, cols: seq<string>, rows: seq<Row>, b: int)
    requires ValidColumns(cols) && b > 0 && FirstFail(rows, Binds(|cols|)) < |rows|
    ensures var f := FirstFail(rows, Binds(|cols|)); var r := SaveTable(s, t, cols, rows, b);
      f / b > 0 ==> Fold(t) in r.0.durable && r.0.durable[Fold(t)] == Table(cols, rows[..BatchStart(f, b)])
    ensures var f := FirstFail(rows, Binds(|cols|)); var r := SaveTable(s, t, cols, rows, b);
      f / b == 0 && !s.inTxn ==> Fold(t) in r.0.durable && r.0.durable[Fold(t)] == Table(cols, [])
    ensures var f := FirstFail(rows, Binds(|cols|)); var r := SaveTable(s, t, cols, rows, b);
      f / b == 0 && s.inTxn ==> r.0.durable == s.durable
  {
    var s2 := Recreated(s, t, cols);
    SaveTableLoads(s, t, cols, rows, b);
    LoadRowsStop(s2, t, cols, rows, b);
    LoadRowsStopDurable(s2, t, cols, rows, b);
  }

  /** The rows a failed save leaves in the open transaction are not always
      lost: the next save that succeeds on a non-empty result commits that
      transaction, and with it the failed table's partial rows. */
  lemma NextSaveCommitsPartialRows(s: Store, a: string, colsA: seq<string>, rowsA: seq<Row>,
                                   t: string, cols: seq<string>, rows: seq<Row>, b: int)
    requires ValidColumns(colsA) && b > 0 && FirstFail(rowsA, Binds(|colsA|)) < |rowsA|
    requires Fold(a) != Fold(t) && ValidColumns(cols) && AllBindable(rows, |cols|) && |rows| > 0
    ensures var s1 := SaveTable(s, a, colsA, rowsA, b).0;
      var s2 := SaveTable(s1, t, cols, rows, b).0;
      Fold(a) in s2.durable && s2.durable[Fold(a)] == Table(colsA, rowsA[..FirstFail(rowsA, Binds(|colsA|))])
  {
    var s1 := SaveTable(s, a, colsA, rowsA, b).0;
    SaveTableFails(s, a, colsA, rowsA, b);
    SaveTableSucceeds(s1, t, cols, rows, b);
  }

  /** Under a positive batch size a save succeeds only when the column list
      is acceptable and every row binds. */
  lemma SaveTableOkMeansBindable(s: Store, t: string, cols: seq<string>, rows: seq<Row>, b: int)
    requires b > 0 && SaveTable(s, t, cols, rows, b).1.None?
    ensures ValidColumns(cols) && AllBindable(rows, |cols|)
  {
    var f := FirstFail(rows, Binds(|cols|));
    if f < |rows| {
      SaveTableFails(s, t, cols, rows, b);
      assert false;
    }
    forall i | 0 <= i < |rows| ensures Bindable(rows[i], |cols|) {
      assert Binds(|cols|)(rows[i]);
    }
  }
}
