/** The statements `_save_to_sqlite` builds by plain string interpolation:
    CREATE TABLE with every column typed TEXT, and an INSERT with one `?` per
    column. (The DROP TABLE IF EXISTS is modelled by its effect only.) */
module SqlText {
  import opened Destination

  /** `sep.join(parts)`. */
  function Join(parts: seq<string>, sep: string): string
    decreases |parts|
  {
    if parts == [] then ""
    else if |parts| == 1 then parts[0]
    else parts[0] + sep + Join(parts[1..], sep)
  }

  /** `s.count(ch)`. */
  function Count(s: string, ch: char): nat
    decreases |s|
  {
    if s == [] then 0 else (if s[0] == ch then 1 else 0) + Count(s[1..], ch)
  }

  /** The occurrences of `ch` in every part, added up. */
  function CountAll(parts: seq<string>, ch: char): nat
    decreases |parts|
  {
    if parts == [] then 0 else Count(parts[0], ch) + CountAll(parts[1..], ch)
  }

  lemma {:induction false} CountAppend(a: string, b: string, ch: char)
    ensures Count(a + b, ch) == Count(a, ch) + Count(b, ch)
    decreases |a|
  {
    if a == [] {
      assert a + b == b;
    } else {
      assert (a + b)[1..] == a[1..] + b;
      CountAppend(a[1..], b, ch);
    }
  }

  /** Joining adds the separator's occurrences once between each pair of
      neighbouring parts. */
  lemma {:induction false} JoinCount(parts: seq<string>, sep: string, ch: char)
    requires parts != []
    ensures Count(Join(parts, sep), ch) == CountAll(parts, ch) + (|parts| - 1) * Count(sep, ch)
    decreases |parts|
  {
    if |parts| == 1 {
      assert CountAll(parts[1..], ch) == 0;
    } else {
      JoinCount(parts[1..], sep, ch);
      CountAppend(parts[0] + sep, Join(parts[1..], sep), ch);
      CountAppend(parts[0], sep, ch);
      assert (|parts| - 1) * Count(sep, ch) == (|parts| - 2) * Count(sep, ch) + Count(sep, ch);
    }
  }

  /** `f"{col} TEXT"` for each column, in order. */
  function ColumnDefs(cols: seq<string>): (defs: seq<string>)
    ensures |defs| == |cols|
    ensures forall i :: 0 <= i < |cols| ==> defs[i] == cols[i] + " TEXT"
  {
    seq(|cols|, i requires 0 <= i < |cols| => cols[i] + " TEXT")
  }

  /** `f"CREATE TABLE {table_name} ({columns_def})"`. */
  function CreateSql(t: string, cols: seq<string>): string {
    "CREATE TABLE " + t + " (" + Join(ColumnDefs(cols), ", ") + ")"
  }

  /** `["?" for _ in columns]`. */
  function Marks(n: nat): (ms: seq<string>)
    ensures |ms| == n && forall i :: 0 <= i < n ==> ms[i] == "?"
  {
    seq(n, _ => "?")
  }

  function InsertSql(t: string, n: nat): string {
    "INSERT INTO " + t + " VALUES (" + Join(Marks(n), ", ") + ")"
  }

  lemma {:induction false} MarksCount(n: nat)
    ensures CountAll(Marks(n), '?') == n
    ensures CountAll(Marks(n), ',') == 0
    decreases n
  {
    if n > 0 {
      MarksCount(n - 1);
      assert Marks(n)[1..] == Marks(n - 1);
    }
  }

  /** The INSERT carries exactly one placeholder per column, besides any `?`
      the interpolated table name itself holds. */
  lemma InsertPlaceholders(t: string, n: nat)
    ensures Count(InsertSql(t, n), '?') == n + Count(t, '?')
  {
    var head, mid, body := "INSERT INTO ", " VALUES (", Join(Marks(n), ", ");
    MarksCount(n);
    InsertLiterals();
    if n > 0 {
      JoinCount(Marks(n), ", ", '?');
    }
    CountAppend(head + t + mid + body, ")", '?');
    CountAppend(head + t + mid, body, '?');
    CountAppend(head + t, mid, '?');
    CountAppend(head, t, '?');
  }

  /** The fixed text of the INSERT holds no placeholder. */
  lemma InsertLiterals()
    ensures Count("INSERT INTO ", '?') == 0 && Count(" VALUES (", '?') == 0
    ensures Count(")", '?') == 0 && Count(", ", '?') == 0
  {
    InsertHeadLiteral();
    ValuesLiteral();
    Absent(")", '?');
    Absent(", ", '?');
  }

  lemma ValuesLiteral()
    ensures Count(" VALUES (", '?') == 0
  {
    Absent(" VALUES (", '?');
  }

  lemma InsertHeadLiteral()
    ensures Count("INSERT INTO ", '?') == 0
  {
    Absent("INSERT INTO ", '?');
  }

  lemma {:induction false} Absent(s: string, ch: char)
    requires ch !in s
    ensures Count(s, ch) == 0
    decreases |s|
  {
    if s != [] {
      assert s[0] != ch;
      Absent(s[1..], ch);
    }
  }

  /** With column names free of commas, the column list of the CREATE holds
      one comma between each pair of neighbouring columns, so it declares as
      many columns as were fetched. */
  lemma CreateColumnCount(cols: seq<string>)
    requires |cols| > 0 && forall i :: 0 <= i < |cols| ==> Count(cols[i], ',') == 0
    ensures Count(Join(ColumnDefs(cols), ", "), ',') == |cols| - 1
  {
    var defs := ColumnDefs(cols);
    NoCommaInDefs(cols);
    JoinCount(defs, ", ", ',');
    assert Count(", ", ',') == 1 by {
      Absent(" ", ',');
    }
  }

  /** The whole CREATE statement: with comma-free column names, its commas
      are the separators of the column list and any comma of the table name,
      so it declares one column per fetched column. */
  lemma CreateSqlCommas(t: string, cols: seq<string>)
    requires |cols| > 0 && forall i :: 0 <= i < |cols| ==> Count(cols[i], ',') == 0
    ensures Count(CreateSql(t, cols), ',') == |cols| - 1 + Count(t, ',')
  {
    var head, mid, body := "CREATE TABLE ", " (", Join(ColumnDefs(cols), ", ");
    CreateColumnCount(cols);
    CreateLiterals();
    CountAppend(head + t + mid + body, ")", ',');
    CountAppend(head + t + mid, body, ',');
    CountAppend(head + t, mid, ',');
    CountAppend(head, t, ',');
  }

  /** The fixed text of the CREATE holds no comma. */
  lemma CreateLiterals()
    ensures Count("CREATE TABLE ", ',') == 0 && Count(" (", ',') == 0 && Count(")", ',') == 0
  {
    CreateHeadLiteral();
    Absent(" (", ',');
    Absent(")", ',');
  }

  lemma CreateHeadLiteral()
    ensures Count("CREATE TABLE ", ',') == 0
  {
    Absent("CREATE TABLE ", ',');
  }

  lemma {:induction false} NoCommaInDefs(cols: seq<string>)
    requires forall i :: 0 <= i < |cols| ==> Count(cols[i], ',') == 0
    ensures CountAll(ColumnDefs(cols), ',') == 0
    decreases |cols|
  {
    if cols != [] {
      CountAppend(cols[0], " TEXT", ',');
      Absent(" TEXT", ',');
      NoCommaInDefs(cols[1..]);
      assert ColumnDefs(cols)[1..] == ColumnDefs(cols[1..]);
    }
  }

  /** A row binds to the INSERT for `cols` exactly when it has one cell per
      placeholder of the statement and every cell is storable. */
  lemma BindsToInsert(t: string, cols: seq<string>, row: Row)
    requires Count(t, '?') == 0
    ensures Bindable(row, |cols|) <==>
      |row| == Count(InsertSql(t, |cols|), '?') && forall i :: 0 <= i < |row| ==> Storable(row[i])
  {
    InsertPlaceholders(t, |cols|);
  }
}
