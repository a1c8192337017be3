/** What is handed to a database driver when a connection is opened. The drivers
    themselves are foreign; the model keeps only the arguments, so that the
    dispatchers can be compared on what they would dial. */
module Drivers {
  import opened Values

  /** `cx_Oracle.makedsn(host, port, service_name=...)` or `(..., sid=...)`. */
  datatype Dsn =
    | ServiceDsn(host: Value, port: Value, serviceName: Value)
    | SidDsn(host: Value, port: Value, sid: Value)

  datatype DialRequest =
    | Psycopg(host: Value, port: Value, database: Value, user: Value, password: Value)   // psycopg2.connect
    | PyMySql(host: Value, port: Value, database: Value, user: Value, password: Value)   // pymysql.connect
    | CxOracle(user: Value, password: Value, dsn: Dsn)                                   // cx_Oracle.connect
    | PyOdbc(connectionString: string)                                                   // pyodbc.connect

  /** Whether a driver accepts the request: the connection opens, and closes again. */
  type Dialer = DialRequest -> bool

  const OdbcDriver: string := "DRIVER={ODBC Driver 17 for SQL Server};"

  /** The ODBC connection string built for SQL Server: the fixed driver
      clause, then SERVER, DATABASE, UID and PWD, each value rendered by
      `str()`. Nothing else of the profile takes part. */
  function OdbcConnectionString(host: Value, port: Value, database: Value, user: Value, password: Value): (s: string)
    ensures |s| == |OdbcDriver| + 28 + |Render(host)| + |Render(port)| + |Render(database)|
                   + |Render(user)| + |Render(password)|
    ensures s[..|OdbcDriver|] == OdbcDriver
    ensures s[|OdbcDriver|..|OdbcDriver| + 7 + |Render(host)|] == "SERVER=" + Render(host)
    ensures s[|s| - |Render(password)| - 5..] == ";PWD=" + Render(password)
  {
    var server := "SERVER=" + Render(host);
    var middle := "," + Render(port) + ";DATABASE=" + Render(database) + ";UID=" + Render(user);
    var pwd := ";PWD=" + Render(password);
    Parts(OdbcDriver, server, middle, pwd);
    OdbcDriver + (server + (middle + pwd))
  }

  /** Where each part of a concatenation sits. */
  lemma Parts<T>(a: seq<T>, b: seq<T>, c: seq<T>, d: seq<T>)
    ensures var s := a + (b + (c + d));
      |s| == |a| + |b| + |c| + |d| && s[..|a|] == a && s[|a|..|a| + |b|] == b && s[|s| - |d|..] == d
  {
  }
}
