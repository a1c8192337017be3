/** Optional values, the exceptions of the modelled code, and a failure-compatible
    result type so that `:-` propagates an exception the way Python unwinds. */
module Outcomes {
  import opened Values

  datatype Option<+T> = None | Some(value: T) {
    function GetOr(default: T): T {
      match this
      case Some(v) => v
      case None => default
    }
  }

  /** The exceptions raised (and caught) by the modelled code. Driver and
      database messages are represented by the kind of failure, not by text. */
  datatype Error =
    | KeyMissing(key: string)         // KeyError from indexing a dict
    | UnsupportedType(dbType: Value)  // ValueError from the collector's engine dispatch
    | NotRegistered(name: string)     // ValueError from update/delete of an unknown profile
    | ConnectRefused                  // any exception raised by a driver while connecting
    | QueryRejected(message: string)  // any exception raised while executing or fetching
    | SchemaRejected(table: string)   // sqlite3 error on CREATE TABLE
    | BindingRejected                 // sqlite3 error binding a row to the INSERT
    | ZeroBatchSize                   // range() called with a zero step
    | DatabaseClosed                  // use of the destination connection after close()
    | NoSuchDirectory(path: string)   // os.makedirs on a path that cannot be created
    | NotAnInteger(field: string)     // int() of a missing or non-numeric field or answer
    | NoResultSet                     // iterating `cursor.description` of a statement that returns no rows
    | Unreadable(file: string)        // open() or read() of a matched query file raises

  datatype Result<+T> = Ok(value: T) | Err(error: Error) {
    predicate IsFailure() {
      Err?
    }

    function PropagateFailure<U>(): Result<U>
      requires Err?
    {
      Err(error)
    }

    function Extract(): T
      requires Ok?
    {
      value
    }
  }
}
