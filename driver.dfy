/**
  The database driver as seen from orm.go: every call into database/sql is
  replaced by an oracle, a total function whose result the model does not
  interpret. A `Conn` stands for one `*sql.DB`.
*/
module Driver {
  import opened Wrappers
  import opened Ints

  /** A non-nil Go `error` returned by the driver. */
  datatype DbError = DbError(message: string)

  datatype Result<+T> = Ok(value: T) | Err(error: DbError)

  /** The `sql.Result` of an Exec: what LastInsertId() and RowsAffected() return. */
  datatype ExecResult = ExecResult(lastInsertId: (Int64, Option<DbError>),
                                   rowsAffected: (Int64, Option<DbError>))

  /** A connection handle: `prepare(q)` is the error of Db.Prepare(q),
      `execStmt(q, args)` the outcome of Exec(args...) on the statement prepared
      from q, and `exec(q)` the outcome of Db.Exec(q) with no arguments. */
  datatype Conn = Conn(prepare: string -> Option<DbError>,
                       execStmt: (string, seq<string>) -> Result<ExecResult>,
                       exec: string -> Result<ExecResult>)

  /** What the pool stores under a name: the zero `&sql.DB{}` written before
      the driver is asked to open, or a handle the driver opened. */
  datatype DbHandle = Placeholder | Opened(id: nat)
}
