/**
 * The relational store, seen only through the statements the pipeline
 * executes against it.  Every write of the source (a prepared insert or a
 * string-built bulk insert) is one `Statement`; the store either commits it
 * (it is appended to the commit log) or rejects it with an error.  Which
 * statements the server rejects is not known to the program, so it is a
 * fixed predicate given when the store is created.
 */
module Store {

  /** A value bound to one column of an inserted row. */
  datatype SqlValue =
    | Text(s: string)
    | Integer(i: int)
    | Decimal(x: real)
    | Timestamp(t: int)

  datatype Table = Messages | Snapshots

  /** `INSERT INTO table (...) VALUES row, row, ...` */
  datatype Statement = Insert(table: Table, rows: seq<seq<SqlValue>>)

  /** What `Exec` hands back on success: where the statement landed in the log. */
  datatype Receipt = Receipt(position: nat)

  class Database {
    /** Statements the store has committed, oldest first. */
    var committed: seq<Statement>
    /** Whether the server accepts a statement. */
    const accepts: Statement -> bool

    constructor (accepts: Statement -> bool)
      ensures committed == [] && this.accepts == accepts
    {
      committed := [];
      this.accepts := accepts;
    }

    /** `db.Exec` / `stmt.Exec`: commit the statement, or report an error and change nothing. */
    method Exec(st: Statement) returns (ok: bool, receipt: Receipt)
      modifies this
      ensures ok == accepts(st)
      ensures committed == if ok then old(committed) + [st] else old(committed)
      ensures ok ==> receipt == Receipt(|old(committed)|) && committed[receipt.position] == st
    {
      ok := accepts(st);
      receipt := Receipt(|committed|);
      if ok {
        committed := committed + [st];
      }
    }
  }
}
