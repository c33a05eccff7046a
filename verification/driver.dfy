/**
 * Fakes of the JDBC collaborators the template drives: the pooled data source,
 * connections, prepared statements and result cursors. The database behind
 * them is a `Script`: which driver call throws and which rows come back.
 */
module Driver {
  import opened Wrappers

  /** A parameter or column value, passed through `setObject`/`getObject` untyped. */
  datatype Value = Null | Long(n: int) | Str(s: string)

  /** One result row; column `c` (one-based, as JDBC counts) is `row[c - 1]`. */
  type Row = seq<Value>

  /** The driver's checked exception. */
  datatype SqlException = SqlException(message: string)

  /**
   * What reading a row can throw: the driver's `SQLException`, or an unchecked
   * exception raised by the caller's row mapper, which no `catch (SQLException)`
   * intercepts.
   */
  datatype Raised = Checked(sql: SqlException) | Unchecked(message: string)

  /** `ResultSet.getObject(column)`: a column outside the row throws. */
  function GetObject(row: Row, column: int): (r: Result<Value, SqlException>)
    ensures r.Success? <==> 1 <= column <= |row|
    ensures r.Success? ==> r.value == row[column - 1]
  {
    if 1 <= column <= |row| then Success(row[column - 1])
    else Failure(SqlException("invalid column index"))
  }

  /** An injected driver failure: the call numbered `step` (one-based) throws `cause`. */
  datatype Fault = Never | FailAt(step: nat, cause: SqlException) {
    predicate Hits(k: int) {
      FailAt? && step == k
    }
  }

  /** What a result cursor delivers: its rows, and which call of `next()` throws, if any. */
  datatype Cursor = Cursor(rows: seq<Row>, fault: Fault)

  /**
   * The behaviour of the database behind a data source, for every statement
   * prepared on its connections.
   *   prepare       - `Connection.prepareStatement` throws this, if present
   *   bind          - `setObject` at parameter index `bind.step` throws
   *   execute       - `executeUpdate`/`executeQuery` throws this, if present
   *   query         - the cursor `executeQuery` returns
   *   generatedKeys - the cursor `getGeneratedKeys` returns, or what it throws
   */
  datatype Script = Script(
    prepare: Option<SqlException>,
    bind: Fault,
    execute: Option<SqlException>,
    query: Cursor,
    generatedKeys: Result<Cursor, SqlException>)

  /** A forward-only cursor; after `calls` calls of `next()` returning true, row `calls` is current. */
  class ResultSet {
    const cursor: Cursor
    var calls: nat

    constructor (cursor: Cursor)
      ensures this.cursor == cursor && calls == 0
    {
      this.cursor := cursor;
      calls := 0;
    }

    predicate OnRow()
      reads this
    {
      1 <= calls <= |cursor.rows|
    }

    /** The row the cursor is positioned at (what a row mapper reads). */
    function Current(): Row
      reads this
      requires OnRow()
    {
      cursor.rows[calls - 1]
    }

    /** `ResultSet.next()`: advances, and tells whether a row is now current. */
    method Next() returns (r: Result<bool, SqlException>)
      modifies this
      ensures calls == old(calls) + 1
      ensures r == if cursor.fault.Hits(calls) then Failure(cursor.fault.cause)
                   else Success(calls <= |cursor.rows|)
    {
      calls := calls + 1;
      if cursor.fault.Hits(calls) {
        r := Failure(cursor.fault.cause);
      } else {
        r := Success(calls <= |cursor.rows|);
      }
    }
  }

  /** A recorder of the parameter bindings made on a statement. */
  class PreparedStatement {
    const sql: string
    /** The column whose generated keys were requested at prepare time, if any. */
    const keyColumn: Option<string>
    const script: Script
    /** Every successful `setObject(index, value)` call, in call order. */
    var bindings: seq<(int, Value)>

    constructor (sql: string, keyColumn: Option<string>, script: Script)
      ensures this.sql == sql && this.keyColumn == keyColumn && this.script == script
      ensures bindings == []
    {
      this.sql := sql;
      this.keyColumn := keyColumn;
      this.script := script;
      bindings := [];
    }

    method SetObject(index: int, x: Value) returns (r: Outcome<SqlException>)
      modifies this
      ensures r == if script.bind.Hits(index) then Fail(script.bind.cause) else Pass
      ensures bindings == if r.Pass? then old(bindings) + [(index, x)] else old(bindings)
    {
      if script.bind.Hits(index) {
        r := Fail(script.bind.cause);
      } else {
        bindings := bindings + [(index, x)];
        r := Pass;
      }
    }

    method ExecuteUpdate() returns (r: Outcome<SqlException>)
      ensures r == if script.execute.Some? then Fail(script.execute.value) else Pass
    {
      r := if script.execute.Some? then Fail(script.execute.value) else Pass;
    }

    method ExecuteQuery() returns (r: Result<ResultSet, SqlException>)
      ensures r.Failure? <==> script.execute.Some?
      ensures r.Failure? ==> r.error == script.execute.value
      ensures r.Success? ==> fresh(r.value) && r.value.cursor == script.query && r.value.calls == 0
    {
      if script.execute.Some? {
        r := Failure(script.execute.value);
      } else {
        var rs := new ResultSet(script.query);
        r := Success(rs);
      }
    }

    method GetGeneratedKeys() returns (r: Result<ResultSet, SqlException>)
      ensures r.Failure? <==> script.generatedKeys.Failure?
      ensures r.Failure? ==> r.error == script.generatedKeys.error
      ensures r.Success? ==> fresh(r.value) && r.value.cursor == script.generatedKeys.value && r.value.calls == 0
    {
      match script.generatedKeys
      case Failure(e) =>
        r := Failure(e);
      case Success(c) =>
        var rs := new ResultSet(c);
        r := Success(rs);
    }
  }

  /** A live connection to the scripted database. */
  class Connection {
    const script: Script

    constructor (script: Script)
      ensures this.script == script
    {
      this.script := script;
    }

    /** `prepareStatement(sql)` when `keyColumn` is `None`, `prepareStatement(sql, keyColumn)` otherwise. */
    method PrepareStatement(sql: string, keyColumn: Option<string>) returns (r: Result<PreparedStatement, SqlException>)
      ensures r.Failure? <==> script.prepare.Some?
      ensures r.Failure? ==> r.error == script.prepare.value
      ensures r.Success? ==> fresh(r.value) && r.value.sql == sql && r.value.keyColumn == keyColumn
                             && r.value.script == script && r.value.bindings == []
    {
      if script.prepare.Some? {
        r := Failure(script.prepare.value);
      } else {
        var pstmt := new PreparedStatement(sql, keyColumn, script);
        r := Success(pstmt);
      }
    }
  }

  /**
   * The pool, reduced to what the template observes: `getConnection` either
   * throws (`outage`) or hands out a connection, and both directions are counted.
   */
  class DataSource {
    const database: Script
    /** When present, every `getConnection` fails with this message. */
    const outage: Option<string>
    var acquired: nat
    var released: nat

    constructor (database: Script, outage: Option<string>)
      ensures this.database == database && this.outage == outage
      ensures acquired == 0 && released == 0
    {
      this.database := database;
      this.outage := outage;
      acquired, released := 0, 0;
    }

    /** `DataSourceUtils.getConnection(dataSource)`. */
    method GetConnection() returns (r: Result<Connection, string>)
      modifies this
      ensures outage.Some? ==> r == Failure(outage.value) && acquired == old(acquired)
      ensures outage.None? ==> r.Success? && fresh(r.value) && r.value.script == database
                               && acquired == old(acquired) + 1
      ensures released == old(released)
    {
      if outage.Some? {
        r := Failure(outage.value);
      } else {
        var conn := new Connection(database);
        acquired := acquired + 1;
        r := Success(conn);
      }
    }

    /** `DataSourceUtils.releaseConnection(conn, dataSource)`. */
    method ReleaseConnection(conn: Connection)
      modifies this
      ensures released == old(released) + 1 && acquired == old(acquired)
    {
      released := released + 1;
    }
  }
}
