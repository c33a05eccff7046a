/**
 * `JdbcTemplate`: acquire a connection, create a bound statement, execute it,
 * walk the cursor, translate `SQLException` into `DataAccessException`, and
 * release the connection on every path once it was acquired.
 */
module Jdbc {
  import opened Wrappers
  import opened Driver
  import opened JdbcSpec

  /** What the template's callers can see thrown. */
  datatype JdbcError =
    | DataAccessException(cause: SqlException)
    | CannotGetJdbcConnectionException(message: string)
    | RuntimeException(message: string)

  /**
   * The `catch (SQLException e) { throw new DataAccessException(e); }` of every
   * call; an unchecked exception passes through it unchanged.
   */
  function Translate(e: Raised): JdbcError
  {
    match e
    case Checked(cause) => DataAccessException(cause)
    case Unchecked(message) => RuntimeException(message)
  }

  function Translated<R>(r: Result<R, Raised>): Result<R, JdbcError>
  {
    match r
    case Success(v) => Success(v)
    case Failure(e) => Failure(Translate(e))
  }

  function TranslatedOutcome(o: Outcome<Raised>): Outcome<JdbcError>
  {
    match o
    case Pass => Pass
    case Fail(e) => Fail(Translate(e))
  }

  /** Collects the keys a statement generated, for the column named at construction. */
  class KeyHolder {
    const columnName: string
    var ids: seq<Value>

    constructor (columnName: string)
      ensures this.columnName == columnName && ids == []
    {
      this.columnName := columnName;
      ids := [];
    }

    function GetColumnName(): string
      reads this
    {
      columnName
    }

    function GetIds(): seq<Value>
      reads this
    {
      ids
    }

    method AddKey(id: Value)
      modifies this
      ensures ids == old(ids) + [id]
    {
      ids := ids + [id];
    }
  }

  class JdbcTemplate {
    const dataSource: DataSource

    constructor (dataSource: DataSource)
      ensures this.dataSource == dataSource
    {
      this.dataSource := dataSource;
    }

    // -------------------------------------------------------------------
    // Public calls: acquire, try-body, finally release, catch translate
    // -------------------------------------------------------------------

    /** `execute(sql, keyHolder, params...)`. */
    method ExecuteReturningKeys(sql: string, keyHolder: KeyHolder, params: seq<Value>) returns (r: Outcome<JdbcError>)
      modifies dataSource, keyHolder
      ensures dataSource.outage.Some? ==>
                r == Fail(CannotGetJdbcConnectionException(dataSource.outage.value)) &&
                keyHolder.GetIds() == old(keyHolder.GetIds()) &&
                dataSource.acquired == old(dataSource.acquired) && dataSource.released == old(dataSource.released)
      ensures dataSource.outage.None? ==>
                var w := KeysRun(dataSource.database, |params|);
                r == (if w.stop.None? then Pass else Fail(Translate(w.stop.value))) &&
                (r.Fail? ==> r.error.DataAccessException?) &&
                keyHolder.GetIds() == old(keyHolder.GetIds()) + w.items &&
                dataSource.acquired == old(dataSource.acquired) + 1 && dataSource.released == old(dataSource.released) + 1
    {
      var got := dataSource.GetConnection();
      if got.Failure? {
        return Fail(CannotGetJdbcConnectionException(got.error));
      }
      var conn := got.value;
      var run := RunUpdateReturningKeys(conn, sql, keyHolder, params);
      dataSource.ReleaseConnection(conn);
      KeysCompleteIff(conn.script, |params|);
      r := TranslatedOutcome(run);
    }

    /** `execute(sql, params...)`. */
    method Execute(sql: string, params: seq<Value>) returns (r: Outcome<JdbcError>)
      modifies dataSource
      ensures dataSource.outage.Some? ==>
                r == Fail(CannotGetJdbcConnectionException(dataSource.outage.value)) &&
                dataSource.acquired == old(dataSource.acquired) && dataSource.released == old(dataSource.released)
      ensures dataSource.outage.None? ==>
                r == TranslatedOutcome(UpdateRun(dataSource.database, |params|)) &&
                dataSource.acquired == old(dataSource.acquired) + 1 && dataSource.released == old(dataSource.released) + 1
    {
      var got := dataSource.GetConnection();
      if got.Failure? {
        return Fail(CannotGetJdbcConnectionException(got.error));
      }
      var conn := got.value;
      var run := RunUpdate(conn, sql, params);
      dataSource.ReleaseConnection(conn);
      r := TranslatedOutcome(run);
    }

    /** `queryForList(sql, rowMapper, params...)`. */
    method QueryForList<T>(sql: string, rowMapper: Row -> Result<T, Raised>, params: seq<Value>)
      returns (r: Result<seq<T>, JdbcError>)
      modifies dataSource
      ensures dataSource.outage.Some? ==>
                r == Failure(CannotGetJdbcConnectionException(dataSource.outage.value)) &&
                dataSource.acquired == old(dataSource.acquired) && dataSource.released == old(dataSource.released)
      ensures dataSource.outage.None? ==>
                r == Translated(ListRun(dataSource.database, rowMapper, |params|)) &&
                dataSource.acquired == old(dataSource.acquired) + 1 && dataSource.released == old(dataSource.released) + 1
      // an unchecked exception from the row mapper escapes the catch untranslated, still after the release
      ensures dataSource.outage.None? && ListRun(dataSource.database, rowMapper, |params|).Failure? &&
              ListRun(dataSource.database, rowMapper, |params|).error.Unchecked? ==>
                r == Failure(RuntimeException(ListRun(dataSource.database, rowMapper, |params|).error.message)) &&
                dataSource.released == old(dataSource.released) + 1
    {
      var got := dataSource.GetConnection();
      if got.Failure? {
        return Failure(CannotGetJdbcConnectionException(got.error));
      }
      var conn := got.value;
      var run := RunQueryForList(conn, sql, rowMapper, params);
      dataSource.ReleaseConnection(conn);
      r := Translated(run);
    }

    /** `queryForObject(sql, rowMapper, params...)`; `None` stands for the `null` it returns. */
    method QueryForObject<T>(sql: string, rowMapper: Row -> Result<T, Raised>, params: seq<Value>)
      returns (r: Result<Option<T>, JdbcError>)
      modifies dataSource
      ensures dataSource.outage.Some? ==>
                r == Failure(CannotGetJdbcConnectionException(dataSource.outage.value)) &&
                dataSource.acquired == old(dataSource.acquired) && dataSource.released == old(dataSource.released)
      ensures dataSource.outage.None? ==>
                r == Translated(ObjectRun(dataSource.database, rowMapper, |params|)) &&
                dataSource.acquired == old(dataSource.acquired) + 1 && dataSource.released == old(dataSource.released) + 1
      // an unchecked exception from the row mapper escapes the catch untranslated, still after the release
      ensures dataSource.outage.None? && ObjectRun(dataSource.database, rowMapper, |params|).Failure? &&
              ObjectRun(dataSource.database, rowMapper, |params|).error.Unchecked? ==>
                r == Failure(RuntimeException(ObjectRun(dataSource.database, rowMapper, |params|).error.message)) &&
                dataSource.released == old(dataSource.released) + 1
    {
      var got := dataSource.GetConnection();
      if got.Failure? {
        return Failure(CannotGetJdbcConnectionException(got.error));
      }
      var conn := got.value;
      var run := RunQueryForObject(conn, sql, rowMapper, params);
      dataSource.ReleaseConnection(conn);
      r := Translated(run);
    }

    // -------------------------------------------------------------------
    // The try-with-resources bodies, on an acquired connection
    // -------------------------------------------------------------------

    method RunUpdateReturningKeys(conn: Connection, sql: string, keyHolder: KeyHolder, params: seq<Value>)
      returns (r: Outcome<Raised>)
      modifies keyHolder
      ensures var w := KeysRun(conn.script, |params|);
              r == (if w.stop.None? then Pass else Fail(w.stop.value)) &&
              keyHolder.ids == old(keyHolder.ids) + w.items
    {
      var created := CreateStatementWithKeys(conn, sql, keyHolder, params);
      if created.Failure? {
        return Fail(Checked(created.error));
      }
      var pstmt := created.value;
      var updated := pstmt.ExecuteUpdate();
      if updated.Fail? {
        return Fail(Checked(updated.error));
      }
      var generated := pstmt.GetGeneratedKeys();
      if generated.Failure? {
        return Fail(Checked(generated.error));
      }
      r := CollectKeys(generated.value, keyHolder);
    }

    method RunUpdate(conn: Connection, sql: string, params: seq<Value>) returns (r: Outcome<Raised>)
      ensures r == UpdateRun(conn.script, |params|)
    {
      var created := CreateStatement(conn, sql, params);
      if created.Failure? {
        return Fail(Checked(created.error));
      }
      var updated := created.value.ExecuteUpdate();
      if updated.Fail? {
        return Fail(Checked(updated.error));
      }
      return Pass;
    }

    method RunQueryForList<T>(conn: Connection, sql: string, rowMapper: Row -> Result<T, Raised>, params: seq<Value>)
      returns (r: Result<seq<T>, Raised>)
      ensures r == ListRun(conn.script, rowMapper, |params|)
    {
      var created := CreateStatement(conn, sql, params);
      if created.Failure? {
        return Failure(Checked(created.error));
      }
      var executed := created.value.ExecuteQuery();
      if executed.Failure? {
        return Failure(Checked(executed.error));
      }
      r := MapToList(rowMapper, executed.value);
    }

    method RunQueryForObject<T>(conn: Connection, sql: string, rowMapper: Row -> Result<T, Raised>, params: seq<Value>)
      returns (r: Result<Option<T>, Raised>)
      ensures r == ObjectRun(conn.script, rowMapper, |params|)
    {
      var created := CreateStatement(conn, sql, params);
      if created.Failure? {
        return Failure(Checked(created.error));
      }
      var executed := created.value.ExecuteQuery();
      if executed.Failure? {
        return Failure(Checked(executed.error));
      }
      r := MapToObject(rowMapper, executed.value);
    }

    // -------------------------------------------------------------------
    // Cursor mapping
    // -------------------------------------------------------------------

    /** The key loop: `keyHolder.addKey(keys.getObject(1))` while `keys.next()` reports a row. */
    method CollectKeys(keys: ResultSet, keyHolder: KeyHolder) returns (r: Outcome<Raised>)
      requires keys.calls == 0
      modifies keys, keyHolder
      ensures var w := Walk(keys.cursor, FirstColumn, 0);
              r == (if w.stop.None? then Pass else Fail(w.stop.value)) &&
              keyHolder.ids == old(keyHolder.ids) + w.items
    {
      ghost var collected: seq<Value> := [];
      while true
        invariant keys.calls <= |keys.cursor.rows|
        invariant keyHolder.ids == old(keyHolder.ids) + collected
        invariant Walk(keys.cursor, FirstColumn, 0) == After(collected, Walk(keys.cursor, FirstColumn, keys.calls))
        decreases |keys.cursor.rows| - keys.calls
      {
        ghost var i := keys.calls;
        var more := keys.Next();
        if more.Failure? {
          return Fail(Checked(more.error));
        }
        if !more.value {
          assert Walk(keys.cursor, FirstColumn, i) == Walked([], None);
          assert After(collected, Walked<Value>.Walked([], None)) == Walked(collected, None);
          break;
        }
        var key := GetObject(keys.Current(), 1);
        if key.Failure? {
          assert FirstColumn(keys.cursor.rows[i]) == Failure(Checked(key.error));
          return Fail(Checked(key.error));
        }
        assert FirstColumn(keys.cursor.rows[i]) == Success(key.value);
        keyHolder.AddKey(key.value);
        WalkAdvance(keys.cursor, FirstColumn, collected, i, key.value);
        collected := collected + [key.value];
      }
      return Pass;
    }

    /** `mapToList`: map every row while `rs.next()` reports one. */
    method MapToList<T>(rowMapper: Row -> Result<T, Raised>, rs: ResultSet) returns (r: Result<seq<T>, Raised>)
      requires rs.calls == 0
      modifies rs
      ensures r == Completed(Walk(rs.cursor, rowMapper, 0))
    {
      var result: seq<T> := [];
      while true
        invariant rs.calls <= |rs.cursor.rows|
        invariant Walk(rs.cursor, rowMapper, 0) == After(result, Walk(rs.cursor, rowMapper, rs.calls))
        decreases |rs.cursor.rows| - rs.calls
      {
        ghost var i := rs.calls;
        var more := rs.Next();
        if more.Failure? {
          return Failure(Checked(more.error));
        }
        if !more.value {
          assert Walk(rs.cursor, rowMapper, i) == Walked([], None);
          assert After(result, Walked<T>.Walked([], None)) == Walked(result, None);
          break;
        }
        var mapped := rowMapper(rs.Current());
        if mapped.Failure? {
          return Failure(mapped.error);
        }
        WalkAdvance(rs.cursor, rowMapper, result, i, mapped.value);
        result := result + [mapped.value];
      }
      return Success(result);
    }

    /** `mapToObject`: `rs.next() ? rowMapper.map(rs) : null`. */
    method MapToObject<T>(rowMapper: Row -> Result<T, Raised>, rs: ResultSet) returns (r: Result<Option<T>, Raised>)
      requires rs.calls == 0
      modifies rs
      ensures r == FirstRow(rs.cursor, rowMapper)
    {
      var more := rs.Next();
      if more.Failure? {
        return Failure(Checked(more.error));
      }
      if more.value {
        var mapped := rowMapper(rs.Current());
        r := if mapped.Failure? then Failure(mapped.error) else Success(Some(mapped.value));
      } else {
        r := Success(None);
      }
    }

    // -------------------------------------------------------------------
    // Statement creators
    // -------------------------------------------------------------------

    /** The creator for the key-returning `execute`: prepare requesting the holder's column, then bind. */
    method CreateStatementWithKeys(conn: Connection, sql: string, keyHolder: KeyHolder, params: seq<Value>)
      returns (r: Result<PreparedStatement, SqlException>)
      ensures r.Failure? <==> CreateFailure(conn.script, |params|).Some?
      ensures r.Failure? ==> r.error == CreateFailure(conn.script, |params|).value
      ensures r.Success? ==> fresh(r.value) && r.value.script == conn.script && r.value.sql == sql
                             && r.value.keyColumn == Some(keyHolder.columnName)
                             && r.value.bindings == Positional(params)
    {
      var prepared := conn.PrepareStatement(sql, Some(keyHolder.GetColumnName()));
      if prepared.Failure? {
        return Failure(prepared.error);
      }
      var pstmt := prepared.value;
      var bound := BindParameters(pstmt, params);
      if bound.Fail? {
        return Failure(bound.error);
      }
      return Success(pstmt);
    }

    /** The creator for every other call: prepare without a key request, then bind. */
    method CreateStatement(conn: Connection, sql: string, params: seq<Value>)
      returns (r: Result<PreparedStatement, SqlException>)
      ensures r.Failure? <==> CreateFailure(conn.script, |params|).Some?
      ensures r.Failure? ==> r.error == CreateFailure(conn.script, |params|).value
      ensures r.Success? ==> fresh(r.value) && r.value.script == conn.script && r.value.sql == sql
                             && r.value.keyColumn == None
                             && r.value.bindings == Positional(params)
    {
      var prepared := conn.PrepareStatement(sql, None);
      if prepared.Failure? {
        return Failure(prepared.error);
      }
      var pstmt := prepared.value;
      var bound := BindParameters(pstmt, params);
      if bound.Fail? {
        return Failure(bound.error);
      }
      return Success(pstmt);
    }

    /** The binders' loop: `setObject(index++, param)` for each parameter in list order. */
    method BindParameters(pstmt: PreparedStatement, params: seq<Value>) returns (r: Outcome<SqlException>)
      modifies pstmt
      ensures r == (if BindFailure(pstmt.script.bind, |params|).Some?
                    then Fail(BindFailure(pstmt.script.bind, |params|).value) else Pass)
      ensures pstmt.bindings == old(pstmt.bindings) + Positional(params[..BoundCount(pstmt.script.bind, |params|)])
    {
      var index := 1;
      for i := 0 to |params|
        invariant index == i + 1
        invariant BindFailure(pstmt.script.bind, i).None?
        invariant pstmt.bindings == old(pstmt.bindings) + Positional(params[..i])
      {
        var bound := pstmt.SetObject(index, params[i]);
        if bound.Fail? {
          return bound;
        }
        assert params[..i + 1][..i] == params[..i];
        index := index + 1;
      }
      assert params[..|params|] == params;
      return Pass;
    }
  }
}
