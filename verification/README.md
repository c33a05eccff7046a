# JdbcTemplate statement executor, modelled in Dafny

This project models `nextstep.jdbc.JdbcTemplate`, the statement executor of a
small data-access layer. Each public call obtains a connection from the data
source and creates a prepared statement. The creator binds the parameters
positionally from index 1. The call then executes the statement and walks the
result or generated-keys cursor. Any `SQLException` becomes a
`DataAccessException` wrapping it. Once a connection was obtained, it is
released in a `finally` block.

The JDBC collaborators are fakes (module `Driver`, file `driver.dfy`):

- A `Script` says what the database does for every statement prepared on the
  data source's connections: whether `prepareStatement` throws, at which
  parameter index `setObject` throws, whether `executeUpdate`/`executeQuery`
  throws, which rows the query cursor yields, and the generated-keys cursor
  (or what `getGeneratedKeys` throws).
- A cursor is a finite sequence of rows plus an optional fault: the k-th call of
  `next()` throws. A row is a sequence of column values, read by one-based
  position.
- `PreparedStatement` records every successful `setObject(index, value)` in
  order, and the generated-key column requested at prepare time.
- `DataSource` counts `acquired` and `released` connections; its `outage`
  makes `getConnection` fail.
- A row mapper is a total function from a row to a value or an exception. The exception is either an `SQLException` or an unchecked exception, which no `catch (SQLException e)` intercepts.

Files:

- `wrappers.dfy`: `Option`, `Result`, `Outcome`. These stand in for `null` and thrown exceptions.
- `driver.dfy`: the JDBC and pool fakes described above.
- `jdbc_spec.dfy`: reference definitions of every call at the driver level
  (`UpdateRun`, `KeysRun`, `ListRun`, `ObjectRun`, built on `Positional`,
  `Walk` and `FirstRow`), and the lemmas stating what the template promises.
- `jdbc_template.dfy`: `KeyHolder` and the `JdbcTemplate` class. Each public
  method acquires a connection, runs the try-with-resources body (`Run...`),
  releases the connection, and translates the error. Each body is proved
  equal to its reference definition.

Behaviour of the code that the model keeps:

- The key-returning `execute` returns nothing. It appends keys to a
  caller-supplied `KeyHolder`, after whatever the holder already held. Keys
  read before a later failure stay in the holder; `Jdbc.JdbcTemplate.ExecuteReturningKeys`
  states this.
- When the query yields more than one row, `queryForObject` silently returns
  the mapped first row (`JdbcSpec.FirstRowIgnoresRest`).
- Only `SQLException` is translated, into `DataAccessException`. A failing
  `getConnection` surfaces as `CannotGetJdbcConnectionException`, outside the
  `try`, so nothing is released. An unchecked exception from the row mapper
  escapes untranslated, after the `finally` has released the connection.
- When several steps would throw, the first one reached decides the exception:
  prepare, then bind, then execute, then the cursor walk.

## Model

| member | source | states |
|---|---|---|
| JdbcSpec.Positional | jdbc/src/main/java/nextstep/jdbc/JdbcTemplate.java:110-113 | the binder's `setObject` calls are exactly `|params|` in number, the i-th binding index i+1 to `params[i]`, in list order |
| JdbcSpec.PositionalHeld | jdbc/src/main/java/nextstep/jdbc/JdbcTemplate.java:107-127 | after binding, the statement holds exactly the indices 1..`|params|`, index i+1 holding `params[i]` |
| JdbcSpec.BoundCount | jdbc/src/main/java/nextstep/jdbc/JdbcTemplate.java:111-113 | the binder makes at most `|params|` successful calls, and all of them exactly when no `setObject` it reaches throws |
| Jdbc.JdbcTemplate.BindParameters | jdbc/src/main/java/nextstep/jdbc/JdbcTemplate.java:110-113 | the loop appends `Positional` of the bound prefix; it throws the fault of the first index whose `setObject` throws, and otherwise binds every parameter |
| Jdbc.JdbcTemplate.CreateStatementWithKeys | jdbc/src/main/java/nextstep/jdbc/JdbcTemplate.java:107-116 | prepares requesting generated keys for `keyHolder`'s column name, binds all parameters positionally; throws the prepare or bind exception otherwise |
| Jdbc.JdbcTemplate.CreateStatement | jdbc/src/main/java/nextstep/jdbc/JdbcTemplate.java:118-127 | prepares without a generated-key request and binds all parameters positionally; throws the prepare or bind exception otherwise |
| JdbcSpec.Walk | jdbc/src/main/java/nextstep/jdbc/JdbcTemplate.java:78-84 | a cursor walk gathers at most one item per remaining row; each item is the read of the row at the same position, in cursor order; when it does not stop early it gathers every remaining row |
| JdbcSpec.WalkCompletes | jdbc/src/main/java/nextstep/jdbc/JdbcTemplate.java:78-84 | a walk completes if and only if no `next()` call it makes throws and every row reads successfully |
| JdbcSpec.WalkStopsAtFirst | jdbc/src/main/java/nextstep/jdbc/JdbcTemplate.java:78-84 | a walk that stops early stops at the first exception met, right after the items it gathered: every earlier `next()` and read succeeded, then `next()` threw or the read of the next row threw |
| JdbcSpec.FirstRow | jdbc/src/main/java/nextstep/jdbc/JdbcTemplate.java:103-105 | `mapToObject` gives `null` exactly when the first `next()` reports no row, the mapped first row when there is one and it maps, and otherwise the exception of the first `next()` or of mapping the first row |
| JdbcSpec.FirstRowIgnoresRest | jdbc/src/main/java/nextstep/jdbc/JdbcTemplate.java:103-105 | only the first `next()` matters to `mapToObject`: neither the rows after the first nor a fault scheduled for a later `next()` changes its result |
| JdbcSpec.UpdateCompletesIff | jdbc/src/main/java/nextstep/jdbc/JdbcTemplate.java:45-58 | the plain `execute` completes if and only if prepare, every `setObject` and `executeUpdate` succeed, and otherwise fails with the first exception thrown |
| JdbcSpec.QueryForListMapsEveryRow | jdbc/src/main/java/nextstep/jdbc/JdbcTemplate.java:60-84 | `queryForList` succeeds if and only if no step throws, and then returns the mapper applied to every row in cursor order, of the same length (empty for an empty cursor) |
| JdbcSpec.QueryForListFailureCause | jdbc/src/main/java/nextstep/jdbc/JdbcTemplate.java:60-84 | a failed `queryForList` throws the first exception met, in the order prepare, bind, execute, then the first failing `next()` or mapper call of the walk |
| JdbcSpec.QueryForObjectOutcome | jdbc/src/main/java/nextstep/jdbc/JdbcTemplate.java:86-105 | `queryForObject` returns a value or `null` exactly when prepare, bind, execute, the first `next()` and the first row's mapping succeed, and otherwise throws the first exception met in that order |
| JdbcSpec.QueryForObjectIsHeadOfList | jdbc/src/main/java/nextstep/jdbc/JdbcTemplate.java:86-105 | when `queryForList` succeeds, `queryForObject` on the same database returns its first element, or `null` for an empty list |
| JdbcSpec.KeysInCursorOrder | jdbc/src/main/java/nextstep/jdbc/JdbcTemplate.java:32-36 | a completed key collection gathers column 1 of every generated-key row in cursor order; zero generated keys gather nothing |
| JdbcSpec.KeysCompleteIff | jdbc/src/main/java/nextstep/jdbc/JdbcTemplate.java:24-39 | the key-returning `execute` completes if and only if prepare, bind, `executeUpdate`, `getGeneratedKeys`, every `next()` and every `getObject(1)` succeed. Otherwise it stops with the first `SQLException` met: with no keys gathered when that comes before the key cursor, and with the keys read so far when it comes during the walk |
| Jdbc.JdbcTemplate.CollectKeys | jdbc/src/main/java/nextstep/jdbc/JdbcTemplate.java:32-36 | the key loop appends exactly the walked keys to the holder and throws the exception that stopped the walk |
| Jdbc.JdbcTemplate.MapToList | jdbc/src/main/java/nextstep/jdbc/JdbcTemplate.java:78-84 | `mapToList` returns the full walk of the cursor through the mapper, or the exception that stopped it, with no partial list |
| Jdbc.JdbcTemplate.MapToObject | jdbc/src/main/java/nextstep/jdbc/JdbcTemplate.java:103-105 | `mapToObject` is `FirstRow` of the cursor |
| Jdbc.JdbcTemplate.RunUpdateReturningKeys | jdbc/src/main/java/nextstep/jdbc/JdbcTemplate.java:28-36 | the try body of the key-returning `execute` ends as `KeysRun` says and leaves the holder extended by exactly the keys read |
| Jdbc.JdbcTemplate.RunUpdate | jdbc/src/main/java/nextstep/jdbc/JdbcTemplate.java:49-51 | the try body of the plain `execute` throws the first prepare, bind or execute exception, and otherwise completes |
| Jdbc.JdbcTemplate.RunQueryForList | jdbc/src/main/java/nextstep/jdbc/JdbcTemplate.java:64-68 | the try body of `queryForList` returns `ListRun` |
| Jdbc.JdbcTemplate.RunQueryForObject | jdbc/src/main/java/nextstep/jdbc/JdbcTemplate.java:90-94 | the try body of `queryForObject` returns `ObjectRun` |
| Jdbc.JdbcTemplate.ExecuteReturningKeys | jdbc/src/main/java/nextstep/jdbc/JdbcTemplate.java:24-43 | with a connection: one acquire and one release, keys appended to the holder's `getIds()`, and every failure rethrown as `DataAccessException` of its cause; when `getConnection` fails: its error, no release, holder untouched |
| Jdbc.JdbcTemplate.Execute | jdbc/src/main/java/nextstep/jdbc/JdbcTemplate.java:45-58 | with a connection: one acquire and one release, completes or throws `DataAccessException` of the driver's cause; when `getConnection` fails: its error and no release |
| Jdbc.JdbcTemplate.QueryForList | jdbc/src/main/java/nextstep/jdbc/JdbcTemplate.java:60-76 | with a connection: one acquire and one release, the `ListRun` result with `SQLException` translated and a mapper's unchecked exception passed through; when `getConnection` fails: its error and no release |
| Jdbc.JdbcTemplate.QueryForObject | jdbc/src/main/java/nextstep/jdbc/JdbcTemplate.java:86-101 | with a connection: one acquire and one release, the `ObjectRun` result with `SQLException` translated and a mapper's unchecked exception passed through; when `getConnection` fails: its error and no release |
| Jdbc.JdbcTemplate.constructor | jdbc/src/main/java/nextstep/jdbc/JdbcTemplate.java:20-22 | the template keeps the data source it is given |
| Driver.GetObject | jdbc/src/main/java/nextstep/jdbc/JdbcTemplate.java:34 | `getObject(c)` yields column c (one-based) and throws for a column the row does not have |
| Driver.DataSource.GetConnection | jdbc/src/main/java/nextstep/jdbc/JdbcTemplate.java:26 | obtaining a connection counts one acquisition, or fails with the pool's error and counts nothing |
| Driver.DataSource.ReleaseConnection | jdbc/src/main/java/nextstep/jdbc/JdbcTemplate.java:41 | releasing counts one release |
| Jdbc.KeyHolder.AddKey | jdbc/src/main/java/nextstep/jdbc/JdbcTemplate.java:34 | `addKey` appends one key at the end |

## Left out

- Logging (`log.debug`, `log.error`) is an observability side effect and is not modelled.
- Closing of `PreparedStatement` and `ResultSet` by try-with-resources is not modelled. This includes the statement a creator prepared before a `setObject` failure: it never reaches the try-with-resources.
- `DataSourceUtils` internals are reduced to the acquire and release counters. This covers thread-bound and transactional connection reuse. Connection identity is not tracked.
- The driver's work is reduced to scripted outcomes. This covers SQL parsing, `setObject` type coercion and the effect of `executeUpdate`/`executeQuery` on the database.
- The row count `executeUpdate` returns is discarded by the template and is not modelled.
- The unchecked `(T)` cast of generated keys and Java generics are not modelled: keys are driver values.
- `KeyHolder.java`, `RowMapper.java` and `DataAccessException.java` are not part of this model. `KeyHolder` is modelled from its uses in `JdbcTemplate.java` and `UserDao.java`, and `RowMapper` is a function value.
- The two `execute` overloads have distinct names, `Execute` and `ExecuteReturningKeys`. The two `preparedStatementCreator` overloads are `CreateStatement` and `CreateStatementWithKeys`. Their creator lambdas are run directly.
- `UserDao` is left out: it is fixed SQL over the template.
- Concurrency across callers is not modelled: the template holds no shared mutable state.
