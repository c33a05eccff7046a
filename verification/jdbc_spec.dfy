/**
 * Reference definitions of what each `JdbcTemplate` call does against a
 * scripted database, and the properties the template promises, proved
 * about those definitions.
 */
module JdbcSpec {
  import opened Wrappers
  import opened Driver

  // ---------------------------------------------------------------------
  // Positional binding
  // ---------------------------------------------------------------------

  /** The `setObject` calls the binders make for `params`, in call order. */
  function Positional(params: seq<Value>): (bs: seq<(int, Value)>)
    ensures |bs| == |params|
    ensures forall i :: 0 <= i < |params| ==> bs[i] == (i + 1, params[i])
  {
    if params == [] then []
    else Positional(params[..|params| - 1]) + [(|params|, params[|params| - 1])]
  }

  /** What a statement holds after a series of `setObject` calls: the last value set at each index. */
  function Held(bs: seq<(int, Value)>): map<int, Value>
  {
    if bs == [] then map[]
    else Held(bs[..|bs| - 1])[bs[|bs| - 1].0 := bs[|bs| - 1].1]
  }

  /** After binding `params`, the statement holds exactly the indices 1..|params|, index i + 1 holding params[i]. */
  lemma {:induction false} PositionalHeld(params: seq<Value>)
    ensures forall k :: k in Held(Positional(params)) <==> 1 <= k <= |params|
    ensures forall i :: 0 <= i < |params| ==> Held(Positional(params))[i + 1] == params[i]
  {
    if params != [] {
      var init := params[..|params| - 1];
      PositionalHeld(init);
      assert Positional(params)[..|params| - 1] == Positional(init);
      var m := Held(Positional(init));
      assert Held(Positional(params)) == m[|params| := params[|params| - 1]];
      forall i | 0 <= i < |params|
        ensures Held(Positional(params))[i + 1] == params[i]
      {
        if i < |params| - 1 {
          assert init[i] == params[i];
        }
      }
    }
  }

  /** The binding failure for `n` parameters: `setObject` throws only at an index the loop reaches. */
  function BindFailure(f: Fault, n: nat): Option<SqlException>
  {
    if f.FailAt? && 1 <= f.step <= n then Some(f.cause) else None
  }

  /** How many `setObject` calls succeed before the binder stops. */
  function BoundCount(f: Fault, n: nat): (k: nat)
    ensures k <= n
    ensures k == n <==> BindFailure(f, n).None?
  {
    if f.FailAt? && 1 <= f.step <= n then f.step - 1 else n
  }

  /** What `creator.create(conn, sql)` throws, if anything: prepare first, then binding. */
  function CreateFailure(s: Script, n: nat): Option<SqlException>
  {
    if s.prepare.Some? then s.prepare else BindFailure(s.bind, n)
  }

  /** What the statement throws before any cursor is read: creation, then execution. */
  function ExecuteFailure(s: Script, n: nat): Option<SqlException>
  {
    if CreateFailure(s, n).Some? then CreateFailure(s, n) else s.execute
  }

  // ---------------------------------------------------------------------
  // Cursor walking
  // ---------------------------------------------------------------------

  /** What a `while (rs.next())` loop gathered, and the exception that ended it early, if any. */
  datatype Walked<T> = Walked(items: seq<T>, stop: Option<Raised>)

  /** `prefix` followed by what a later walk gathered. */
  function After<T>(prefix: seq<T>, w: Walked<T>): Walked<T>
  {
    Walked(prefix + w.items, w.stop)
  }

  /**
   * Walking cursor `c` after `i` rows have been consumed: the (i + 1)-th
   * `next()` may throw, may report the end, or yields row i, which `read`
   * turns into an item or an exception.
   */
  function Walk<T>(c: Cursor, read: Row -> Result<T, Raised>, i: nat): (w: Walked<T>)
    requires i <= |c.rows|
    ensures |w.items| <= |c.rows| - i
    ensures forall j :: 0 <= j < |w.items| ==> read(c.rows[i + j]) == Success(w.items[j])
    ensures w.stop.None? ==> |w.items| == |c.rows| - i
    decreases |c.rows| - i
  {
    if c.fault.Hits(i + 1) then Walked([], Some(Checked(c.fault.cause)))
    else if i == |c.rows| then Walked([], None)
    else match read(c.rows[i])
      case Failure(e) => Walked([], Some(e))
      case Success(v) => After([v], Walk(c, read, i + 1))
  }

  /**
   * Starting after `i` consumed rows, `e` is the first exception met, and it is
   * met after row `m`: the `next()` calls i + 1..m and the reads of rows i..m - 1
   * all succeed, and then either `next()` number m + 1 throws `e`, or it yields
   * row m and reading it throws `e`.
   */
  predicate FirstFailureAt<T>(c: Cursor, read: Row -> Result<T, Raised>, i: nat, m: nat, e: Raised)
  {
    i <= m <= |c.rows| &&
    (forall k :: i < k <= m ==> !c.fault.Hits(k)) &&
    (forall j :: i <= j < m ==> read(c.rows[j]).Success?) &&
    ((c.fault.Hits(m + 1) && e == Checked(c.fault.cause)) ||
     (m < |c.rows| && !c.fault.Hits(m + 1) && read(c.rows[m]) == Failure(e)))
  }

  /** One loop step: reading row i into `v` moves it from the rest of the walk to the gathered prefix. */
  lemma WalkAdvance<T>(c: Cursor, read: Row -> Result<T, Raised>, acc: seq<T>, i: nat, v: T)
    requires i < |c.rows| && !c.fault.Hits(i + 1) && read(c.rows[i]) == Success(v)
    ensures After(acc, Walk(c, read, i)) == After(acc + [v], Walk(c, read, i + 1))
  {
    var w := Walk(c, read, i + 1);
    assert acc + ([v] + w.items) == acc + [v] + w.items;
  }

  /** A walk completes exactly when no `next()` call it makes throws and every row reads. */
  lemma {:induction false} WalkCompletes<T>(c: Cursor, read: Row -> Result<T, Raised>, i: nat)
    requires i <= |c.rows|
    ensures Walk(c, read, i).stop.None? <==>
              (forall k :: i < k <= |c.rows| + 1 ==> !c.fault.Hits(k)) &&
              (forall j :: i <= j < |c.rows| ==> read(c.rows[j]).Success?)
    decreases |c.rows| - i
  {
    if !c.fault.Hits(i + 1) && i < |c.rows| && read(c.rows[i]).Success? {
      WalkCompletes(c, read, i + 1);
    }
  }

  /** A walk that stops early stops at the first exception, right after the items it gathered. */
  lemma {:induction false} WalkStopsAtFirst<T>(c: Cursor, read: Row -> Result<T, Raised>, i: nat)
    requires i <= |c.rows|
    ensures Walk(c, read, i).stop.Some? ==>
              FirstFailureAt(c, read, i, i + |Walk(c, read, i).items|, Walk(c, read, i).stop.value)
    decreases |c.rows| - i
  {
    if !c.fault.Hits(i + 1) && i < |c.rows| && read(c.rows[i]).Success? {
      WalkStopsAtFirst(c, read, i + 1);
    }
  }

  /** The thrown-or-returned result of a walk whose partial items are discarded on failure. */
  function Completed<T>(w: Walked<T>): Result<seq<T>, Raised>
  {
    if w.stop.None? then Success(w.items) else Failure(w.stop.value)
  }

  /** `mapToObject`: one `next()` call, then the mapped row or `null`. */
  function FirstRow<T>(c: Cursor, read: Row -> Result<T, Raised>): (r: Result<Option<T>, Raised>)
    ensures r == Success(None) <==> !c.fault.Hits(1) && c.rows == []
    ensures (r.Success? && r.value.Some?) <==> !c.fault.Hits(1) && c.rows != [] && read(c.rows[0]).Success?
    ensures r.Success? && r.value.Some? ==> read(c.rows[0]) == Success(r.value.value)
    ensures r.Failure? ==> FirstFailureAt(c, read, 0, 0, r.error)
  {
    if c.fault.Hits(1) then Failure(Checked(c.fault.cause))
    else if c.rows == [] then Success(None)
    else match read(c.rows[0])
      case Failure(e) => Failure(e)
      case Success(v) => Success(Some(v))
  }

  /**
   * Only the first `next()` matters to `mapToObject`: neither the rows after
   * the first nor a fault scheduled for a later `next()` call changes it.
   */
  lemma FirstRowIgnoresRest<T>(c: Cursor, read: Row -> Result<T, Raised>, rest: seq<Row>, later: Fault)
    requires c.rows != []
    requires later.Hits(1) == c.fault.Hits(1)
    requires c.fault.Hits(1) ==> later.cause == c.fault.cause
    ensures FirstRow(Cursor(c.rows[..1] + rest, later), read) == FirstRow(c, read)
  {
  }

  // ---------------------------------------------------------------------
  // The four public calls, at the driver level (before error translation)
  // ---------------------------------------------------------------------

  /** The plain `execute`: create, then `executeUpdate`. */
  function UpdateRun(s: Script, n: nat): Outcome<Raised>
  {
    if ExecuteFailure(s, n).Some? then Fail(Checked(ExecuteFailure(s, n).value)) else Pass
  }

  /** The key-returning `execute`: create, `executeUpdate`, `getGeneratedKeys`, then read column 1 of every key row. */
  function KeysRun(s: Script, n: nat): Walked<Value>
  {
    if ExecuteFailure(s, n).Some? then Walked([], Some(Checked(ExecuteFailure(s, n).value)))
    else match s.generatedKeys
      case Failure(e) => Walked([], Some(Checked(e)))
      case Success(keys) => Walk(keys, FirstColumn, 0)
  }

  /** `keys.getObject(1)`. */
  function FirstColumn(row: Row): Result<Value, Raised>
  {
    match GetObject(row, 1)
    case Success(v) => Success(v)
    case Failure(e) => Failure(Checked(e))
  }

  /** `queryForList`: create, `executeQuery`, then map every row. */
  function ListRun<T>(s: Script, rowMapper: Row -> Result<T, Raised>, n: nat): Result<seq<T>, Raised>
  {
    if ExecuteFailure(s, n).Some? then Failure(Checked(ExecuteFailure(s, n).value))
    else Completed(Walk(s.query, rowMapper, 0))
  }

  /** `queryForObject`: create, `executeQuery`, then map the first row if there is one. */
  function ObjectRun<T>(s: Script, rowMapper: Row -> Result<T, Raised>, n: nat): Result<Option<T>, Raised>
  {
    if ExecuteFailure(s, n).Some? then Failure(Checked(ExecuteFailure(s, n).value))
    else FirstRow(s.query, rowMapper)
  }

  // ---------------------------------------------------------------------
  // Properties of the four calls
  // ---------------------------------------------------------------------

  /**
   * The plain `execute` completes exactly when neither prepare, nor any
   * `setObject` for the given parameters, nor `executeUpdate` throws; otherwise
   * it fails with the first of those exceptions.
   */
  lemma UpdateCompletesIff(s: Script, n: nat)
    ensures UpdateRun(s, n).Pass? <==>
              s.prepare.None? && BindFailure(s.bind, n).None? && s.execute.None?
    ensures UpdateRun(s, n).Fail? ==>
              UpdateRun(s, n).error ==
                if s.prepare.Some? then Checked(s.prepare.value)
                else if BindFailure(s.bind, n).Some? then Checked(s.bind.cause)
                else Checked(s.execute.value)
  {
  }

  /**
   * `queryForList` succeeds exactly when nothing throws, and then returns the
   * mapper applied to every cursor row, in cursor order (an empty list for an
   * empty cursor).
   */
  lemma QueryForListMapsEveryRow<T>(s: Script, rowMapper: Row -> Result<T, Raised>, n: nat)
    ensures ListRun(s, rowMapper, n).Success? <==>
              ExecuteFailure(s, n).None? &&
              (forall k :: 0 < k <= |s.query.rows| + 1 ==> !s.query.fault.Hits(k)) &&
              (forall j :: 0 <= j < |s.query.rows| ==> rowMapper(s.query.rows[j]).Success?)
    ensures ListRun(s, rowMapper, n).Success? ==>
              var xs := ListRun(s, rowMapper, n).value;
              |xs| == |s.query.rows| &&
              forall j :: 0 <= j < |xs| ==> rowMapper(s.query.rows[j]) == Success(xs[j])
  {
    WalkCompletes(s.query, rowMapper, 0);
  }

  /**
   * A failed `queryForList` throws the first exception met, in the order
   * prepare, bind, execute, then the cursor walk (`next()` or the mapper).
   */
  lemma QueryForListFailureCause<T>(s: Script, rowMapper: Row -> Result<T, Raised>, n: nat)
    ensures ListRun(s, rowMapper, n).Failure? ==>
              var e := ListRun(s, rowMapper, n).error;
              if s.prepare.Some? then e == Checked(s.prepare.value)
              else if BindFailure(s.bind, n).Some? then e == Checked(s.bind.cause)
              else if s.execute.Some? then e == Checked(s.execute.value)
              else exists m :: FirstFailureAt(s.query, rowMapper, 0, m, e)
  {
    var w := Walk(s.query, rowMapper, 0);
    WalkStopsAtFirst(s.query, rowMapper, 0);
    if ExecuteFailure(s, n).None? && w.stop.Some? {
      assert FirstFailureAt(s.query, rowMapper, 0, |w.items|, w.stop.value);
    }
  }

  /**
   * `queryForObject` returns a value or `null` exactly when nothing throws before
   * the first row is mapped; otherwise it throws the first exception met, in the
   * order prepare, bind, execute, the first `next()`, the mapper on the first row.
   */
  lemma QueryForObjectOutcome<T>(s: Script, rowMapper: Row -> Result<T, Raised>, n: nat)
    ensures ObjectRun(s, rowMapper, n).Success? <==>
              ExecuteFailure(s, n).None? && !s.query.fault.Hits(1) &&
              (s.query.rows == [] || rowMapper(s.query.rows[0]).Success?)
    ensures ObjectRun(s, rowMapper, n).Failure? ==>
              var e := ObjectRun(s, rowMapper, n).error;
              if s.prepare.Some? then e == Checked(s.prepare.value)
              else if BindFailure(s.bind, n).Some? then e == Checked(s.bind.cause)
              else if s.execute.Some? then e == Checked(s.execute.value)
              else FirstFailureAt(s.query, rowMapper, 0, 0, e)
  {
  }

  /** Whenever `queryForList` succeeds, `queryForObject` on the same database returns its first element, or `null` when it is empty. */
  lemma QueryForObjectIsHeadOfList<T>(s: Script, rowMapper: Row -> Result<T, Raised>, n: nat)
    requires ListRun(s, rowMapper, n).Success?
    ensures ObjectRun(s, rowMapper, n) ==
              if ListRun(s, rowMapper, n).value == [] then Success(None)
              else Success(Some(ListRun(s, rowMapper, n).value[0]))
  {
    QueryForListMapsEveryRow(s, rowMapper, n);
  }

  /**
   * A key-returning `execute` that completes gathered column 1 of every
   * generated-key row, in cursor order; with no generated keys it gathers
   * nothing.
   */
  lemma KeysInCursorOrder(s: Script, n: nat)
    requires ExecuteFailure(s, n).None? && s.generatedKeys.Success?
    ensures var rows := s.generatedKeys.value.rows;
            KeysRun(s, n).stop.None? ==>
              |KeysRun(s, n).items| == |rows| &&
              forall j :: 0 <= j < |rows| ==> rows[j] != [] && KeysRun(s, n).items[j] == rows[j][0]
    ensures s.generatedKeys.value.rows == [] ==> KeysRun(s, n).items == []
  {
    var w := KeysRun(s, n);
    var rows := s.generatedKeys.value.rows;
    forall j | 0 <= j < |w.items|
      ensures rows[j] != [] && w.items[j] == rows[j][0]
    {
      assert FirstColumn(rows[j]) == Success(w.items[j]);
    }
  }

  /**
   * A key-returning `execute` completes exactly when every step succeeds: prepare,
   * bind, `executeUpdate`, `getGeneratedKeys`, every `next()` and every
   * `getObject(1)`. Otherwise it stops with the first exception met, always an
   * `SQLException`; a failure before the key cursor is walked gathers no key,
   * and a failure during the walk keeps the keys read before it.
   */
  lemma KeysCompleteIff(s: Script, n: nat)
    ensures KeysRun(s, n).stop.None? <==>
              ExecuteFailure(s, n).None? && s.generatedKeys.Success? &&
              (forall k :: 0 < k <= |s.generatedKeys.value.rows| + 1 ==> !s.generatedKeys.value.fault.Hits(k)) &&
              (forall j :: 0 <= j < |s.generatedKeys.value.rows| ==> s.generatedKeys.value.rows[j] != [])
    ensures KeysRun(s, n).stop.Some? ==>
              var e := KeysRun(s, n).stop.value;
              var items := KeysRun(s, n).items;
              e.Checked? &&
              if s.prepare.Some? then e == Checked(s.prepare.value) && items == []
              else if BindFailure(s.bind, n).Some? then e == Checked(s.bind.cause) && items == []
              else if s.execute.Some? then e == Checked(s.execute.value) && items == []
              else if s.generatedKeys.Failure? then e == Checked(s.generatedKeys.error) && items == []
              else FirstFailureAt(s.generatedKeys.value, FirstColumn, 0, |items|, e)
  {
    if ExecuteFailure(s, n).None? && s.generatedKeys.Success? {
      var c := s.generatedKeys.value;
      WalkCompletes(c, FirstColumn, 0);
      WalkStopsAtFirst(c, FirstColumn, 0);
      assert forall j :: 0 <= j < |c.rows| ==> (FirstColumn(c.rows[j]).Success? <==> c.rows[j] != []);
      assert forall j :: 0 <= j < |c.rows| ==> (FirstColumn(c.rows[j]).Success? || FirstColumn(c.rows[j]).error.Checked?);
    }
  }
}
