/**
 Properties of what `schema_sqlite` loads and registers, and of how
 `dut_sqlite::test` classifies an execution.
 */
module SqliteProperties {
  import opened RelModel
  import opened Dut
  import opened Sqlite

  // ---------------------------------------------------------------------------
  // Loading
  // ---------------------------------------------------------------------------

  /**
   The second pass succeeds iff every `table_info` query succeeds; then each
   table keeps its place and gains, in row order, the columns of its own
   query and no others.
   */
  lemma {:induction false} WithColumnsOk(exec: string -> Reply, ts: seq<Table>)
    ensures WithColumns(exec, ts).Ok?
        <==> forall i | 0 <= i < |ts| :: exec(TableInfoQuery(ts[i].name)).rc == SqliteOk
    ensures WithColumns(exec, ts).Ok? ==>
      && |WithColumns(exec, ts).value| == |ts|
      && forall i | 0 <= i < |ts| ::
           WithColumns(exec, ts).value[i] == WithInfo(ts[i], exec(TableInfoQuery(ts[i].name)).rows)
  {
    if ts != [] {
      var n := |ts|;
      var front := ts[..n - 1];
      var reply := exec(TableInfoQuery(ts[n - 1].name));
      WithColumnsOk(exec, front);
      assert forall i | 0 <= i < |front| :: front[i] == ts[i];
      if WithColumns(exec, front).Ok? && reply.rc == SqliteOk {
        var done := WithColumns(exec, front).value;
        var all := done + [WithInfo(ts[n - 1], reply.rows)];
        assert WithColumns(exec, ts) == Ok(all);
        forall i | 0 <= i < n
          ensures all[i] == WithInfo(ts[i], exec(TableInfoQuery(ts[i].name)).rows)
        {
          if i < n - 1 {
            assert all[i] == done[i];
          }
        }
      }
    }
  }

  /** A failing second pass reports the message of the first `table_info` query that failed. */
  lemma {:induction false} WithColumnsErr(exec: string -> Reply, ts: seq<Table>)
    ensures WithColumns(exec, ts).Err? ==>
      exists i | 0 <= i < |ts| ::
        && exec(TableInfoQuery(ts[i].name)).rc != SqliteOk
        && WithColumns(exec, ts).error == exec(TableInfoQuery(ts[i].name)).message
        && forall j | 0 <= j < i :: exec(TableInfoQuery(ts[j].name)).rc == SqliteOk
  {
    if ts != [] {
      var n := |ts|;
      var front := ts[..n - 1];
      assert forall i | 0 <= i < |front| :: front[i] == ts[i];
      if WithColumns(exec, front).Err? {
        WithColumnsErr(exec, front);
        var i :| 0 <= i < |front|
          && exec(TableInfoQuery(front[i].name)).rc != SqliteOk
          && WithColumns(exec, front).error == exec(TableInfoQuery(front[i].name)).message
          && forall j | 0 <= j < i :: exec(TableInfoQuery(front[j].name)).rc == SqliteOk;
        assert ts[i] == front[i];
      } else if WithColumns(exec, ts).Err? {
        WithColumnsOk(exec, front);
      }
    }
  }

  /**
   Both passes: one table per `sqlite_master` row, in row order, named by its
   third field, in schema `main`, insertable and a base table, holding the
   columns of its `table_info` rows in row order. No rows give no tables.
   */
  lemma LoadedTablesOk(exec: string -> Reply)
    ensures var master := exec(MasterQuery);
      && (LoadedTables(exec).Ok?
          <==> master.rc == SqliteOk
               && forall i | 0 <= i < |master.rows| :: exec(TableInfoQuery(Field(master.rows[i], 2))).rc == SqliteOk)
      && (LoadedTables(exec).Ok? ==>
            && |LoadedTables(exec).value| == |master.rows|
            && forall i | 0 <= i < |master.rows| ::
                 LoadedTables(exec).value[i]
                 == Table(Field(master.rows[i], 2), "main", true, true, InfoColumns(exec(TableInfoQuery(Field(master.rows[i], 2))).rows)))
      && (master.rc == SqliteOk && master.rows == [] ==> LoadedTables(exec) == Ok([]))
  {
    var master := exec(MasterQuery);
    var ts := MasterTables(master.rows);
    WithColumnsOk(exec, ts);
    assert forall i | 0 <= i < |ts| :: ts[i].name == Field(master.rows[i], 2);
  }

  /**
   A failed load raises the message of the failing query: the `sqlite_master`
   query's own, or that of the first table whose `table_info` query failed.
   */
  lemma LoadedTablesErr(exec: string -> Reply)
    ensures var master := exec(MasterQuery);
      LoadedTables(exec).Err? ==>
        || (master.rc != SqliteOk && LoadedTables(exec).error == master.message)
        || (master.rc == SqliteOk
            && exists i | 0 <= i < |master.rows| ::
                 && exec(TableInfoQuery(Field(master.rows[i], 2))).rc != SqliteOk
                 && LoadedTables(exec).error == exec(TableInfoQuery(Field(master.rows[i], 2))).message
                 && forall j | 0 <= j < i :: exec(TableInfoQuery(Field(master.rows[j], 2))).rc == SqliteOk)
  {
    var master := exec(MasterQuery);
    if master.rc == SqliteOk {
      var ts := MasterTables(master.rows);
      WithColumnsErr(exec, ts);
      assert forall i | 0 <= i < |ts| :: ts[i].name == Field(master.rows[i], 2);
    }
  }

  /** A catalog exists only when the open and every catalog query succeed. */
  lemma SqliteCatalogOk(engine: Engine)
    ensures SqliteCatalog(engine).Ok?
        <==> engine.openRc == SqliteOk && LoadedTables(engine.exec).Ok?
    ensures SqliteCatalog(engine).Ok? ==>
      && SqliteCatalog(engine).value.booltype == SqliteCatalog(engine).value.inttype == "INTEGER"
      && SqliteCatalog(engine).value.trueLiteral == "1"
      && SqliteCatalog(engine).value.falseLiteral == "0"
      && forall t | t in SqliteCatalog(engine).value.tables :: t.schema == "main" && t.isInsertable && t.isBaseTable
  {
    if SqliteCatalog(engine).Ok? {
      var exec := engine.exec;
      LoadedTablesOk(exec);
      forall t | t in SqliteCatalog(engine).value.tables
        ensures t.schema == "main" && t.isInsertable && t.isBaseTable
      {
        var i :| 0 <= i < |LoadedTables(exec).value| && LoadedTables(exec).value[i] == t;
      }
    }
  }

  // ---------------------------------------------------------------------------
  // Registrations
  // ---------------------------------------------------------------------------

  /** Nineteen operators, each with one type for both operands and the result: `||` on TEXT, then INTEGER. */
  lemma SqliteOperatorsFacts()
    ensures |SqliteOperators| == 19
    ensures SqliteOperators[0] == Op("||", "TEXT", "TEXT", "TEXT")
    ensures forall k | 1 <= k < 19 ::
      SqliteOperators[k].left == SqliteOperators[k].right == SqliteOperators[k].result == "INTEGER"
  {
  }

  /** Every routine of group `g` takes `arity` arguments and has an empty schema and specific name. */
  predicate Group(g: seq<Routine>, arity: nat)
  {
    forall k | 0 <= k < |g| :: |g[k].argtypes| == arity && g[k].schema == "" && g[k].specificName == ""
  }

  lemma NullaryGroup()
    ensures |NullaryRoutines| == 5 && Group(NullaryRoutines, 0)
  {
  }

  lemma UnaryGroup()
    ensures |UnaryRoutines| == 20 && Group(UnaryRoutines, 1)
  {
    var a, b := UnaryRoutinesFirst, UnaryRoutinesSecond;
    assert |a| == 10 && Group(a, 1);
    assert |b| == 10 && Group(b, 1);
    assert forall k | 0 <= k < 20 :: (a + b)[k] == if k < 10 then a[k] else b[k - 10];
  }

  lemma BinaryGroup()
    ensures |BinaryRoutines| == 8 && Group(BinaryRoutines, 2)
  {
  }

  lemma TernaryGroup()
    ensures |TernaryRoutines| == 2 && Group(TernaryRoutines, 3)
  {
  }

  /** Four consecutive groups: an index falls into the group its position says. */
  lemma GroupsLayout(g0: seq<Routine>, g1: seq<Routine>, g2: seq<Routine>, g3: seq<Routine>, k: nat)
    requires Group(g0, 0) && Group(g1, 1) && Group(g2, 2) && Group(g3, 3)
    requires k < |g0| + |g1| + |g2| + |g3|
    ensures var all := g0 + g1 + g2 + g3;
      && all[k].schema == "" && all[k].specificName == ""
      && |all[k].argtypes|
         == if k < |g0| then 0 else if k < |g0| + |g1| then 1 else if k < |g0| + |g1| + |g2| then 2 else 3
  {
    var all := g0 + g1 + g2 + g3;
    if k < |g0| {
      assert all[k] == g0[k];
    } else if k < |g0| + |g1| {
      assert all[k] == g1[k - |g0|];
    } else if k < |g0| + |g1| + |g2| {
      assert all[k] == g2[k - |g0| - |g1|];
    } else {
      assert all[k] == g3[k - |g0| - |g1| - |g2|];
    }
  }

  /**
   Thirty-five routines: five without arguments, twenty unary, eight binary,
   then two ternary, all with an empty schema and specific name.
   */
  lemma SqliteRoutinesFacts()
    ensures |SqliteRoutines| == 35
    ensures forall k | 0 <= k < 35 ::
      && SqliteRoutines[k].schema == "" && SqliteRoutines[k].specificName == ""
      && |SqliteRoutines[k].argtypes| == if k < 5 then 0 else if k < 25 then 1 else if k < 33 then 2 else 3
  {
    NullaryGroup();
    UnaryGroup();
    BinaryGroup();
    TernaryGroup();
    forall k | 0 <= k < 35
      ensures && SqliteRoutines[k].schema == "" && SqliteRoutines[k].specificName == ""
              && |SqliteRoutines[k].argtypes| == if k < 5 then 0 else if k < 25 then 1 else if k < 33 then 2 else 3
    {
      GroupsLayout(NullaryRoutines, UnaryRoutines, BinaryRoutines, TernaryRoutines, k);
    }
  }

  // ---------------------------------------------------------------------------
  // Test outcomes
  // ---------------------------------------------------------------------------

  /**
   The syntax pattern is exactly: `near "`, any single-line text (quotes and
   the suffix itself included), then `": syntax error`.
   */
  lemma SyntaxErrorOf(middle: string)
    requires forall c | c in middle :: NotLineTerminator(c)
    ensures IsSyntaxError(SyntaxPrefix + middle + SyntaxSuffix)
    ensures Outcome(1, SyntaxPrefix + middle + SyntaxSuffix) == Syntax(SyntaxPrefix + middle + SyntaxSuffix)
  {
  }

  /** A line terminator anywhere in the middle makes the message a plain failure. */
  lemma MultiLineIsFailure(middle: string, k: nat)
    requires k < |middle| && !NotLineTerminator(middle[k])
    ensures !IsSyntaxError(SyntaxPrefix + middle + SyntaxSuffix)
  {
    var m := SyntaxPrefix + middle + SyntaxSuffix;
    SyntaxErrorShape(m);
    assert m[|SyntaxPrefix|..|m| - |SyntaxSuffix|] == middle;
    assert middle[k] in middle;
  }

  /** A failing execution whose message does not start with `n` is never a syntax error. */
  lemma OtherMessagesFail(rc: int, message: string)
    requires rc != SqliteOk && message != UserAbortMessage
    requires message == [] || message[0] != 'n'
    ensures Outcome(rc, message) == Failure(message)
  {
    SyntaxErrorShape(message);
  }
}
