/**
 The SQLite adapter: the catalog loader (`schema_sqlite`) and the
 device-under-test adapter (`dut_sqlite`).

 The sqlite3 C library is not modelled. An engine is the result code and
 message of opening the database plus a function from the text of a statement
 to what `sqlite3_exec` does with it: the rows it hands to the callback, in
 order, then the result code it returns and the error message it reports.
 */
module Sqlite {
  import opened RelModel
  import opened Dut

  // ---------------------------------------------------------------------------
  // The engine
  // ---------------------------------------------------------------------------

  /** `SQLITE_OK`. */
  const SqliteOk: int := 0

  /** One `sqlite3_exec` call: the rows passed to the callback, the result code, the error message. */
  datatype Reply = Reply(rc: int, rows: seq<Row>, message: string)

  /** The database as the adapters see it: the outcome of `sqlite3_open_v2`, then `sqlite3_exec`. */
  datatype Engine = Engine(openRc: int, openMessage: string, exec: string -> Reply)

  const MasterQuery: string := "SELECT * FROM main.sqlite_master where type='table'"

  function TableInfoQuery(name: string): string
  {
    "pragma table_info(" + name + ");"
  }

  // ---------------------------------------------------------------------------
  // Catalog loading, as functions of the engine's replies
  // ---------------------------------------------------------------------------

  /** The table `table_callback` appends for one `sqlite_master` row. */
  function MasterTable(row: Row): Table
  {
    Table(Field(row, 2), "main", true, true, [])
  }

  /** The column `column_callback` appends for one `table_info` row. */
  function InfoColumn(row: Row): Column
  {
    Column(Field(row, 1), Field(row, 2))
  }

  function MasterTables(rows: seq<Row>): seq<Table>
  {
    seq(|rows|, i requires 0 <= i < |rows| => MasterTable(rows[i]))
  }

  function InfoColumns(rows: seq<Row>): seq<Column>
  {
    seq(|rows|, i requires 0 <= i < |rows| => InfoColumn(rows[i]))
  }

  /** Table `t` once its `table_info` query has delivered `rows`. */
  function WithInfo(t: Table, rows: seq<Row>): Table
  {
    t.(columns := t.columns + InfoColumns(rows))
  }

  /** The second pass: each table, in order, with its columns, or the first failing query's message. */
  function WithColumns(exec: string -> Reply, ts: seq<Table>): Result<seq<Table>, string>
  {
    if ts == [] then
      Ok([])
    else
      var last := ts[|ts| - 1];
      var reply := exec(TableInfoQuery(last.name));
      match WithColumns(exec, ts[..|ts| - 1])
      case Err(e) => Err(e)
      case Ok(done) =>
        if reply.rc != SqliteOk then Err(reply.message) else Ok(done + [WithInfo(last, reply.rows)])
  }

  /** Both passes: the tables of `sqlite_master`, then their columns. */
  function LoadedTables(exec: string -> Reply): Result<seq<Table>, string>
  {
    var reply := exec(MasterQuery);
    if reply.rc != SqliteOk then Err(reply.message) else WithColumns(exec, MasterTables(reply.rows))
  }

  lemma WithColumnsStep(exec: string -> Reply, ts: seq<Table>, i: nat)
    requires i < |ts| && WithColumns(exec, ts[..i]).Ok?
    ensures var reply := exec(TableInfoQuery(ts[i].name));
      WithColumns(exec, ts[..i + 1])
        == if reply.rc != SqliteOk then Err(reply.message)
           else Ok(WithColumns(exec, ts[..i]).value + [WithInfo(ts[i], reply.rows)])
  {
    assert ts[..i + 1][..i] == ts[..i];
  }

  lemma {:induction false} WithColumnsPrefixErr(exec: string -> Reply, ts: seq<Table>, k: nat)
    requires k <= |ts| && WithColumns(exec, ts[..k]).Err?
    ensures WithColumns(exec, ts) == WithColumns(exec, ts[..k])
    decreases |ts| - k
  {
    if k < |ts| {
      assert ts[..k + 1][..k] == ts[..k];
      WithColumnsPrefixErr(exec, ts, k + 1);
    } else {
      assert ts[..k] == ts;
    }
  }

  // ---------------------------------------------------------------------------
  // Fixed registrations
  // ---------------------------------------------------------------------------

  /** `BINOP(n, t)`: an operator whose operands and result all have type `t`. */
  function BinOp(name: string, t: SqlType): Op
  {
    Op(name, t, t, t)
  }

  /** The arithmetic and bitwise `BINOP` lines, in order. */
  const ArithmeticOperators: seq<Op> :=
    [ BinOp("||", "TEXT"),
      BinOp("*", "INTEGER"), BinOp("/", "INTEGER"),
      BinOp("+", "INTEGER"), BinOp("-", "INTEGER"),
      BinOp(">>", "INTEGER"), BinOp("<<", "INTEGER"),
      BinOp("&", "INTEGER"), BinOp("|", "INTEGER") ]

  /** The comparison and logical `BINOP` lines, in order. */
  const ComparisonOperators: seq<Op> :=
    [ BinOp("<", "INTEGER"), BinOp("<=", "INTEGER"), BinOp(">", "INTEGER"), BinOp(">=", "INTEGER"),
      BinOp("=", "INTEGER"), BinOp("<>", "INTEGER"), BinOp("IS", "INTEGER"), BinOp("IS NOT", "INTEGER"),
      BinOp("AND", "INTEGER"), BinOp("OR", "INTEGER") ]

  /** The operators of the `BINOP` lines, in order. */
  const SqliteOperators: seq<Op> := ArithmeticOperators + ComparisonOperators

  /** `FUNC`, `FUNC1`, `FUNC2`, `FUNC3`: a routine with empty schema and specific name. */
  function Func(name: string, resType: SqlType, args: seq<SqlType>): Routine
  {
    Routine("", "", resType, name, args)
  }

  const NullaryRoutines: seq<Routine> :=
    [ Func("last_insert_rowid", "INTEGER", []),
      Func("random", "INTEGER", []),
      Func("sqlite_source_id", "TEXT", []),
      Func("sqlite_version", "TEXT", []),
      Func("total_changes", "INTEGER", []) ]

  /** The first ten `FUNC1` lines. */
  const UnaryRoutinesFirst: seq<Routine> :=
    [ Func("abs", "INTEGER", ["REAL"]),
      Func("hex", "TEXT", ["TEXT"]),
      Func("length", "INTEGER", ["TEXT"]),
      Func("lower", "TEXT", ["TEXT"]),
      Func("ltrim", "TEXT", ["TEXT"]),
      Func("quote", "TEXT", ["TEXT"]),
      Func("randomblob", "TEXT", ["INTEGER"]),
      Func("round", "INTEGER", ["REAL"]),
      Func("rtrim", "TEXT", ["TEXT"]),
      Func("soundex", "TEXT", ["TEXT"]) ]

  /** The last ten `FUNC1` lines. */
  const UnaryRoutinesSecond: seq<Routine> :=
    [ Func("sqlite_compileoption_get", "TEXT", ["INTEGER"]),
      Func("sqlite_compileoption_used", "INTEGER", ["TEXT"]),
      Func("trim", "TEXT", ["TEXT"]),
      Func("typeof", "TEXT", ["INTEGER"]),
      Func("typeof", "TEXT", ["NUMERIC"]),
      Func("typeof", "TEXT", ["REAL"]),
      Func("typeof", "TEXT", ["TEXT"]),
      Func("unicode", "INTEGER", ["TEXT"]),
      Func("upper", "TEXT", ["TEXT"]),
      Func("zeroblob", "TEXT", ["INTEGER"]) ]

  const UnaryRoutines: seq<Routine> := UnaryRoutinesFirst + UnaryRoutinesSecond

  const BinaryRoutines: seq<Routine> :=
    [ Func("glob", "INTEGER", ["TEXT", "TEXT"]),
      Func("instr", "INTEGER", ["TEXT", "TEXT"]),
      Func("like", "INTEGER", ["TEXT", "TEXT"]),
      Func("ltrim", "TEXT", ["TEXT", "TEXT"]),
      Func("rtrim", "TEXT", ["TEXT", "TEXT"]),
      Func("trim", "TEXT", ["TEXT", "TEXT"]),
      Func("round", "INTEGER", ["REAL", "INTEGER"]),
      Func("substr", "TEXT", ["TEXT", "INTEGER"]) ]

  const TernaryRoutines: seq<Routine> :=
    [ Func("substr", "TEXT", ["TEXT", "INTEGER", "INTEGER"]),
      Func("replace", "TEXT", ["TEXT", "TEXT", "TEXT"]) ]

  /** The routines of the `FUNC*` lines, in order. */
  const SqliteRoutines: seq<Routine> := NullaryRoutines + UnaryRoutines + BinaryRoutines + TernaryRoutines

  // ---------------------------------------------------------------------------
  // The whole catalog
  // ---------------------------------------------------------------------------

  /** The catalog a `schema_sqlite` holds once its constructor returns. */
  datatype Catalog = Catalog(
    booltype: SqlType,
    inttype: SqlType,
    internaltype: SqlType,
    arraytype: SqlType,
    trueLiteral: string,
    falseLiteral: string,
    tables: seq<Table>,
    operators: seq<Op>,
    routines: seq<Routine>)

  /** The outcome of `schema_sqlite(conninfo)`: the open, both loading passes, then the fixed parts. */
  function SqliteCatalog(engine: Engine): Result<Catalog, string>
  {
    if engine.openRc != SqliteOk then
      Err(engine.openMessage)
    else
      match LoadedTables(engine.exec)
      case Err(e) => Err(e)
      case Ok(ts) => Ok(Catalog("INTEGER", "INTEGER", "internal", "ARRAY", "1", "0", ts, SqliteOperators, SqliteRoutines))
  }

  /** Replacing the first element after a prefix moves the seam one step on. */
  lemma ReplaceAtSeam<T>(done: seq<T>, rest: seq<T>, x: T)
    requires rest != []
    ensures (done + rest)[|done| := x] == done + [x] + rest[1..]
  {
    var s := (done + rest)[|done| := x];
    assert forall k | 0 <= k < |s| :: s[k] == (done + [x] + rest[1..])[k];
  }

  /**
   One step of the second pass over `ts`, whose first `i` tables are done:
   a failing `table_info` query decides the whole pass, a succeeding one
   completes table `i` in place.
   */
  lemma ColumnsAdvance(exec: string -> Reply, ts: seq<Table>, i: nat, current: seq<Table>)
    requires i < |ts| && WithColumns(exec, ts[..i]).Ok? && |WithColumns(exec, ts[..i]).value| == i
    requires current == WithColumns(exec, ts[..i]).value + ts[i..]
    ensures i < |current| && current[i] == ts[i]
    ensures var reply := exec(TableInfoQuery(ts[i].name));
      && (reply.rc != SqliteOk ==> WithColumns(exec, ts) == Err(reply.message))
      && (reply.rc == SqliteOk ==>
            && WithColumns(exec, ts[..i + 1]).Ok?
            && |WithColumns(exec, ts[..i + 1]).value| == i + 1
            && current[i := WithInfo(current[i], reply.rows)] == WithColumns(exec, ts[..i + 1]).value + ts[i + 1..])
  {
    var done := WithColumns(exec, ts[..i]).value;
    var reply := exec(TableInfoQuery(ts[i].name));
    assert current[i] == ts[i];
    WithColumnsStep(exec, ts, i);
    if reply.rc != SqliteOk {
      WithColumnsPrefixErr(exec, ts, i + 1);
    } else {
      ReplaceAtSeam(done, ts[i..], WithInfo(ts[i], reply.rows));
      assert ts[i..][1..] == ts[i + 1..];
    }
  }

  // ---------------------------------------------------------------------------
  // schema_sqlite
  // ---------------------------------------------------------------------------

  class SchemaSqlite {
    /** Whether the `db` handle is non-null. */
    var dbOpen: bool
    /** How many times `sqlite3_close` has been called on the handle. */
    var closes: nat
    var rc: int

    var booltype: SqlType
    var inttype: SqlType
    var internaltype: SqlType
    var arraytype: SqlType
    var trueLiteral: string
    var falseLiteral: string
    var tables: seq<Table>
    var operators: seq<Op>
    var routines: seq<Routine>

    function Value(): Catalog
      reads this
    {
      Catalog(booltype, inttype, internaltype, arraytype, trueLiteral, falseLiteral, tables, operators, routines)
    }

    /** An adapter with no handle and an empty catalog. */
    constructor ()
      ensures !dbOpen && closes == 0 && rc == SqliteOk
      ensures booltype == "" && inttype == "" && internaltype == "" && arraytype == ""
      ensures trueLiteral == "" && falseLiteral == ""
      ensures tables == [] && operators == [] && routines == []
    {
      dbOpen, closes, rc := false, 0, SqliteOk;
      booltype, inttype, internaltype, arraytype := "", "", "", "";
      trueLiteral, falseLiteral := "", "";
      tables, operators, routines := [], [], [];
    }

    /** `sqlite3_open_v2`: the handle is set even when the open fails; a failure is reported with its message. */
    method Open(engine: Engine) returns (err: Option<string>)
      modifies this`dbOpen, this`rc
      ensures dbOpen && rc == engine.openRc
      ensures err == if engine.openRc != SqliteOk then Some(engine.openMessage) else None
    {
      dbOpen := true;
      rc := engine.openRc;
      if rc != SqliteOk {
        return Some(engine.openMessage);
      }
      err := None;
    }

    /** `table_callback`: appends the table named by the row's third field. */
    method TableCallback(row: Row) returns (code: int)
      modifies this`tables
      ensures code == 0
      ensures tables == old(tables) + [MasterTable(row)]
    {
      tables := tables + [Table(Field(row, 2), "main", true, true, [])];
      code := 0;
    }

    /** `column_callback` on the `index`-th table: appends the row's column to that table only. */
    method ColumnCallback(index: nat, row: Row) returns (code: int)
      requires index < |tables|
      modifies this`tables
      ensures code == 0
      ensures tables == old(tables)[index := old(tables)[index].(columns := old(tables)[index].columns + [InfoColumn(row)])]
    {
      var t := tables[index];
      tables := tables[index := t.(columns := t.columns + [Column(Field(row, 1), Field(row, 2))])];
      code := 0;
    }

    /** The first pass: the `sqlite_master` query with `table_callback`, aborting on a failing result code. */
    method LoadTables(exec: string -> Reply) returns (err: Option<string>)
      modifies this`tables, this`rc
      ensures var reply := exec(MasterQuery);
        && rc == reply.rc
        && tables == old(tables) + MasterTables(reply.rows)
        && err == if reply.rc != SqliteOk then Some(reply.message) else None
    {
      var reply := exec(MasterQuery);
      var rows := reply.rows;
      for i := 0 to |rows|
        invariant tables == old(tables) + MasterTables(rows[..i])
        invariant rc == old(rc)
      {
        var _ := TableCallback(rows[i]);
        assert MasterTables(rows[..i + 1]) == MasterTables(rows[..i]) + [MasterTable(rows[i])];
      }
      assert rows[..|rows|] == rows;
      rc := reply.rc;
      if rc != SqliteOk {
        return Some(reply.message);
      }
      err := None;
    }

    /** One `table_info` query with `column_callback` bound to the `index`-th table. */
    method ReadColumns(index: nat, rows: seq<Row>)
      requires index < |tables|
      modifies this`tables
      ensures tables == old(tables)[index := WithInfo(old(tables)[index], rows)]
    {
      for k := 0 to |rows|
        invariant |tables| == |old(tables)|
        invariant forall j | 0 <= j < |tables| && j != index :: tables[j] == old(tables)[j]
        invariant tables[index] == WithInfo(old(tables)[index], rows[..k])
      {
        var _ := ColumnCallback(index, rows[k]);
        assert InfoColumns(rows[..k + 1]) == InfoColumns(rows[..k]) + [InfoColumn(rows[k])];
      }
      assert rows[..|rows|] == rows;
    }

    /** The second pass: every loaded table, in order, gets the columns of its `table_info` query. */
    method LoadColumns(exec: string -> Reply) returns (err: Option<string>)
      requires rc == SqliteOk
      modifies this`tables, this`rc
      ensures var loaded := WithColumns(exec, old(tables));
        && (err.Some? <==> loaded.Err?)
        && (loaded.Err? ==> err.value == loaded.error && rc != SqliteOk)
        && (loaded.Ok? ==> tables == loaded.value && rc == SqliteOk)
    {
      ghost var start := tables;
      var n := |tables|;
      for i := 0 to n
        invariant WithColumns(exec, start[..i]).Ok?
        invariant |WithColumns(exec, start[..i]).value| == i
        invariant tables == WithColumns(exec, start[..i]).value + start[i..]
        invariant rc == SqliteOk
      {
        ColumnsAdvance(exec, start, i, tables);
        var reply := exec(TableInfoQuery(tables[i].name));
        ReadColumns(i, reply.rows);
        rc := reply.rc;
        if rc != SqliteOk {
          return Some(reply.message);
        }
      }
      assert start[..n] == start;
      err := None;
    }

    /** `BINOP(n, t)`. */
    method RegisterBinOp(name: string, t: SqlType)
      modifies this`operators
      ensures operators == old(operators) + [BinOp(name, t)]
    {
      operators := operators + [Op(name, t, t, t)];
    }

    method RegisterArithmetic()
      modifies this`operators
      ensures operators == old(operators) + ArithmeticOperators
    {
      RegisterBinOp("||", "TEXT");
      RegisterBinOp("*", "INTEGER");
      RegisterBinOp("/", "INTEGER");
      RegisterBinOp("+", "INTEGER");
      RegisterBinOp("-", "INTEGER");
      RegisterBinOp(">>", "INTEGER");
      RegisterBinOp("<<", "INTEGER");
      RegisterBinOp("&", "INTEGER");
      RegisterBinOp("|", "INTEGER");
    }

    method RegisterComparison()
      modifies this`operators
      ensures operators == old(operators) + ComparisonOperators
    {
      RegisterBinOp("<", "INTEGER");
      RegisterBinOp("<=", "INTEGER");
      RegisterBinOp(">", "INTEGER");
      RegisterBinOp(">=", "INTEGER");
      RegisterBinOp("=", "INTEGER");
      RegisterBinOp("<>", "INTEGER");
      RegisterBinOp("IS", "INTEGER");
      RegisterBinOp("IS NOT", "INTEGER");
      RegisterBinOp("AND", "INTEGER");
      RegisterBinOp("OR", "INTEGER");
    }

    /** The nineteen `BINOP` lines. */
    method RegisterOperators()
      modifies this`operators
      ensures operators == old(operators) + SqliteOperators
    {
      RegisterArithmetic();
      RegisterComparison();
    }

    /** `FUNC*(n, r, ...)`: builds the routine, pushes its argument types in order, registers it. */
    method RegisterFunc(name: string, resType: SqlType, args: seq<SqlType>)
      modifies this`routines
      ensures routines == old(routines) + [Func(name, resType, args)]
    {
      var proc := Routine("", "", resType, name, []);
      for i := 0 to |args|
        invariant proc == Routine("", "", resType, name, args[..i])
      {
        proc := proc.(argtypes := proc.argtypes + [args[i]]);
        assert args[..i + 1] == args[..i] + [args[i]];
      }
      assert args[..|args|] == args;
      routines := routines + [proc];
    }

    method RegisterNullary()
      modifies this`routines
      ensures routines == old(routines) + NullaryRoutines
    {
      RegisterFunc("last_insert_rowid", "INTEGER", []);
      RegisterFunc("random", "INTEGER", []);
      RegisterFunc("sqlite_source_id", "TEXT", []);
      RegisterFunc("sqlite_version", "TEXT", []);
      RegisterFunc("total_changes", "INTEGER", []);
    }

    method RegisterUnaryFirst()
      modifies this`routines
      ensures routines == old(routines) + UnaryRoutinesFirst
    {
      RegisterFunc("abs", "INTEGER", ["REAL"]);
      RegisterFunc("hex", "TEXT", ["TEXT"]);
      RegisterFunc("length", "INTEGER", ["TEXT"]);
      RegisterFunc("lower", "TEXT", ["TEXT"]);
      RegisterFunc("ltrim", "TEXT", ["TEXT"]);
      RegisterFunc("quote", "TEXT", ["TEXT"]);
      RegisterFunc("randomblob", "TEXT", ["INTEGER"]);
      RegisterFunc("round", "INTEGER", ["REAL"]);
      RegisterFunc("rtrim", "TEXT", ["TEXT"]);
      RegisterFunc("soundex", "TEXT", ["TEXT"]);
    }

    method RegisterUnarySecond()
      modifies this`routines
      ensures routines == old(routines) + UnaryRoutinesSecond
    {
      RegisterFunc("sqlite_compileoption_get", "TEXT", ["INTEGER"]);
      RegisterFunc("sqlite_compileoption_used", "INTEGER", ["TEXT"]);
      RegisterFunc("trim", "TEXT", ["TEXT"]);
      RegisterFunc("typeof", "TEXT", ["INTEGER"]);
      RegisterFunc("typeof", "TEXT", ["NUMERIC"]);
      RegisterFunc("typeof", "TEXT", ["REAL"]);
      RegisterFunc("typeof", "TEXT", ["TEXT"]);
      RegisterFunc("unicode", "INTEGER", ["TEXT"]);
      RegisterFunc("upper", "TEXT", ["TEXT"]);
      RegisterFunc("zeroblob", "TEXT", ["INTEGER"]);
    }

    method RegisterUnary()
      modifies this`routines
      ensures routines == old(routines) + UnaryRoutines
    {
      RegisterUnaryFirst();
      RegisterUnarySecond();
    }

    method RegisterBinary()
      modifies this`routines
      ensures routines == old(routines) + BinaryRoutines
    {
      RegisterFunc("glob", "INTEGER", ["TEXT", "TEXT"]);
      RegisterFunc("instr", "INTEGER", ["TEXT", "TEXT"]);
      RegisterFunc("like", "INTEGER", ["TEXT", "TEXT"]);
      RegisterFunc("ltrim", "TEXT", ["TEXT", "TEXT"]);
      RegisterFunc("rtrim", "TEXT", ["TEXT", "TEXT"]);
      RegisterFunc("trim", "TEXT", ["TEXT", "TEXT"]);
      RegisterFunc("round", "INTEGER", ["REAL", "INTEGER"]);
      RegisterFunc("substr", "TEXT", ["TEXT", "INTEGER"]);
    }

    method RegisterTernary()
      modifies this`routines
      ensures routines == old(routines) + TernaryRoutines
    {
      RegisterFunc("substr", "TEXT", ["TEXT", "INTEGER", "INTEGER"]);
      RegisterFunc("replace", "TEXT", ["TEXT", "TEXT", "TEXT"]);
    }

    /** The thirty-five `FUNC*` lines. */
    method RegisterRoutines()
      modifies this`routines
      ensures routines == old(routines) + SqliteRoutines
    {
      RegisterNullary();
      RegisterUnary();
      RegisterBinary();
      RegisterTernary();
    }

    /** The type and literal choices. */
    method InitTypes()
      modifies this`booltype, this`inttype, this`internaltype, this`arraytype, this`trueLiteral, this`falseLiteral
      ensures booltype == "INTEGER" && inttype == "INTEGER"
      ensures internaltype == "internal" && arraytype == "ARRAY"
      ensures trueLiteral == "1" && falseLiteral == "0"
    {
      booltype := "INTEGER";
      inttype := "INTEGER";
      internaltype := "internal";
      arraytype := "ARRAY";
      trueLiteral := "1";
      falseLiteral := "0";
    }

    /** `sqlite3_close(db); db = 0;`. */
    method Close()
      modifies this`dbOpen, this`closes
      ensures !dbOpen && closes == old(closes) + 1
    {
      closes := closes + 1;
      dbOpen := false;
    }

    /** `~schema_sqlite`: closes the handle only when it is still set. */
    method Destroy()
      modifies this`closes
      ensures closes == old(closes) + (if dbOpen then 1 else 0)
    {
      if dbOpen {
        closes := closes + 1;
      }
    }

    /** Both loading passes, stopping at the first failing query. */
    method LoadAllTables(exec: string -> Reply) returns (err: Option<string>)
      requires tables == [] && rc == SqliteOk
      modifies this`tables, this`rc
      ensures var loaded := LoadedTables(exec);
        && (err.Some? <==> loaded.Err?)
        && (loaded.Err? ==> err.value == loaded.error)
        && (loaded.Ok? ==> tables == loaded.value && rc == SqliteOk)
    {
      err := LoadTables(exec);
      if err.Some? {
        return;
      }
      assert tables == MasterTables(exec(MasterQuery).rows);
      err := LoadColumns(exec);
    }

    /** The fixed part of the constructor once both passes succeeded: registrations, types, then the close. */
    method Complete()
      requires operators == [] && routines == []
      modifies this
      ensures Value() == Catalog("INTEGER", "INTEGER", "internal", "ARRAY", "1", "0", old(tables), SqliteOperators, SqliteRoutines)
      ensures !dbOpen && closes == old(closes) + 1 && rc == old(rc)
    {
      RegisterOperators();
      RegisterRoutines();
      InitTypes();
      Close();
      assert [] + SqliteOperators == SqliteOperators;
      assert [] + SqliteRoutines == SqliteRoutines;
    }

    /** Everything after a successful open: both loading passes, then the fixed part. */
    method LoadOpened(exec: string -> Reply) returns (err: Option<string>)
      requires dbOpen && closes == 0 && rc == SqliteOk
      requires tables == [] && operators == [] && routines == []
      modifies this
      ensures var loaded := LoadedTables(exec);
        && (err.Some? <==> loaded.Err?)
        && (loaded.Err? ==> err.value == loaded.error && dbOpen && closes == 0)
        && (loaded.Ok? ==> Value() == Catalog("INTEGER", "INTEGER", "internal", "ARRAY", "1", "0", loaded.value, SqliteOperators, SqliteRoutines)
                           && !dbOpen && closes == 1 && rc == SqliteOk)
    {
      err := LoadAllTables(exec);
      if err.Some? {
        return;
      }
      Complete();
    }

    /**
     The body of the `schema_sqlite` constructor. A failure raises before the
     handle is closed; on success the handle is closed exactly once and cleared.
     */
    method Load(engine: Engine) returns (err: Option<string>)
      requires !dbOpen && closes == 0
      requires tables == [] && operators == [] && routines == []
      modifies this
      ensures var spec := SqliteCatalog(engine);
        && (err.Some? <==> spec.Err?)
        && (spec.Err? ==> err.value == spec.error && dbOpen && closes == 0)
        && (spec.Ok? ==> Value() == spec.value && !dbOpen && closes == 1 && rc == SqliteOk)
    {
      err := Open(engine);
      if err.Some? {
        return;
      }
      err := LoadOpened(engine.exec);
    }
  }

  /** The `schema_sqlite` constructor: a fresh adapter whose catalog is loaded, or the message it raises. */
  method NewSchemaSqlite(engine: Engine) returns (r: Result<SchemaSqlite, string>)
    ensures var spec := SqliteCatalog(engine);
      && (r.Err? <==> spec.Err?)
      && (r.Err? ==> r.error == spec.error)
      && (r.Ok? ==> fresh(r.value) && r.value.Value() == spec.value && !r.value.dbOpen && r.value.closes == 1)
  {
    var s := new SchemaSqlite();
    var err := s.Load(engine);
    if err.Some? {
      return Err(err.value);
    }
    r := Ok(s);
  }

  /**
   How often one construction followed, when it succeeds, by destruction
   closes the handle: once after a successful load (the destructor sees the
   cleared handle), never when the constructor raises (the destructor of a
   partly built object does not run).
   */
  method HandleCloses(engine: Engine) returns (closes: nat)
    ensures closes == if SqliteCatalog(engine).Ok? then 1 else 0
  {
    var s := new SchemaSqlite();
    var err := s.Load(engine);
    if err.None? {
      s.Destroy();
    }
    closes := s.closes;
  }

  /**
   Construction and destruction as the destructor's null check intends them:
   a load that raises closes the handle it holds before the error leaves, so
   every path closes the handle exactly once.
   */
  method HandleClosesReleasing(engine: Engine) returns (closes: nat)
    ensures closes == 1
  {
    var s := new SchemaSqlite();
    var err := s.Load(engine);
    if err.Some? {
      s.Close();
    } else {
      s.Destroy();
    }
    closes := s.closes;
  }

  // ---------------------------------------------------------------------------
  // dut_sqlite
  // ---------------------------------------------------------------------------

  const SyntaxPrefix: string := "near \""
  const SyntaxSuffix: string := "\": syntax error"
  const UserAbortMessage: string := "callback requested query abort"

  /** What `.` matches in an ECMAScript `std::regex`: any character but a line terminator. */
  predicate NotLineTerminator(c: char)
  {
    c != '\n' && c != '\r'
  }

  /** The text of a syntax error: `near "`, a single-line middle, then `": syntax error`. */
  ghost predicate IsSyntaxError(message: string)
  {
    exists middle: string | forall c | c in middle :: NotLineTerminator(c) ::
      message == SyntaxPrefix + middle + SyntaxSuffix
  }

  /** A syntax error is framed by the fixed prefix and suffix around a single-line middle. */
  lemma SyntaxErrorShape(message: string)
    ensures IsSyntaxError(message) ==>
      && |message| >= |SyntaxPrefix| + |SyntaxSuffix|
      && message[..|SyntaxPrefix|] == SyntaxPrefix
      && message[|message| - |SyntaxSuffix|..] == SyntaxSuffix
      && forall c | c in message[|SyntaxPrefix|..|message| - |SyntaxSuffix|] :: NotLineTerminator(c)
  {
    if IsSyntaxError(message) {
      var middle :| (forall c | c in middle :: NotLineTerminator(c)) && message == SyntaxPrefix + middle + SyntaxSuffix;
      assert message[|SyntaxPrefix|..|message| - |SyntaxSuffix|] == middle;
    }
  }

  /** A string is its three slices at two cut points, put back together. */
  lemma SplitThree(s: string, i: nat, j: nat)
    requires i <= j <= |s|
    ensures s == s[..i] + s[i..j] + s[j..]
  {
    assert s[..j] == s[..i] + s[i..j];
  }

  /** `regex_match(message, e_syntax)`. */
  function MatchesSyntax(message: string): (r: bool)
    ensures r <==> IsSyntaxError(message)
  {
    SyntaxErrorShape(message);
    var n := |message|;
    if n < |SyntaxPrefix| + |SyntaxSuffix| then
      false
    else
      var middle := message[|SyntaxPrefix|..n - |SyntaxSuffix|];
      var r := message[..|SyntaxPrefix|] == SyntaxPrefix
        && message[n - |SyntaxSuffix|..] == SyntaxSuffix
        && forall c | c in middle :: NotLineTerminator(c);
      assert r ==> message == SyntaxPrefix + middle + SyntaxSuffix by {
        SplitThree(message, |SyntaxPrefix|, n - |SyntaxSuffix|);
      }
      r
  }

  /**
   `dut_sqlite::test`'s decision on the result of executing the statement:
   success, a syntax rejection, a user abort (the callback stops any
   statement that returns rows, which counts as success), or a failure.
   */
  function Outcome(rc: int, message: string): (r: TestOutcome)
    ensures r == Passed <==> rc == SqliteOk || message == UserAbortMessage
    ensures r.Syntax? <==> rc != SqliteOk && IsSyntaxError(message)
    ensures r.Failure? <==> rc != SqliteOk && !IsSyntaxError(message) && message != UserAbortMessage
    ensures !r.Passed? ==> r.message == message
  {
    if rc == SqliteOk then
      Passed
    else if MatchesSyntax(message) then
      SyntaxErrorShape(message);
      assert message[0] == 'n' != UserAbortMessage[0];
      Syntax(message)
    else if message == UserAbortMessage then
      Passed
    else
      Failure(message)
  }

  class DutSqlite {
    var dbOpen: bool
    var rc: int

    constructor (openRc: int)
      ensures dbOpen && rc == openRc
    {
      dbOpen := true;
      rc := openRc;
    }

    /** `test(stmt)`: executes the statement and reports its outcome; the result code is kept. */
    method Test(exec: string -> Reply, stmt: string) returns (r: TestOutcome)
      modifies this`rc
      ensures rc == exec(stmt).rc
      ensures r == Outcome(exec(stmt).rc, exec(stmt).message)
    {
      var reply := exec(stmt);
      rc := reply.rc;
      r := Outcome(rc, reply.message);
    }
  }

  /** The `dut_sqlite` constructor: opens the database, or raises the open's message. */
  method NewDutSqlite(engine: Engine) returns (r: Result<DutSqlite, string>)
    ensures engine.openRc != SqliteOk <==> r.Err?
    ensures r.Err? ==> r.error == engine.openMessage
    ensures r.Ok? ==> fresh(r.value) && r.value.dbOpen && r.value.rc == SqliteOk
  {
    if engine.openRc != SqliteOk {
      return Err(engine.openMessage);
    }
    var d := new DutSqlite(engine.openRc);
    r := Ok(d);
  }
}
