/**
 The ClickHouse adapter: the connection, the catalog loader (`schema_clickhouse`)
 and the device-under-test adapter (`dut_clickhouse`).

 The clickhouse-cpp client is not modelled. A server is a function from the
 text of a `Select` query to its result rows (all blocks, in order) or to the
 error the client throws; the client's construction and its `Ping` become
 plain inputs.
 */
module ClickHouse {
  import opened RelModel
  import opened Dut
  import ClickHouseOptions

  // ---------------------------------------------------------------------------
  // Engine responses and queries
  // ---------------------------------------------------------------------------

  /** What `client.Select(query, ...)` delivers: every row of every block, or the error it throws. */
  datatype Response = Rows(rows: seq<Row>) | ServerError(message: string)

  /** `options[key]` on a `std::map`: the stored value, or the empty string for a missing key. */
  function Lookup(options: map<string, string>, key: string): string
  {
    if key in options then options[key] else ""
  }

  function ShowTablesQuery(db: string): string
  {
    "show tables in " + db
  }

  function DescribeQuery(db: string, name: string): string
  {
    "describe " + db + "." + name
  }

  // ---------------------------------------------------------------------------
  // startsWith
  // ---------------------------------------------------------------------------

  /** `startsWith(a, b)`: whether `b` is a prefix of `a`. */
  method StartsWith(a: string, b: string) returns (r: bool)
    ensures r <==> |b| <= |a| && a[..|b|] == b
  {
    var i := 0;
    while i < |a| && i < |b|
      invariant 0 <= i <= |a| && i <= |b|
      invariant a[..i] == b[..i]
    {
      if a[i] != b[i] {
        if |b| <= |a| {
          assert a[..|b|][i] == a[i];
        }
        return false;
      }
      i := i + 1;
    }
    r := i == |b|;
  }

  /** The type filter of `describeTable`: only types starting with `Array` are kept. */
  predicate IsArrayType(typ: string)
  {
    "Array" <= typ
  }

  // ---------------------------------------------------------------------------
  // Table discovery, as functions of the server's responses
  // ---------------------------------------------------------------------------

  /** The names `getTableList` collects: the first column of every row, in order. */
  function TableNames(rows: seq<Row>): seq<string>
  {
    seq(|rows|, i requires 0 <= i < |rows| => Field(rows[i], 0))
  }

  /** The columns `describeTable` keeps: one `Array` column per row whose type starts with `Array`. */
  function ArrayColumns(rows: seq<Row>): seq<Column>
  {
    if rows == [] then
      []
    else
      ArrayColumns(rows[..|rows| - 1])
      + (if IsArrayType(Field(rows[|rows| - 1], 1)) then [Column(Field(rows[|rows| - 1], 0), "Array")] else [])
  }

  /** The table `describeTable(name)` appends once its rows have been read. */
  function DescribedTable(db: string, name: string, rows: seq<Row>): Table
  {
    Table(name, db, true, false, ArrayColumns(rows))
  }

  /** The tables `describeTable` appends for `names`, in order, or the first error. */
  function DescribeAll(server: string -> Response, db: string, names: seq<string>): Result<seq<Table>, string>
  {
    if names == [] then
      Ok([])
    else
      match DescribeAll(server, db, names[..|names| - 1])
      case Err(e) => Err(e)
      case Ok(ts) =>
        match server(DescribeQuery(db, names[|names| - 1]))
        case ServerError(e) => Err(e)
        case Rows(rows) => Ok(ts + [DescribedTable(db, names[|names| - 1], rows)])
  }

  /** What `initTables` appends: one described table per listed name, or the first error. */
  function LoadedTables(server: string -> Response, db: string): Result<seq<Table>, string>
  {
    match server(ShowTablesQuery(db))
    case ServerError(e) => Err(e)
    case Rows(rows) => DescribeAll(server, db, TableNames(rows))
  }

  /** Describing one more name extends the tables described so far, or fails with that query's error. */
  lemma DescribeAllStep(server: string -> Response, db: string, names: seq<string>, i: nat)
    requires i < |names| && DescribeAll(server, db, names[..i]).Ok?
    ensures var response := server(DescribeQuery(db, names[i]));
      DescribeAll(server, db, names[..i + 1])
        == if response.ServerError? then Err(response.message)
           else Ok(DescribeAll(server, db, names[..i]).value + [DescribedTable(db, names[i], response.rows)])
  {
    assert names[..i + 1][..i] == names[..i];
  }

  /** Once a prefix of the names fails, the whole load fails with the same error. */
  lemma {:induction false} DescribeAllPrefixErr(server: string -> Response, db: string, names: seq<string>, k: nat)
    requires k <= |names| && DescribeAll(server, db, names[..k]).Err?
    ensures DescribeAll(server, db, names) == DescribeAll(server, db, names[..k])
    decreases |names| - k
  {
    if k < |names| {
      var longer := names[..k + 1];
      assert longer[..k] == names[..k];
      assert DescribeAll(server, db, longer) == DescribeAll(server, db, names[..k]);
      DescribeAllPrefixErr(server, db, names, k + 1);
    } else {
      assert names[..k] == names;
    }
  }

  // ---------------------------------------------------------------------------
  // Operator and routine registration, as functions of the type lists
  // ---------------------------------------------------------------------------

  /** What `addOperators(names, l, r, res)` registers: one operator per name, in order. */
  function OpsFor(names: seq<string>, l: SqlType, r: SqlType, res: SqlType): seq<Op>
  {
    seq(|names|, j requires 0 <= j < |names| => Op(names[j], l, r, res))
  }

  /** The operators `initOperators` registers for one integer type. */
  function OperatorsForType(t: SqlType, numOps: seq<string>): seq<Op>
  {
    OpsFor(numOps, t, t, t)
    + OpsFor(["like"], t, t, "UInt8")
    + OpsFor(["not like"], t, t, "UInt8")
    + OpsFor(["ilike"], t, t, "UInt8")
  }

  function IntegerOperators(integerTypes: seq<SqlType>, numOps: seq<string>): seq<Op>
  {
    if integerTypes == [] then
      []
    else
      IntegerOperators(integerTypes[..|integerTypes| - 1], numOps)
      + OperatorsForType(integerTypes[|integerTypes| - 1], numOps)
  }

  /** Every operator `initOperators` registers, in registration order. */
  function ClickHouseOperators(integerTypes: seq<SqlType>, numOps: seq<string>, stringOps: seq<string>): seq<Op>
  {
    IntegerOperators(integerTypes, numOps) + OpsFor(stringOps, "String", "String", "UInt8")
  }

  /** The routine `addRoutine(name, resType, args)` registers. */
  function Proc(name: string, resType: SqlType, args: seq<SqlType>): Routine
  {
    Routine("", name, resType, name, args)
  }

  /** The twelve routines `initRoutines` registers for one integer type. */
  function RoutinesForType(t: SqlType): seq<Routine>
  {
    [ Proc("plus", t, [t, t]),
      Proc("minus", t, [t, t]),
      Proc("multiply", t, [t, t]),
      Proc("divide", t, [t, t]),
      Proc("intDiv", t, [t, t]),
      Proc("intDivOrZero", t, [t, t]),
      Proc("modulo", t, [t, t]),
      Proc("moduloOrZero", t, [t, t]),
      Proc("negate", t, [t]),
      Proc("abs", t, [t]),
      Proc("gcd", t, [t, t]),
      Proc("lcm", t, [t, t]) ]
  }

  /** The nine string routines registered after the integer ones. */
  const StringRoutines: seq<Routine> :=
    [ Proc("empty", "UInt8", ["String"]),
      Proc("length", "UInt64", ["String"]),
      Proc("lower", "String", ["String"]),
      Proc("upper", "String", ["String"]),
      Proc("reverse", "String", ["String"]),
      Proc("concat", "String", ["String", "String"]),
      Proc("position", "UInt64", ["String", "String"]),
      Proc("positionCaseInsensitive", "UInt64", ["String", "String"]),
      Proc("match", "UInt8", ["String", "String"]) ]

  function IntegerRoutines(integerTypes: seq<SqlType>): seq<Routine>
  {
    if integerTypes == [] then
      []
    else
      IntegerRoutines(integerTypes[..|integerTypes| - 1]) + RoutinesForType(integerTypes[|integerTypes| - 1])
  }

  /** Every routine `initRoutines` registers, in registration order. */
  function ClickHouseRoutines(integerTypes: seq<SqlType>): seq<Routine>
  {
    IntegerRoutines(integerTypes) + StringRoutines
  }

  // ---------------------------------------------------------------------------
  // The whole catalog
  // ---------------------------------------------------------------------------

  predicate IsDigit(c: char)
  {
    '0' <= c <= '9'
  }

  /**
   Whether `stoi` finds a number at the start of `s`: white space, an
   optional sign, then a digit. Otherwise it throws `std::invalid_argument`
   with the message `stoi`.
   */
  predicate StoiParses(s: string)
  {
    if s == [] then
      false
    else if ClickHouseOptions.IsSpace(s[0]) then
      StoiParses(s[1..])
    else if s[0] == '+' || s[0] == '-' then
      |s| > 1 && IsDigit(s[1])
    else
      IsDigit(s[0])
  }

  /** The error `stoi` raises on a port it cannot read. */
  const StoiError: string := "stoi"

  /** The catalog a `schema_clickhouse` holds once its constructor returns. */
  datatype Catalog = Catalog(
    booltype: SqlType,
    inttype: SqlType,
    internaltype: SqlType,
    arraytype: SqlType,
    tables: seq<Table>,
    operators: seq<Op>,
    types: seq<SqlType>,
    routines: seq<Routine>,
    aggregates: seq<Routine>)

  /**
   The outcome of `schema_clickhouse(info)`: the option parse, the port's
   conversion by `stoi` (a missing port reads as empty), the client's
   construction (`refusal` is the error it throws, if any), then the stages
   types, tables, operators, routines and aggregates.
   */
  function ClickHouseCatalog(
    info: string, refusal: Option<string>, server: string -> Response,
    integerTypes: seq<SqlType>, numOps: seq<string>, stringOps: seq<string>): Result<Catalog, string>
  {
    match ClickHouseOptions.Parse(info)
    case Err(token) => Err("Cannot parse option: " + token)
    case Ok(options) =>
      if !StoiParses(Lookup(options, "port")) then
        Err(StoiError)
      else if refusal.Some? then
        Err(refusal.value)
      else
        match LoadedTables(server, Lookup(options, "db"))
        case Err(e) => Err(e)
        case Ok(tables) =>
          Ok(Catalog(
            "UInt8", "UInt64", "internal", "Array",
            tables,
            ClickHouseOperators(integerTypes, numOps, stringOps),
            ["String", "Array"] + integerTypes,
            ClickHouseRoutines(integerTypes),
            []))
  }

  // ---------------------------------------------------------------------------
  // schema_clickhouse
  // ---------------------------------------------------------------------------

  class SchemaClickHouse {
    /** The parsed connection options (`parser.options`). */
    const options: map<string, string>

    var booltype: SqlType
    var inttype: SqlType
    var internaltype: SqlType
    var arraytype: SqlType
    var tables: seq<Table>
    var operators: seq<Op>
    var types: seq<SqlType>
    var routines: seq<Routine>
    var aggregates: seq<Routine>

    function Value(): Catalog
      reads this
    {
      Catalog(booltype, inttype, internaltype, arraytype, tables, operators, types, routines, aggregates)
    }

    /** A connected adapter with an empty catalog. */
    constructor (options: map<string, string>)
      ensures this.options == options
      ensures booltype == "" && inttype == "" && internaltype == "" && arraytype == ""
      ensures tables == [] && operators == [] && types == [] && routines == [] && aggregates == []
    {
      this.options := options;
      booltype, inttype, internaltype, arraytype := "", "", "", "";
      tables, operators, types, routines, aggregates := [], [], [], [], [];
    }

    method InitTypes()
      modifies this`booltype, this`inttype, this`internaltype, this`arraytype
      ensures booltype == "UInt8" && inttype == "UInt64"
      ensures internaltype == "internal" && arraytype == "Array"
    {
      booltype := "UInt8";
      inttype := "UInt64";
      internaltype := "internal";
      arraytype := "Array";
    }

    /** `getTableList`: runs `show tables in <db>` and collects the first column of every row. */
    method GetTableList(server: string -> Response) returns (r: Result<seq<string>, string>)
      ensures match server(ShowTablesQuery(Lookup(options, "db")))
        case ServerError(e) => r == Err(e)
        case Rows(rows) => r.Ok? && |r.value| == |rows| && forall i | 0 <= i < |rows| :: r.value[i] == Field(rows[i], 0)
    {
      var query := ShowTablesQuery(Lookup(options, "db"));
      var response := server(query);
      if response.ServerError? {
        return Err(response.message);
      }
      var rows := response.rows;
      var ans: seq<string> := [];
      for i := 0 to |rows|
        invariant |ans| == i
        invariant forall j | 0 <= j < i :: ans[j] == Field(rows[j], 0)
      {
        ans := ans + [Field(rows[i], 0)];
      }
      r := Ok(ans);
    }

    /**
     `describeTable(name)`: appends the table, then one `Array` column per
     described row whose type starts with `Array`. A failing query leaves
     the table, still without columns, and reports the error.
     */
    method DescribeTable(server: string -> Response, name: string) returns (err: Option<string>)
      modifies this`tables
      ensures var db := Lookup(options, "db");
        match server(DescribeQuery(db, name))
        case ServerError(e) => err == Some(e) && tables == old(tables) + [Table(name, db, true, false, [])]
        case Rows(rows) => err == None && tables == old(tables) + [DescribedTable(db, name, rows)]
    {
      var db := Lookup(options, "db");
      var query := DescribeQuery(db, name);
      tables := tables + [Table(name, db, true, false, [])];
      var response := server(query);
      if response.ServerError? {
        return Some(response.message);
      }
      var rows := response.rows;
      var last := |tables| - 1;
      for i := 0 to |rows|
        invariant |tables| == |old(tables)| + 1 && tables[..last] == old(tables)
        invariant tables[last] == Table(name, db, true, false, ArrayColumns(rows[..i]))
      {
        var isArray := StartsWith(Field(rows[i], 1), "Array");
        if isArray {
          var t := tables[last];
          tables := tables[last := t.(columns := t.columns + [Column(Field(rows[i], 0), "Array")])];
        }
        assert rows[..i + 1][..i] == rows[..i];
      }
      assert rows[..|rows|] == rows;
      assert tables == tables[..last] + [tables[last]];
      err := None;
    }

    /** `initTables`: describes every listed table, in the order listed. */
    method InitTables(server: string -> Response) returns (err: Option<string>)
      modifies this`tables
      ensures match LoadedTables(server, Lookup(options, "db"))
        case Err(e) => err == Some(e)
        case Ok(ts) => err == None && tables == old(tables) + ts
    {
      var db := Lookup(options, "db");
      var list := GetTableList(server);
      if list.Err? {
        return Some(list.error);
      }
      var names := list.value;
      assert names == TableNames(server(ShowTablesQuery(db)).rows);
      for i := 0 to |names|
        invariant DescribeAll(server, db, names[..i]).Ok?
        invariant tables == old(tables) + DescribeAll(server, db, names[..i]).value
      {
        var e := DescribeTable(server, names[i]);
        DescribeAllStep(server, db, names, i);
        if e.Some? {
          DescribeAllPrefixErr(server, db, names, i + 1);
          return e;
        }
      }
      assert names[..|names|] == names;
      err := None;
    }

    /** `addOperators`: registers one operator per name, with the given signature. */
    method AddOperators(names: seq<string>, l: SqlType, r: SqlType, res: SqlType)
      modifies this`operators
      ensures operators == old(operators) + OpsFor(names, l, r, res)
    {
      for i := 0 to |names|
        invariant |operators| == |old(operators)| + i
        invariant operators[..|old(operators)|] == old(operators)
        invariant forall j | 0 <= j < i :: operators[|old(operators)| + j] == Op(names[j], l, r, res)
      {
        operators := operators + [Op(names[i], l, r, res)];
      }
    }

    /** `initOperators`: the integer operators per type, then the string operators, then the types. */
    method InitOperators(integerTypes: seq<SqlType>, numOps: seq<string>, stringOps: seq<string>)
      modifies this`operators, this`types
      ensures operators == old(operators) + ClickHouseOperators(integerTypes, numOps, stringOps)
      ensures types == old(types) + ["String", "Array"] + integerTypes
    {
      for i := 0 to |integerTypes|
        invariant operators == old(operators) + IntegerOperators(integerTypes[..i], numOps)
        invariant types == old(types)
      {
        AddTypeOperators(integerTypes[i], numOps);
        assert integerTypes[..i + 1][..i] == integerTypes[..i];
      }
      assert integerTypes[..|integerTypes|] == integerTypes;
      AddOperators(stringOps, "String", "String", "UInt8");
      AddTypes(integerTypes);
    }

    /** The four `addOperators` calls `initOperators` makes for one integer type. */
    method AddTypeOperators(t: SqlType, numOps: seq<string>)
      modifies this`operators
      ensures operators == old(operators) + OperatorsForType(t, numOps)
    {
      AddOperators(numOps, t, t, t);
      AddOperators(["like"], t, t, "UInt8");
      AddOperators(["not like"], t, t, "UInt8");
      AddOperators(["ilike"], t, t, "UInt8");
    }

    /** The type list `initOperators` builds: `String`, `Array`, then the integer types. */
    method AddTypes(integerTypes: seq<SqlType>)
      modifies this`types
      ensures types == old(types) + ["String", "Array"] + integerTypes
    {
      types := types + ["String"];
      types := types + ["Array"];
      for i := 0 to |integerTypes|
        invariant types == old(types) + ["String", "Array"] + integerTypes[..i]
      {
        types := types + [integerTypes[i]];
        assert integerTypes[..i + 1] == integerTypes[..i] + [integerTypes[i]];
      }
      assert integerTypes[..|integerTypes|] == integerTypes;
    }

    /** `addRoutine`: registers the routine, then appends its argument types to it one by one. */
    method AddRoutine(name: string, resType: SqlType, args: seq<SqlType>)
      modifies this`routines
      ensures routines == old(routines) + [Proc(name, resType, args)]
    {
      routines := routines + [Routine("", name, resType, name, [])];
      var last := |routines| - 1;
      for i := 0 to |args|
        invariant |routines| == |old(routines)| + 1 && routines[..last] == old(routines)
        invariant routines[last] == Routine("", name, resType, name, args[..i])
      {
        var p := routines[last];
        routines := routines[last := p.(argtypes := p.argtypes + [args[i]])];
        assert args[..i + 1] == args[..i] + [args[i]];
      }
      assert args[..|args|] == args;
      assert routines == routines[..last] + [routines[last]];
    }

    /** The twelve `addRoutine` calls `initRoutines` makes for one integer type. */
    method AddIntegerRoutines(t: SqlType)
      modifies this`routines
      ensures routines == old(routines) + RoutinesForType(t)
    {
      AddRoutine("plus", t, [t, t]);
      AddRoutine("minus", t, [t, t]);
      AddRoutine("multiply", t, [t, t]);
      AddRoutine("divide", t, [t, t]);
      AddRoutine("intDiv", t, [t, t]);
      AddRoutine("intDivOrZero", t, [t, t]);
      AddRoutine("modulo", t, [t, t]);
      AddRoutine("moduloOrZero", t, [t, t]);
      AddRoutine("negate", t, [t]);
      AddRoutine("abs", t, [t]);
      AddRoutine("gcd", t, [t, t]);
      AddRoutine("lcm", t, [t, t]);
    }

    /** The nine `addRoutine` calls for the string routines. */
    method AddStringRoutines()
      modifies this`routines
      ensures routines == old(routines) + StringRoutines
    {
      AddRoutine("empty", "UInt8", ["String"]);
      AddRoutine("length", "UInt64", ["String"]);
      AddRoutine("lower", "String", ["String"]);
      AddRoutine("upper", "String", ["String"]);
      AddRoutine("reverse", "String", ["String"]);
      AddRoutine("concat", "String", ["String", "String"]);
      AddRoutine("position", "UInt64", ["String", "String"]);
      AddRoutine("positionCaseInsensitive", "UInt64", ["String", "String"]);
      AddRoutine("match", "UInt8", ["String", "String"]);
    }

    /** `initRoutines`: twelve routines per integer type, then nine string routines. */
    method InitRoutines(integerTypes: seq<SqlType>)
      modifies this`routines
      ensures routines == old(routines) + ClickHouseRoutines(integerTypes)
    {
      for i := 0 to |integerTypes|
        invariant routines == old(routines) + IntegerRoutines(integerTypes[..i])
      {
        AddIntegerRoutines(integerTypes[i]);
        assert integerTypes[..i + 1][..i] == integerTypes[..i];
      }
      assert integerTypes[..|integerTypes|] == integerTypes;
      AddStringRoutines();
    }

    /** `initAggregates` registers nothing. */
    method InitAggregates()
    {
    }

    /** The stages after table discovery: operators and types, routines, aggregates. */
    method InitBuiltins(integerTypes: seq<SqlType>, numOps: seq<string>, stringOps: seq<string>)
      requires operators == [] && types == [] && routines == [] && aggregates == []
      modifies this`operators, this`types, this`routines
      ensures operators == ClickHouseOperators(integerTypes, numOps, stringOps)
      ensures types == ["String", "Array"] + integerTypes
      ensures routines == ClickHouseRoutines(integerTypes)
    {
      InitOperators(integerTypes, numOps, stringOps);
      InitRoutines(integerTypes);
      InitAggregates();
      assert [] + ClickHouseOperators(integerTypes, numOps, stringOps) == ClickHouseOperators(integerTypes, numOps, stringOps);
      assert [] + ClickHouseRoutines(integerTypes) == ClickHouseRoutines(integerTypes);
      assert [] + ["String", "Array"] + integerTypes == ["String", "Array"] + integerTypes;
    }

    /**
     The body of the `schema_clickhouse` constructor: the stages in their
     fixed order, stopping at the first failing query.
     */
    method Load(server: string -> Response, integerTypes: seq<SqlType>, numOps: seq<string>, stringOps: seq<string>)
      returns (err: Option<string>)
      requires tables == [] && operators == [] && types == [] && routines == [] && aggregates == []
      modifies this
      ensures var loaded := LoadedTables(server, Lookup(options, "db"));
        && (err.Some? <==> loaded.Err?)
        && (loaded.Err? ==> err.value == loaded.error)
        && (loaded.Ok? ==> Value() == Catalog(
               "UInt8", "UInt64", "internal", "Array",
               loaded.value,
               ClickHouseOperators(integerTypes, numOps, stringOps),
               ["String", "Array"] + integerTypes,
               ClickHouseRoutines(integerTypes),
               []))
    {
      InitTypes();
      err := InitTables(server);
      if err.Some? {
        return;
      }
      InitBuiltins(integerTypes, numOps, stringOps);
    }
  }

  /**
   The `schema_clickhouse` constructor: parses the options (a malformed token
   ends the program, modelled as a failure), builds the client, then loads
   the catalog. Index generation and the printout are not modelled.
   */
  method NewSchemaClickHouse(
    info: string, refusal: Option<string>, server: string -> Response,
    integerTypes: seq<SqlType>, numOps: seq<string>, stringOps: seq<string>)
    returns (r: Result<SchemaClickHouse, string>)
    ensures var spec := ClickHouseCatalog(info, refusal, server, integerTypes, numOps, stringOps);
      && (r.Err? <==> spec.Err?)
      && (r.Err? ==> r.error == spec.error)
      && (r.Ok? ==> fresh(r.value) && r.value.Value() == spec.value)
  {
    var parsed := ClickHouseOptions.ParseOptions(info);
    if parsed.Err? {
      return Err("Cannot parse option: " + parsed.error);
    }
    if !StoiParses(Lookup(parsed.value, "port")) {
      return Err(StoiError);
    }
    if refusal.Some? {
      return Err(refusal.value);
    }
    var s := new SchemaClickHouse(parsed.value);
    var err := s.Load(server, integerTypes, numOps, stringOps);
    if err.Some? {
      return Err(err.value);
    }
    r := Ok(s);
  }

  /** `quote_name`: the identifier between single quotes, with no escaping. */
  function QuoteName(id: string): (r: string)
    ensures |r| == |id| + 2
    ensures r[0] == '\'' && r[|r| - 1] == '\''
    ensures r[1..|r| - 1] == id
  {
    "'" + id + "'"
  }

  // ---------------------------------------------------------------------------
  // Statement execution and the device-under-test adapter
  // ---------------------------------------------------------------------------

  /** What `client.Execute(query)` does: completes, throws a server error, or throws anything else. */
  datatype Execution = Executed | ExecServerError(message: string) | ExecOtherError

  /** `clickhouse_connection::query`: every error of the execution is caught and dropped. */
  method Query(execution: Execution)
  {
  }

  /** `checkAliveness`: a failed ping raises the failure `ping failed`. */
  method CheckAliveness(pingOk: bool) returns (r: TestOutcome)
    ensures pingOk ==> r == Passed
    ensures !pingOk ==> r == Failure("ping failed")
  {
    if pingOk {
      r := Passed;
    } else {
      r := Failure("ping failed");
    }
  }

  /**
   `dut_clickhouse::test`: executes the statement, then pings. The outcome is
   decided by the ping alone; the execution cannot change it.
   */
  method Test(execution: Execution, pingOk: bool) returns (r: TestOutcome)
    ensures r == Passed <==> pingOk
    ensures r != Passed ==> r == Failure("ping failed")
  {
    Query(execution);
    r := CheckAliveness(pingOk);
  }
}
