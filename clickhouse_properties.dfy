/**
 Properties of the catalog `schema_clickhouse` builds: where each operator and
 routine lands in registration order, which tables and columns discovery
 yields for given server responses, and how the pieces fit together.
 */
module ClickHouseProperties {
  import opened RelModel
  import opened ClickHouse
  import ClickHouseOptions

  // ---------------------------------------------------------------------------
  // Operators
  // ---------------------------------------------------------------------------

  /** The three pattern operators registered for every integer type after its numeric ones. */
  const LikeOps: seq<string> := ["like", "not like", "ilike"]

  /** The `j`-th operator registered for integer type `t`. */
  lemma OperatorsForTypeAt(t: SqlType, numOps: seq<string>, j: nat)
    requires j < |numOps| + 3
    ensures |OperatorsForType(t, numOps)| == |numOps| + 3
    ensures OperatorsForType(t, numOps)[j]
         == if j < |numOps| then Op(numOps[j], t, t, t) else Op(LikeOps[j - |numOps|], t, t, "UInt8")
  {
  }

  lemma {:induction false} IntegerOperatorsLength(integerTypes: seq<SqlType>, numOps: seq<string>)
    ensures |IntegerOperators(integerTypes, numOps)| == |integerTypes| * (|numOps| + 3)
  {
    if integerTypes != [] {
      var n := |integerTypes|;
      IntegerOperatorsLength(integerTypes[..n - 1], numOps);
      OperatorsForTypeAt(integerTypes[n - 1], numOps, 0);
      assert (n - 1) * (|numOps| + 3) + (|numOps| + 3) == n * (|numOps| + 3);
    }
  }

  /** Entry `j` of block `i` lies inside the first `n` blocks of width `w`, and before block `n - 1` when `i` does. */
  lemma BlockIndex(i: nat, j: nat, w: nat, n: nat)
    requires i < n && j < w
    ensures i * w + j < n * w
    ensures i < n - 1 ==> i * w + j < (n - 1) * w
    ensures i == n - 1 ==> i * w == (n - 1) * w
  {
    var d := n - i;
    assert n * w == i * w + d * w;
    assert d * w == w + (d - 1) * w;
    if i < n - 1 {
      assert (n - 1) * w == i * w + (d - 1) * w;
      assert (d - 1) * w == w + (d - 2) * w;
    }
  }

  /** Block `i` of the integer operators is the block of the `i`-th integer type. */
  lemma {:induction false} IntegerOperatorsAt(integerTypes: seq<SqlType>, numOps: seq<string>, i: nat, j: nat)
    requires i < |integerTypes| && j < |numOps| + 3
    ensures i * (|numOps| + 3) + j < |IntegerOperators(integerTypes, numOps)|
    ensures IntegerOperators(integerTypes, numOps)[i * (|numOps| + 3) + j]
         == OperatorsForType(integerTypes[i], numOps)[j]
  {
    var n := |integerTypes|;
    var w := |numOps| + 3;
    var front := integerTypes[..n - 1];
    IntegerOperatorsLength(front, numOps);
    IntegerOperatorsLength(integerTypes, numOps);
    OperatorsForTypeAt(integerTypes[n - 1], numOps, j);
    BlockIndex(i, j, w, n);
    if i < n - 1 {
      IntegerOperatorsAt(front, numOps, i, j);
      assert front[i] == integerTypes[i];
    }
  }

  /**
   The full operator registry: `|integerTypes|` blocks of `|numOps| + 3`
   integer operators, one block per type in type order (each block as
   `OperatorsForTypeAt` lays it out), then one `(String, String, UInt8)`
   operator per string operator name.
   */
  lemma ClickHouseOperatorsLayout(integerTypes: seq<SqlType>, numOps: seq<string>, stringOps: seq<string>)
    ensures |ClickHouseOperators(integerTypes, numOps, stringOps)| == |integerTypes| * (|numOps| + 3) + |stringOps|
    ensures forall i, j | 0 <= i < |integerTypes| && 0 <= j < |numOps| + 3 ::
      && i * (|numOps| + 3) + j < |integerTypes| * (|numOps| + 3)
      && ClickHouseOperators(integerTypes, numOps, stringOps)[i * (|numOps| + 3) + j]
         == OperatorsForType(integerTypes[i], numOps)[j]
    ensures forall m | 0 <= m < |stringOps| ::
      ClickHouseOperators(integerTypes, numOps, stringOps)[|integerTypes| * (|numOps| + 3) + m]
      == Op(stringOps[m], "String", "String", "UInt8")
  {
    var w := |numOps| + 3;
    var ints := IntegerOperators(integerTypes, numOps);
    var all := ClickHouseOperators(integerTypes, numOps, stringOps);
    IntegerOperatorsLength(integerTypes, numOps);
    forall i, j | 0 <= i < |integerTypes| && 0 <= j < w
      ensures i * w + j < |integerTypes| * w
      ensures all[i * w + j] == OperatorsForType(integerTypes[i], numOps)[j]
    {
      IntegerOperatorsAt(integerTypes, numOps, i, j);
      assert all[i * w + j] == ints[i * w + j];
    }
  }

  /** Every operator takes two operands of one registered type and yields that type or `UInt8`. */
  lemma {:induction false} IntegerOperatorsTyped(integerTypes: seq<SqlType>, numOps: seq<string>)
    ensures forall o | o in IntegerOperators(integerTypes, numOps) ::
      && o.left == o.right
      && o.left in integerTypes
      && (o.result == o.left || o.result == "UInt8")
  {
    if integerTypes != [] {
      var n := |integerTypes|;
      var front := integerTypes[..n - 1];
      var t := integerTypes[n - 1];
      IntegerOperatorsTyped(front, numOps);
      forall o | o in IntegerOperators(integerTypes, numOps)
        ensures o.left == o.right && o.left in integerTypes && (o.result == o.left || o.result == "UInt8")
      {
        if o in IntegerOperators(front, numOps) {
          assert o.left in front;
        } else {
          assert o in OperatorsForType(t, numOps);
          var j :| 0 <= j < |OperatorsForType(t, numOps)| && OperatorsForType(t, numOps)[j] == o;
          OperatorsForTypeAt(t, numOps, j);
        }
      }
    }
  }

  lemma ClickHouseOperatorsTyped(integerTypes: seq<SqlType>, numOps: seq<string>, stringOps: seq<string>)
    ensures forall o | o in ClickHouseOperators(integerTypes, numOps, stringOps) ::
      && o.left == o.right
      && o.left in ["String", "Array"] + integerTypes
      && (o.result == o.left || o.result == "UInt8")
  {
    IntegerOperatorsTyped(integerTypes, numOps);
  }

  // ---------------------------------------------------------------------------
  // Routines
  // ---------------------------------------------------------------------------

  lemma {:induction false} IntegerRoutinesLength(integerTypes: seq<SqlType>)
    ensures |IntegerRoutines(integerTypes)| == 12 * |integerTypes|
  {
    if integerTypes != [] {
      IntegerRoutinesLength(integerTypes[..|integerTypes| - 1]);
    }
  }

  lemma {:induction false} IntegerRoutinesAt(integerTypes: seq<SqlType>, i: nat, k: nat)
    requires i < |integerTypes| && k < 12
    ensures 12 * i + k < |IntegerRoutines(integerTypes)|
    ensures IntegerRoutines(integerTypes)[12 * i + k] == RoutinesForType(integerTypes[i])[k]
  {
    var n := |integerTypes|;
    var front := integerTypes[..n - 1];
    IntegerRoutinesLength(front);
    IntegerRoutinesLength(integerTypes);
    BlockIndex(i, k, 12, n);
    if i < n - 1 {
      IntegerRoutinesAt(front, i, k);
      assert front[i] == integerTypes[i];
    }
  }

  /**
   The full routine registry: twelve routines per integer type, in type
   order, then the nine string routines.
   */
  lemma ClickHouseRoutinesLayout(integerTypes: seq<SqlType>)
    ensures |ClickHouseRoutines(integerTypes)| == 12 * |integerTypes| + 9
    ensures forall i, k | 0 <= i < |integerTypes| && 0 <= k < 12 ::
      && 12 * i + k < 12 * |integerTypes|
      && ClickHouseRoutines(integerTypes)[12 * i + k] == RoutinesForType(integerTypes[i])[k]
    ensures forall k | 0 <= k < 9 ::
      ClickHouseRoutines(integerTypes)[12 * |integerTypes| + k] == StringRoutines[k]
  {
    IntegerRoutinesLength(integerTypes);
    forall i, k | 0 <= i < |integerTypes| && 0 <= k < 12
      ensures 12 * i + k < 12 * |integerTypes|
      ensures ClickHouseRoutines(integerTypes)[12 * i + k] == RoutinesForType(integerTypes[i])[k]
    {
      IntegerRoutinesAt(integerTypes, i, k);
    }
  }

  /** A routine as `addRoutine` registers it, taking arguments of the registered types. */
  predicate WellFormedRoutine(p: Routine, types: seq<SqlType>)
  {
    && p.schema == ""
    && p.specificName == p.name
    && 1 <= |p.argtypes| <= 2
    && (forall a | a in p.argtypes :: a in types)
  }

  lemma {:induction false} IntegerRoutinesWellFormed(integerTypes: seq<SqlType>)
    ensures forall p | p in IntegerRoutines(integerTypes) :: WellFormedRoutine(p, integerTypes)
  {
    if integerTypes != [] {
      var n := |integerTypes|;
      IntegerRoutinesWellFormed(integerTypes[..n - 1]);
      assert integerTypes[n - 1] in integerTypes;
      forall p | p in IntegerRoutines(integerTypes)
        ensures WellFormedRoutine(p, integerTypes)
      {
        if p in IntegerRoutines(integerTypes[..n - 1]) {
          assert WellFormedRoutine(p, integerTypes[..n - 1]);
        }
      }
    }
  }

  /**
   Every registered routine has an empty schema, a specific name equal to its
   name, and one or two arguments whose types are all registered types.
   */
  lemma ClickHouseRoutinesWellFormed(integerTypes: seq<SqlType>)
    ensures forall p | p in ClickHouseRoutines(integerTypes) ::
      WellFormedRoutine(p, ["String", "Array"] + integerTypes)
  {
    var types := ["String", "Array"] + integerTypes;
    IntegerRoutinesWellFormed(integerTypes);
    forall p | p in ClickHouseRoutines(integerTypes)
      ensures WellFormedRoutine(p, types)
    {
      if p in IntegerRoutines(integerTypes) {
        assert WellFormedRoutine(p, integerTypes);
      } else {
        assert "String" in types;
      }
    }
  }

  // ---------------------------------------------------------------------------
  // Columns and tables
  // ---------------------------------------------------------------------------

  lemma {:induction false} ArrayColumnsAppend(a: seq<Row>, b: seq<Row>)
    ensures ArrayColumns(a + b) == ArrayColumns(a) + ArrayColumns(b)
    decreases |b|
  {
    if b != [] {
      var n := |b|;
      assert (a + b)[..|a + b| - 1] == a + b[..n - 1];
      ArrayColumnsAppend(a, b[..n - 1]);
    } else {
      assert a + b == a;
    }
  }

  /**
   A column is kept iff some described row names it and declares a type
   starting with `Array`; every kept column is typed `Array`.
   */
  lemma {:induction false} ArrayColumnsMember(rows: seq<Row>, c: Column)
    ensures c in ArrayColumns(rows)
        <==> c.typ == "Array" && exists i | 0 <= i < |rows| :: Field(rows[i], 0) == c.name && IsArrayType(Field(rows[i], 1))
  {
    if rows != [] {
      var n := |rows|;
      var front := rows[..n - 1];
      ArrayColumnsMember(front, c);
      if c in ArrayColumns(rows) && c !in ArrayColumns(front) {
        assert Field(rows[n - 1], 0) == c.name && IsArrayType(Field(rows[n - 1], 1));
      }
      if c.typ == "Array" && exists i | 0 <= i < n :: Field(rows[i], 0) == c.name && IsArrayType(Field(rows[i], 1)) {
        var i :| 0 <= i < n && Field(rows[i], 0) == c.name && IsArrayType(Field(rows[i], 1));
        if i < n - 1 {
          assert front[i] == rows[i];
        } else {
          assert c == Column(Field(rows[n - 1], 0), "Array");
        }
      }
    }
  }

  /** Each described row contributes at most one column. */
  lemma {:induction false} ArrayColumnsLength(rows: seq<Row>)
    ensures |ArrayColumns(rows)| <= |rows|
    ensures (forall i | 0 <= i < |rows| :: IsArrayType(Field(rows[i], 1))) ==> |ArrayColumns(rows)| == |rows|
    ensures (forall i | 0 <= i < |rows| :: !IsArrayType(Field(rows[i], 1))) ==> ArrayColumns(rows) == []
  {
    if rows != [] {
      var front := rows[..|rows| - 1];
      ArrayColumnsLength(front);
      assert forall i | 0 <= i < |front| :: front[i] == rows[i];
    }
  }

  /**
   Describing a list of names succeeds iff every `describe` query succeeds;
   then it yields, in list order, one table per name holding that table's
   `Array` columns.
   */
  lemma {:induction false} DescribeAllOk(server: string -> Response, db: string, names: seq<string>)
    ensures DescribeAll(server, db, names).Ok?
        <==> forall i | 0 <= i < |names| :: server(DescribeQuery(db, names[i])).Rows?
    ensures DescribeAll(server, db, names).Ok? ==>
      && |DescribeAll(server, db, names).value| == |names|
      && forall i | 0 <= i < |names| ::
           DescribeAll(server, db, names).value[i]
           == DescribedTable(db, names[i], server(DescribeQuery(db, names[i])).rows)
  {
    if names != [] {
      var n := |names|;
      var front := names[..n - 1];
      DescribeAllOk(server, db, front);
      assert forall i | 0 <= i < |front| :: front[i] == names[i];
    }
  }

  /** A failed load reports the error of the first `describe` query that failed. */
  lemma {:induction false} DescribeAllErr(server: string -> Response, db: string, names: seq<string>)
    ensures DescribeAll(server, db, names).Err? ==>
      exists i | 0 <= i < |names| ::
        && server(DescribeQuery(db, names[i])).ServerError?
        && DescribeAll(server, db, names).error == server(DescribeQuery(db, names[i])).message
        && forall j | 0 <= j < i :: server(DescribeQuery(db, names[j])).Rows?
  {
    if names != [] {
      var n := |names|;
      var front := names[..n - 1];
      assert forall i | 0 <= i < |front| :: front[i] == names[i];
      if DescribeAll(server, db, front).Err? {
        DescribeAllErr(server, db, front);
        var i :| 0 <= i < |front|
          && server(DescribeQuery(db, front[i])).ServerError?
          && DescribeAll(server, db, front).error == server(DescribeQuery(db, front[i])).message
          && forall j | 0 <= j < i :: server(DescribeQuery(db, front[j])).Rows?;
        assert names[i] == front[i];
      } else if DescribeAll(server, db, names).Err? {
        DescribeAllOk(server, db, front);
        assert forall j | 0 <= j < n - 1 :: server(DescribeQuery(db, names[j])).Rows?;
      }
    }
  }

  /**
   `initTables`: one table per row of `show tables`, in row order, named by
   the row's first field; an empty listing yields no tables and no error.
   */
  lemma LoadedTablesOk(server: string -> Response, db: string)
    ensures var listing := server(ShowTablesQuery(db));
      && (LoadedTables(server, db).Ok?
          <==> listing.Rows? && forall i | 0 <= i < |listing.rows| ::
                 server(DescribeQuery(db, Field(listing.rows[i], 0))).Rows?)
      && (LoadedTables(server, db).Ok? ==>
            && |LoadedTables(server, db).value| == |listing.rows|
            && forall i | 0 <= i < |listing.rows| ::
                 LoadedTables(server, db).value[i]
                 == DescribedTable(db, Field(listing.rows[i], 0), server(DescribeQuery(db, Field(listing.rows[i], 0))).rows))
      && (listing == Rows([]) ==> LoadedTables(server, db) == Ok([]))
  {
    var listing := server(ShowTablesQuery(db));
    if listing.Rows? {
      var names := TableNames(listing.rows);
      DescribeAllOk(server, db, names);
      assert forall i | 0 <= i < |names| :: names[i] == Field(listing.rows[i], 0);
    }
  }

  // ---------------------------------------------------------------------------
  // The whole catalog
  // ---------------------------------------------------------------------------

  /**
   A loaded catalog is consistent: every table lives in the configured
   database and is insertable but not a base table, every kept column has
   the registered `Array` type, and every operator and routine works on
   registered types.
   */
  lemma CatalogConsistent(
    info: string, refusal: Option<string>, server: string -> Response,
    integerTypes: seq<SqlType>, numOps: seq<string>, stringOps: seq<string>)
    requires ClickHouseCatalog(info, refusal, server, integerTypes, numOps, stringOps).Ok?
    ensures var c := ClickHouseCatalog(info, refusal, server, integerTypes, numOps, stringOps).value;
      && c.arraytype in c.types
      && (forall t | t in c.tables ::
            && t.schema == Lookup(ClickHouseOptions.Parse(info).value, "db")
            && t.isInsertable && !t.isBaseTable
            && forall col | col in t.columns :: col.typ == c.arraytype)
      && (forall o | o in c.operators :: o.left == o.right && o.left in c.types)
      && (forall p | p in c.routines :: WellFormedRoutine(p, c.types))
      && c.aggregates == []
  {
    var c := ClickHouseCatalog(info, refusal, server, integerTypes, numOps, stringOps).value;
    var db := Lookup(ClickHouseOptions.Parse(info).value, "db");
    LoadedTablesOk(server, db);
    ClickHouseOperatorsTyped(integerTypes, numOps, stringOps);
    ClickHouseRoutinesWellFormed(integerTypes);
    forall t | t in c.tables
      ensures t.schema == db && t.isInsertable && !t.isBaseTable
      ensures forall col | col in t.columns :: col.typ == c.arraytype
    {
      var i :| 0 <= i < |c.tables| && c.tables[i] == t;
      var rows := server(DescribeQuery(db, Field(server(ShowTablesQuery(db)).rows[i], 0))).rows;
      forall col | col in t.columns
        ensures col.typ == c.arraytype
      {
        ArrayColumnsMember(rows, col);
      }
    }
  }

  /**
   Without a `port` option there is no catalog: the missing port reads as
   empty and `stoi` throws on it, so a blank configuration is refused.
   */
  lemma NoPortRefused(
    info: string, refusal: Option<string>, server: string -> Response,
    integerTypes: seq<SqlType>, numOps: seq<string>, stringOps: seq<string>)
    requires ClickHouseOptions.Parse(info).Ok? && "port" !in ClickHouseOptions.Parse(info).value
    ensures ClickHouseCatalog(info, refusal, server, integerTypes, numOps, stringOps) == Err(StoiError)
  {
  }

  /** An empty or all-blank configuration string builds no catalog. */
  lemma BlankConfigurationRefused(
    info: string, refusal: Option<string>, server: string -> Response,
    integerTypes: seq<SqlType>, numOps: seq<string>, stringOps: seq<string>)
    requires ClickHouseOptions.AllSpace(info)
    ensures ClickHouseCatalog(info, refusal, server, integerTypes, numOps, stringOps) == Err(StoiError)
  {
    ClickHouseOptions.ParseBlank(info);
    NoPortRefused(info, refusal, server, integerTypes, numOps, stringOps);
  }

  /** Quoting never merges two identifiers: embedded quotes are kept verbatim. */
  lemma QuoteNameInjective(a: string, b: string)
    requires QuoteName(a) == QuoteName(b)
    ensures a == b
  {
    assert a == QuoteName(a)[1..|QuoteName(a)| - 1];
  }
}
