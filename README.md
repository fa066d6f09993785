# clicksmith engine adapters, modelled in Dafny

This project models the engine adapters of the clicksmith SQL fuzzer, for ClickHouse and for SQLite. Each adapter has two halves:

- **Catalog loader.** `schema_clickhouse` or `schema_sqlite` fills a relational catalog: tables with their columns, operators, routines, and the boolean, integer, internal and array types.
- **Device-under-test adapter.** `dut_clickhouse` or `dut_sqlite` runs one statement and reports whether it passed, was rejected as a syntax error, or failed.

The engine client libraries are not modelled; they become inputs:

- A ClickHouse server is a function from query text to its result rows or to the server error the client throws.
- A SQLite engine is the outcome of opening the database, plus a function from statement text to what `sqlite3_exec` does with it: the rows it passes to the callback, then the result code and the error message.

Every catalog stage is modelled twice:

- **State in place.** The C++ code's own stages are methods on a `SchemaClickHouse` or `SchemaSqlite` object. They append to the `tables`, `operators`, `types` and `routines` sequences in their loops.
- **Specification.** The expected result is a function of the engine's replies.

Each method is proved against its function. Lemmas then prove the properties of those functions: layout, counts, order, error propagation and well-formedness.

Files:

- `relmodel.dfy`: the catalog entities (table, column, operator, routine), `Option`/`Result`, and the row field accessor. A type is represented by the name it is interned under.
- `dut.dfy`: the three test outcomes.
- `clickhouse_options.dfy`: the connection-string parser `info_parser`:
  - the white-space tokenizer of `operator>>`;
  - the option pattern as an explicit predicate;
  - the token loop.
- `clickhouse.dfy`: `startsWith`, table discovery, operator and routine registration, the `schema_clickhouse` constructor, `quote_name`, and `dut_clickhouse::test`.
- `clickhouse_properties.dfy`: properties of what `schema_clickhouse` builds.
- `sqlite.dfy`: the callbacks, the two-pass load, the `BINOP`/`FUNC` registrations, handle closing, and the `dut_sqlite::test` classification.
- `sqlite_properties.dfy`: properties of what `schema_sqlite` builds and of the test classification.

The names `integerTypes`, `numOps` and `stringOps` are defined in a header that is not part of this model. They are parameters here.

## Model

| member | source | states |
|---|---|---|
| ClickHouseOptions.TokensAreTokens | clickhouse.cc:29-32 | every token `operator>>` extracts is non-empty and free of white space |
| ClickHouseOptions.TokensOfJoin | clickhouse.cc:29-32 | tokenizing blank-joined tokens gives those tokens back (round trip) |
| ClickHouseOptions.MatchKey | clickhouse.cc:27 | a match for one key alternative is the bare key with empty value, or `key=value` |
| ClickHouseOptions.MatchFrom | clickhouse.cc:27 | a match returns one of the listed keys, and that key's own match |
| ClickHouseOptions.MatchOption | clickhouse.cc:35-36 | whatever the pattern captures is a full match of the token: a known key, then optionally `=` and a value without `\r` |
| ClickHouseOptions.FullMatchUnique | clickhouse.cc:27 | no token fully matches with two different (key, value) pairs |
| ClickHouseOptions.MatchOptionComplete | clickhouse.cc:27 | every full match of the pattern is found, with its key and value (completeness, the converse of MatchOption) |
| ClickHouseOptions.MatchExamplesAccepted | clickhouse.cc:27 | `pass=a=b` sets `pass` to `a=b`; `db` alone sets `db` to the empty string |
| ClickHouseOptions.MatchExamplesRejected | clickhouse.cc:27 | `username=x` and `dbx` are rejected |
| ClickHouseOptions.ParseOptions | clickhouse.cc:22-42 | the constructor's token loop yields exactly the specified parse: the final map, or the token it stops at |
| ClickHouseOptions.ParseBlank | clickhouse.cc:22-25 | an empty or all-blank string gives exactly `{user: default, pass: "", db: db}`, with no host or port |
| ClickHouseOptions.ApplySucceedsIff | clickhouse.cc:32-40 | the update loop succeeds iff every token matches the pattern |
| ClickHouseOptions.ParseSucceedsIff | clickhouse.cc:32-40 | a parse succeeds iff every whitespace-separated token matches |
| ClickHouseOptions.ApplyStopsAt | clickhouse.cc:35-40 | the loop fails naming the first token that does not match |
| ClickHouseOptions.ApplyFailureAt | clickhouse.cc:35-40 | a failing loop names a token that is the first unmatched one |
| ClickHouseOptions.ParseFailsAtFirstUnmatched | clickhouse.cc:32-40 | parsing fails exactly at the first unmatched token, and every failure is of that form |
| ClickHouseOptions.ApplyLastValue | clickhouse.cc:32-36 | after the loop a key holds the value of the last token that set it, else its prior value |
| ClickHouseOptions.ParseLastValueWins | clickhouse.cc:22-36 | a repeated key takes its last value and overrides a default; an unset key keeps its default or is absent |
| ClickHouseOptions.ApplyFour | clickhouse.cc:32-36 | four matching tokens update their keys in order |
| ClickHouseOptions.ParseFour | clickhouse.cc:29-36 | four matching tokens joined by blanks parse to the defaults updated by each in turn |
| ClickHouseOptions.OptionToken | clickhouse.cc:27-36 | a known key, `=` and a value without blanks or line breaks is one token that matches as that key and value |
| ClickHouseOptions.ParseExampleFull | clickhouse.cc:22-41 | `host=localhost port=9000 user=default pass=` sets all four keys and leaves `db` at `db` |
| ClickHouseOptions.ParseExampleUnknownKey | clickhouse.cc:37-40 | `host=localhost foo=bar` fails naming `foo=bar` |
| ClickHouse.StartsWith | clickhouse.cc:93-99 | true iff `b` is no longer than `a` and is a prefix of it (so true for `""`, false when `b` is longer) |
| ClickHouse.DescribeAllStep | clickhouse.cc:123-125 | describing one more name appends its table, or fails with that query's error |
| ClickHouse.DescribeAllPrefixErr | clickhouse.cc:123-125 | a failure on a prefix of the names is the failure of the whole load |
| ClickHouse.SchemaClickHouse.constructor | clickhouse.cc:44-50 | a connected adapter holds its parsed options and an empty catalog |
| ClickHouse.SchemaClickHouse.InitTypes | clickhouse.cc:68-77 | bool is `UInt8`, int is `UInt64`, internal is `internal`, array is `Array` |
| ClickHouse.SchemaClickHouse.GetTableList | clickhouse.cc:79-91 | `show tables in <db>` gives the first field of every row in order, or the server's error |
| ClickHouse.SchemaClickHouse.DescribeTable | clickhouse.cc:101-116 | appends exactly one table `(name, db, insertable, not base)` holding the row-ordered `Array` columns of `describe db.name`; earlier tables unchanged; on error the table stays, without columns |
| ClickHouse.SchemaClickHouse.InitTables | clickhouse.cc:118-128 | appends one described table per listed name, in list order, or reports the first error |
| ClickHouse.SchemaClickHouse.AddOperators | clickhouse.cc:130-140 | appends one operator per name with the given signature, in order |
| ClickHouse.SchemaClickHouse.AddTypeOperators | clickhouse.cc:145-150 | appends the numeric operators `(t,t,t)` of a type, then `like`, `not like` and `ilike` as `(t,t,UInt8)` |
| ClickHouse.SchemaClickHouse.InitOperators | clickhouse.cc:142-161 | appends every integer type's operators, then the string operators, and the types `String`, `Array` and the integer types |
| ClickHouse.SchemaClickHouse.AddTypes | clickhouse.cc:154-158 | appends `String`, `Array`, then the integer types in order |
| ClickHouse.SchemaClickHouse.AddRoutine | clickhouse.cc:163-174 | appends one routine with empty schema, specific name = name, and the argument types in order |
| ClickHouse.SchemaClickHouse.AddIntegerRoutines | clickhouse.cc:180-191 | appends the twelve routines of one integer type in their listed order |
| ClickHouse.SchemaClickHouse.AddStringRoutines | clickhouse.cc:194-202 | appends the nine string routines in their listed order |
| ClickHouse.SchemaClickHouse.InitRoutines | clickhouse.cc:176-205 | appends twelve routines per integer type, in type order, then the nine string routines |
| ClickHouse.SchemaClickHouse.InitBuiltins | clickhouse.cc:235-237 | operators, types and routines are exactly the specified registries; aggregates stay empty |
| ClickHouse.SchemaClickHouse.Load | clickhouse.cc:232-238 | the stages in order: it fails iff table discovery fails, with its error; otherwise it produces the whole specified catalog |
| ClickHouse.NewSchemaClickHouse | clickhouse.cc:232-242 | construction fails with the parse error, `stoi`'s error on a port with no leading number, the client's refusal or the first server error; otherwise it yields the specified catalog |
| ClickHouse.QuoteName | clickhouse.hh:37-39 | the result has length `|id|+2`, a single quote at both ends, and exactly `id` between them |
| ClickHouse.CheckAliveness | clickhouse.cc:60-66 | passes iff the ping succeeds, else a failure `ping failed` |
| ClickHouse.Test | clickhouse.cc:246-249 | the outcome depends on the ping alone; an execution error never changes it |
| ClickHouseProperties.OperatorsForTypeAt | clickhouse.cc:145-150 | a type's block has `|numOps|+3` operators: the numeric ones `(t,t,t)`, then the three pattern operators `(t,t,UInt8)` |
| ClickHouseProperties.IntegerOperatorsLength | clickhouse.cc:145-150 | there are `|integerTypes| * (|numOps|+3)` integer operators |
| ClickHouseProperties.IntegerOperatorsAt | clickhouse.cc:145-150 | block `i` of the integer operators is the block of the `i`-th integer type |
| ClickHouseProperties.ClickHouseOperatorsLayout | clickhouse.cc:142-152 | the operator registry is the integer blocks in type order, then one `(String,String,UInt8)` operator per string name |
| ClickHouseProperties.IntegerOperatorsTyped | clickhouse.cc:145-150 | every integer operator has equal operand types, an integer type, and a result of that type or `UInt8` |
| ClickHouseProperties.ClickHouseOperatorsTyped | clickhouse.cc:142-158 | every operator works on one registered type, with a result of that type or `UInt8` |
| ClickHouseProperties.IntegerRoutinesLength | clickhouse.cc:179-192 | there are twelve routines per integer type |
| ClickHouseProperties.IntegerRoutinesAt | clickhouse.cc:179-192 | routine `12*i+k` is the `k`-th routine of the `i`-th integer type |
| ClickHouseProperties.ClickHouseRoutinesLayout | clickhouse.cc:176-205 | the routine registry is `12*|integerTypes| + 9` routines, the integer blocks in type order, then the string routines |
| ClickHouseProperties.IntegerRoutinesWellFormed | clickhouse.cc:163-192 | each integer routine has an empty schema, specific name = name, one or two arguments of integer types |
| ClickHouseProperties.ClickHouseRoutinesWellFormed | clickhouse.cc:163-205 | every routine has an empty schema, specific name = name, and one or two arguments of registered types |
| ClickHouseProperties.ArrayColumnsAppend | clickhouse.cc:106-115 | the columns kept from two row batches are those of each batch, concatenated |
| ClickHouseProperties.ArrayColumnsMember | clickhouse.cc:106-115 | a column is kept iff some row names it with a type starting with `Array`; it is then typed `Array` |
| ClickHouseProperties.ArrayColumnsLength | clickhouse.cc:106-115 | at most one column per row: all rows are kept when all are arrays, none when none are |
| ClickHouseProperties.DescribeAllOk | clickhouse.cc:121-125 | describing names succeeds iff every `describe` succeeds; it then gives one table per name, in order |
| ClickHouseProperties.DescribeAllErr | clickhouse.cc:121-125 | a failed load reports the error of the first failing `describe` |
| ClickHouseProperties.LoadedTablesOk | clickhouse.cc:118-128 | one table per listed row, in row order, named by the first field; an empty listing gives no tables and no error |
| ClickHouseProperties.NoPortRefused | clickhouse.cc:44-48 | a configuration that parses but names no port builds no catalog: the absent port reads as empty and `stoi` fails on it |
| ClickHouseProperties.BlankConfigurationRefused | clickhouse.cc:44-48 | an empty or all-blank configuration builds no catalog, failing in `stoi` |
| ClickHouseProperties.CatalogConsistent | clickhouse.cc:232-238 | a loaded catalog's tables live in the configured database, insertable and not base, with `Array` columns; operand and argument types of operators and routines are registered; no aggregates |
| ClickHouseProperties.QuoteNameInjective | clickhouse.hh:37-39 | equal quoted names come from equal identifiers (quotes are not escaped) |
| Sqlite.WithColumnsStep | sqlite.cc:81-92 | one more `table_info` query completes the next table, or fails with its message |
| Sqlite.WithColumnsPrefixErr | sqlite.cc:86-91 | once a query fails, the whole second pass fails with that message |
| Sqlite.ColumnsAdvance | sqlite.cc:81-92 | one iteration: the next table is the one queried; success completes it in place, failure decides the pass |
| Sqlite.SchemaSqlite.constructor | sqlite.cc:58 | a new adapter has no handle, no closes and an empty catalog |
| Sqlite.SchemaSqlite.Open | sqlite.cc:60-63 | the handle is set even when the open fails; a failed open reports its message |
| Sqlite.SchemaSqlite.TableCallback | sqlite.cc:41-47 | appends one table named by the row's third field, schema `main`, insertable and base; returns 0 |
| Sqlite.SchemaSqlite.ColumnCallback | sqlite.cc:49-56 | appends the column (second field, third field) to the bound table only; returns 0 |
| Sqlite.SchemaSqlite.LoadTables | sqlite.cc:70-75 | appends one table per `sqlite_master` row in row order; fails with the query's message on a non-OK code |
| Sqlite.SchemaSqlite.ReadColumns | sqlite.cc:86 | one `table_info` query appends its columns in row order to the bound table, and changes no other table |
| Sqlite.SchemaSqlite.LoadColumns | sqlite.cc:81-92 | the second pass gives exactly the specified tables, or fails with the first failing query's message |
| Sqlite.SchemaSqlite.RegisterBinOp | sqlite.cc:96 | `BINOP(n,t)` appends the operator `(t,t,t)` |
| Sqlite.SchemaSqlite.RegisterArithmetic | sqlite.cc:98-109 | appends `||` on TEXT, then the eight arithmetic and bitwise INTEGER operators, in order |
| Sqlite.SchemaSqlite.RegisterComparison | sqlite.cc:111-122 | appends the ten comparison and logical INTEGER operators, in order |
| Sqlite.SchemaSqlite.RegisterOperators | sqlite.cc:96-122 | appends the nineteen `BINOP` operators in order |
| Sqlite.SchemaSqlite.RegisterFunc | sqlite.cc:126-150 | appends a routine with empty schema and specific name, and the argument types in order |
| Sqlite.SchemaSqlite.RegisterNullary | sqlite.cc:152-156 | appends the five `FUNC` routines in order |
| Sqlite.SchemaSqlite.RegisterUnaryFirst | sqlite.cc:158-167 | appends the first ten `FUNC1` routines in order |
| Sqlite.SchemaSqlite.RegisterUnarySecond | sqlite.cc:168-177 | appends the last ten `FUNC1` routines in order |
| Sqlite.SchemaSqlite.RegisterUnary | sqlite.cc:158-177 | appends the twenty `FUNC1` routines in order |
| Sqlite.SchemaSqlite.RegisterBinary | sqlite.cc:179-186 | appends the eight `FUNC2` routines in order |
| Sqlite.SchemaSqlite.RegisterTernary | sqlite.cc:188-189 | appends the two `FUNC3` routines in order |
| Sqlite.SchemaSqlite.RegisterRoutines | sqlite.cc:152-189 | appends the thirty-five routines in order |
| Sqlite.SchemaSqlite.InitTypes | sqlite.cc:192-199 | bool and int are `INTEGER`, internal is `internal`, array is `ARRAY`, literals are `1` and `0` |
| Sqlite.SchemaSqlite.Close | sqlite.cc:204-205 | the handle is closed once more and cleared |
| Sqlite.SchemaSqlite.Destroy | sqlite.cc:218-222 | the destructor closes the handle only when it is still set |
| Sqlite.SchemaSqlite.LoadAllTables | sqlite.cc:70-92 | both passes give exactly the specified tables, or the first failing query's message |
| Sqlite.SchemaSqlite.Complete | sqlite.cc:96-205 | the fixed part: the operator and routine registries, the type and literal choices, then one close |
| Sqlite.SchemaSqlite.LoadOpened | sqlite.cc:68-205 | after an open: the specified catalog and one close, or the error with the handle still open |
| Sqlite.SchemaSqlite.Load | sqlite.cc:58-206 | construction fails iff the open or a catalog query fails, with its message and the handle left open; otherwise it gives the specified catalog, closed once |
| Sqlite.NewSchemaSqlite | sqlite.cc:58-206 | a fresh adapter with the specified catalog and a closed handle, or the message the constructor raises |
| Sqlite.HandleCloses | sqlite.cc:204-222 | construction then destruction closes the handle once after a successful load, and never after a failed one |
| Sqlite.HandleClosesReleasing | sqlite.cc:218-222 | with the handle released on the raising paths, every construction closes it exactly once |
| Sqlite.SyntaxErrorShape | sqlite.cc:17 | a syntax message starts with `near "`, ends with `": syntax error`, and has no line terminator between |
| Sqlite.MatchesSyntax | sqlite.cc:17 | the full match of `near ".*": syntax error` holds iff the message is prefix, single-line middle, suffix |
| Sqlite.Outcome | sqlite.cc:240-253 | passes iff the code is OK or the message is exactly the user abort; syntax iff non-OK and a syntax message; failure otherwise; the message is carried verbatim |
| Sqlite.DutSqlite.constructor | sqlite.cc:224-230 | a new adapter holds an open handle and the open's result code |
| Sqlite.DutSqlite.Test | sqlite.cc:238-254 | executes the statement, keeps its result code, and returns its classified outcome |
| Sqlite.NewDutSqlite | sqlite.cc:224-230 | the open fails iff its code is non-OK, raising its message; otherwise the adapter holds an open handle |
| SqliteProperties.WithColumnsOk | sqlite.cc:81-92 | the second pass succeeds iff every `table_info` query succeeds; each table keeps its place and gets exactly its own rows' columns |
| SqliteProperties.WithColumnsErr | sqlite.cc:86-91 | a failing second pass reports the message of the first failing query |
| SqliteProperties.LoadedTablesOk | sqlite.cc:41-92 | one table per `sqlite_master` row in row order: named by the third field, `main`, insertable, base, with its own columns; zero rows give no tables |
| SqliteProperties.LoadedTablesErr | sqlite.cc:70-91 | a failed load raises the message of the `sqlite_master` query or of the first failing `table_info` query |
| SqliteProperties.SqliteCatalogOk | sqlite.cc:58-199 | a catalog exists iff the open and every catalog query succeed; booleans and integers are `INTEGER`, the literals are `1` and `0`, every table is `main`, insertable and base |
| SqliteProperties.SqliteOperatorsFacts | sqlite.cc:96-122 | nineteen operators, left = right = result: TEXT for `||`, INTEGER for the rest |
| SqliteProperties.NullaryGroup | sqlite.cc:152-156 | five routines without arguments |
| SqliteProperties.UnaryGroup | sqlite.cc:158-177 | twenty routines with one argument |
| SqliteProperties.BinaryGroup | sqlite.cc:179-186 | eight routines with two arguments |
| SqliteProperties.TernaryGroup | sqlite.cc:188-189 | two routines with three arguments |
| SqliteProperties.SqliteRoutinesFacts | sqlite.cc:126-189 | thirty-five routines: 5 nullary, 20 unary, 8 binary, 2 ternary, in that order, each with an empty schema and specific name |
| SqliteProperties.SyntaxErrorOf | sqlite.cc:17 | any single-line middle between the prefix and the suffix is a syntax error, and classified as one |
| SqliteProperties.MultiLineIsFailure | sqlite.cc:17 | a line terminator in the middle keeps a message from being a syntax error |
| SqliteProperties.OtherMessagesFail | sqlite.cc:240-248 | a non-OK result whose message does not start with `n` and is not the user abort is a failure |

## Left out

- The clickhouse-cpp client and the sqlite3 C library are foreign code. Their replies are inputs:
  - a server is a function from query text to rows or a server error;
  - an engine is the open's code and message plus a function from statement text to rows, code and message;
  - the ping result is a boolean.
- ClickHouse.NewSchemaClickHouse: the port's conversion is modelled only as far as `stoi` throwing `std::invalid_argument` on a value with no leading number. A port out of `int` range, and the client's own construction, are one input, `refusal`, which is the error they raise or none. It does not model that `operator[]` inserts empty `host` and `port` entries into the option map when they are absent; a missing entry reads as empty.
- ClickHouse.SchemaClickHouse.DescribeTable: a `Response` is either all rows or an error, so a server error after some data blocks were delivered is not modelled; the source would already have appended those blocks' `Array` columns when the error is raised.
- ClickHouse.Query: `clickhouse_connection::query` catches and drops every execution error. Its only visible effect is the printed server error, so it has no contract; `ClickHouse.Test` states that the outcome does not depend on the execution.
- ClickHouse.SchemaClickHouse.Load: `generate_indexes` and `printInfo` are not modelled. Indexes are built from headers that are not part of this model, and `printInfo` only prints.
- ClickHouse.SchemaClickHouse.InitAggregates registers nothing and has no contract. `InitBuiltins` and `Load` state that the aggregates stay empty.
- Sqlite.SchemaSqlite.Complete: `generate_indexes` is not modelled.
- RelModel.Field: a missing field of a result row reads as the empty string. In the source, the catalog queries always deliver the fields that are read, and a missing one would be undefined behaviour.
- Sqlite.SchemaSqlite.ColumnCallback: `column_callback` is bound to the table by its address. The model binds it by the table's index in `tables`, which is the same object, because no table is added during the second pass.
- Sqlite.Outcome: only the standard `<regex>` branch is modelled. In the Boost branch, `.` also matches line terminators. Characters are bytes in the source; the pattern's `.` excludes only `\n` and `\r`, which is what the model checks.
- The SQLite busy handler is not modelled, because it throws on a lock timeout. Neither are the printing `callback` and `q`, or the logging to `cerr`/`cout`, which are I/O only.
- `exit(EXIT_FAILURE)` in `info_parser` is modelled as a failure result. Its message is `Cannot parse option: <token>`.
- Freeing `zErrMsg` is not modelled, including the message left unfreed on the user-abort path. This is memory management only.
- The ClickHouse catalog does not set the true and false literals; the SQLite catalog does. Each model holds exactly the fields its constructor sets.
- Both constructors raise errors as C++ exceptions; the model returns them as `Result` values.
- The shared `schema` base class is not part of this model, nor are the registries' own functions `register_operator`, `register_routine` and `sqltype::get`. Registries are modelled as append-only sequences, and types by their names.

## Findings

| source | as written | input that shows it | evidently intended | confidence | as-written member | corrected member |
|---|---|---|---|---|---|---|
| sqlite.cc:60-91 | Every failure after `sqlite3_open_v2` raises from the constructor with `db` still set. The destructor of an object whose constructor raises never runs, so `sqlite3_close` is never called on those paths. | An engine whose open fails with a non-zero code. Or one whose `sqlite_master` query or any `table_info` query returns a non-OK code. | The null check in `~schema_sqlite` shows the handle is meant to be closed exactly once on every path. | medium, not executed | Sqlite.HandleCloses | Sqlite.HandleClosesReleasing |
