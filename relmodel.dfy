/**
 The shared, engine-agnostic catalog model that both adapters fill in.

 A SQL type is an interned, name-keyed object (`sqltype::get(name)` returns the
 same object for the same name), so a type is represented here by its name:
 two types are the same registry entry exactly when their names are equal.
 */
module RelModel {

  datatype Option<+T> = None | Some(value: T)

  datatype Result<+R, +E> = Ok(value: R) | Err(error: E)

  /** A type, identified by the name it is interned under. */
  type SqlType = string

  /** One result row of an engine query: its fields as text. */
  type Row = seq<string>

  /**
   Field `i` of a row. The catalog queries always deliver the fields the
   adapters read; a field a row lacks reads as empty.
   */
  function Field(row: Row, i: nat): string
  {
    if i < |row| then row[i] else ""
  }

  datatype Column = Column(name: string, typ: SqlType)

  datatype Table = Table(
    name: string,
    schema: string,
    isInsertable: bool,
    isBaseTable: bool,
    columns: seq<Column>)

  /** One concrete overload of a binary operator. */
  datatype Op = Op(name: string, left: SqlType, right: SqlType, result: SqlType)

  datatype Routine = Routine(
    schema: string,
    specificName: string,
    restype: SqlType,
    name: string,
    argtypes: seq<SqlType>)
}
