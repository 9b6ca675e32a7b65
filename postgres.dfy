/**
 * The canned Postgres transactions of lib/operations/transactions/Postgres.js. Each takes
 * the driver's `(err, response)` as a reply; the connection itself is not modelled.
 */
module PostgresTransactions {
  import opened Js
  import opened Staging
  import opened Schema
  import opened Context

  /** `SELECT count(*) FROM <table>`. */
  function RowCountQuery(tblName: string): string {
    "SELECT count(*) FROM " + tblName
  }

  /** `SELECT * FROM <table>`. */
  function SelectAllQuery(tblName: string): string {
    "SELECT * FROM " + tblName
  }

  /** The column-metadata query of `tableSpec` (note the two spaces after `is_nullable`). */
  const TableSpecHead: string :=
    "SELECT ordinal_position, column_name, data_type, udt_name, character_maximum_length, "
    + "numeric_precision, numeric_scale, datetime_precision, is_nullable  "
    + "FROM information_schema.columns WHERE table_name='"

  function TableSpecQuery(tblName: string): string {
    TableSpecHead + tblName + "'\n"
  }

  /** A driver reply relayed as a promise: rejected with the error, or resolved with the response. */
  function Relay<T>(reply: Res<T>): (r: Settled<T>)
    ensures r.Resolved? <==> reply.Ok?
    ensures reply.Ok? ==> r.value == reply.value
    ensures reply.Err? ==> r == Rejected(reply.error)
  {
    match reply
    case Ok(v) => Resolved(v)
    case Err(e) => Rejected(e)
  }

  /**
   * `tableRowCount`: count the table's rows and resolve with the first row's `count`
   * (the Postgres driver hands a count over as text); reject with the driver's error.
   */
  function TableRowCount(tblName: string, reply: Res<string>): (t: Transaction<string>)
    ensures t.sql == RowCountQuery(tblName)
    ensures t.settled.Resolved? <==> reply.Ok?
    ensures reply.Ok? ==> t.settled.value == reply.value
    ensures reply.Err? ==> t.settled == Rejected(reply.error)
  {
    Transaction(RowCountQuery(tblName), Relay(reply))
  }

  /** `tableSpec`: the metadata rows of the source table, or the driver's error. */
  function TableSpec(tblName: string, reply: Res<seq<ColumnMeta>>): (t: Transaction<seq<ColumnMeta>>)
    ensures t.sql == TableSpecQuery(tblName)
    ensures t.settled.Resolved? <==> reply.Ok?
    ensures reply.Ok? ==> t.settled.value == reply.value
    ensures reply.Err? ==> t.settled == Rejected(reply.error)
  {
    Transaction(TableSpecQuery(tblName), Relay(reply))
  }

  /** The metadata query names one table: different tables give different queries. */
  lemma TableSpecQueryNamesOneTable(a: string, b: string)
    ensures TableSpecQuery(a) == TableSpecQuery(b) ==> a == b
  {
    if TableSpecQuery(a) == TableSpecQuery(b) {
      var n := |TableSpecHead|;
      assert a == TableSpecQuery(a)[n..n + |a|];
      assert b == TableSpecQuery(b)[n..n + |b|];
    }
  }

  /**
   * `cacheTable`: read the whole source table, stage every result row in memory and
   * record the size estimate. Only `data` and `tableSizeInCharacters` change, and only
   * when the query succeeds.
   */
  method CacheTable(op: Operation, reply: Res<seq<Row>>, dateText: int -> string, stringify: seq<Row> -> string)
    returns (sql: string, settled: Settled<()>)
    modifies op`data, op`tableSizeInCharacters
    ensures sql == SelectAllQuery(Text(op.sourceDb.tblName))
    ensures settled.Resolved? <==> reply.Ok?
    ensures reply.Err? ==> settled == Rejected(reply.error)
    ensures reply.Err? ==> op.data == old(op.data) && op.tableSizeInCharacters == old(op.tableSizeInCharacters)
    ensures reply.Ok? ==> op.data == Some(StagedTable(reply.value, dateText))
    ensures reply.Ok? ==> op.tableSizeInCharacters == Some(TableSize(reply.value, stringify))
  {
    sql := SelectAllQuery(Text(op.sourceDb.tblName));
    match reply
    case Err(e) =>
      settled := Rejected(e);
    case Ok(rows) =>
      var tableData := StageRows(rows, dateText);
      op.data := Some(tableData);
      op.tableSizeInCharacters := Some(TableSize(rows, stringify));
      settled := Resolved(());
  }
}
