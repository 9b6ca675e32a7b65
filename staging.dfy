/**
 * The in-memory staging buffer: every result row of `SELECT * FROM <table>` becomes an
 * array of its column values, with dates and booleans turned into text so that they fit
 * the destination's string-typed columns. The same loop appears in
 * lib/operations/postgresToOracle.js (copySourceDataIntoMemory) and
 * lib/operations/transactions/Postgres.js (cacheTable); it is defined once here.
 */
module Staging {

  /** A column value as the Postgres driver hands it over. */
  datatype Value = Null | DateV(epochMs: int) | BoolV(b: bool) | TextV(s: string) | NumberV(n: int)

  /** One property of a result-row object: column name and value. */
  datatype Field = Field(key: string, value: Value)

  /** A result-row object, its properties in key-iteration order. */
  type Row = seq<Field>

  /** A staged row: the values alone, in the same order. */
  type BufferRow = seq<Value>

  /** `Boolean.prototype.toString`. */
  function BoolText(b: bool): string {
    if b then "true" else "false"
  }

  /**
   * The normalisation rule: null stays null, a Date or a Boolean becomes its `toString()`
   * (for dates the text is supplied by `dateText`), anything else is copied unchanged.
   */
  function Normalised(v: Value, dateText: int -> string): (r: Value)
    ensures r.Null? <==> v.Null?
    ensures !r.DateV? && !r.BoolV?
    ensures v.DateV? ==> r == TextV(dateText(v.epochMs))
    ensures v.BoolV? ==> r == TextV(BoolText(v.b))
    ensures !v.DateV? && !v.BoolV? ==> r == v
  {
    match v
    case DateV(ms) => TextV(dateText(ms))
    case BoolV(b) => TextV(BoolText(b))
    case _ => v
  }

  /** The staged form of one result row: one entry per property, in key order. */
  function StagedRow(row: Row, dateText: int -> string): (r: BufferRow)
    ensures |r| == |row|
    ensures forall j :: 0 <= j < |row| ==> r[j] == Normalised(row[j].value, dateText)
  {
    if row == [] then []
    else StagedRow(row[..|row| - 1], dateText) + [Normalised(row[|row| - 1].value, dateText)]
  }

  /** The staged form of a result set: one buffer row per result row, in result order. */
  function StagedTable(rows: seq<Row>, dateText: int -> string): (r: seq<BufferRow>)
    ensures |r| == |rows|
    ensures forall i :: 0 <= i < |rows| ==> r[i] == StagedRow(rows[i], dateText)
  {
    if rows == [] then []
    else StagedTable(rows[..|rows| - 1], dateText) + [StagedRow(rows[|rows| - 1], dateText)]
  }

  /**
   * The nested copy loop: for every result row, push each property's normalised value
   * into `rowData`, then push `rowData` into `tableData`.
   */
  method StageRows(rows: seq<Row>, dateText: int -> string) returns (tableData: seq<BufferRow>)
    ensures tableData == StagedTable(rows, dateText)
    ensures |tableData| == |rows|
    ensures forall i, j :: 0 <= i < |rows| && 0 <= j < |rows[i]| ==>
              |tableData[i]| == |rows[i]| && tableData[i][j] == Normalised(rows[i][j].value, dateText)
  {
    tableData := [];
    var i := 0;
    while i < |rows|
      invariant 0 <= i <= |rows|
      invariant tableData == StagedTable(rows[..i], dateText)
    {
      var rowData: BufferRow := [];
      var j := 0;
      while j < |rows[i]|
        invariant 0 <= j <= |rows[i]|
        invariant rowData == StagedRow(rows[i][..j], dateText)
      {
        var v := rows[i][j].value;
        if v.Null? {
          rowData := rowData + [v];
        } else if v.DateV? {
          rowData := rowData + [TextV(dateText(v.epochMs))];
        } else if v.BoolV? {
          rowData := rowData + [TextV(BoolText(v.b))];
        } else {
          rowData := rowData + [v];
        }
        assert rows[i][..j + 1][..j] == rows[i][..j];
        j := j + 1;
      }
      assert rows[i][..j] == rows[i];
      assert rows[..i + 1][..i] == rows[..i];
      tableData := tableData + [rowData];
      i := i + 1;
    }
    assert rows[..i] == rows;
  }

  /**
   * `tableSizeInCharacters`: the length of the JSON text of the raw (un-normalised) rows,
   * minus the two brackets of the array. `stringify` stands for `JSON.stringify`.
   */
  function TableSize(rows: seq<Row>, stringify: seq<Row> -> string): int {
    |stringify(rows)| - 2
  }
}
