/**
 * The schema translator of lib/operations/postgresToOracle.js (PART 1, lines 82-117):
 * from the source table's `information_schema.columns` rows it builds the Oracle
 * `CREATE TABLE` statement and the positional `INSERT ... VALUES( :a, :b )` template,
 * using a fixed six-entry type table. Rows of any other type are silently skipped.
 */
module Schema {
  import opened Js

  /** One row of the column-metadata query; lengths are numbers or `null`. */
  datatype ColumnMeta = ColumnMeta(
    ordinalPosition: nat,
    columnName: string,
    dataType: string,
    udtName: string,
    characterMaximumLength: JsValue,
    numericPrecision: JsValue,
    numericScale: JsValue,
    datetimePrecision: JsValue,
    isNullable: string)

  const MetadataHead: string :=
    "SELECT ordinal_position, column_name, data_type, udt_name, character_maximum_length, "
    + "numeric_precision, numeric_scale, datetime_precision, is_nullable "
    + "FROM information_schema.columns WHERE table_name='"

  /** The metadata query sent to the source for table `table`. */
  function MetadataQuery(table: string): string {
    MetadataHead + table + "'\n"
  }

  /** The Postgres type names the translator knows. */
  const SupportedTypes: set<string> := {"varchar", "numeric", "int4", "timestamp", "bool", "text"}

  /**
   * The fixed type table of the translator: the Oracle column type for a metadata row,
   * or `None` when its type is not one of the six known ones.
   */
  function OracleType(c: ColumnMeta): (t: Option<string>)
    ensures t.Some? <==> c.udtName in SupportedTypes
  {
    if c.udtName == "varchar" then Some("VARCHAR2(" + Text(c.characterMaximumLength) + " BYTE)")
    else if c.udtName == "numeric" then Some("NUMBER(" + Text(c.numericPrecision) + "," + Text(c.numericScale) + ")")
    else if c.udtName == "int4" then Some("INTEGER")
    else if c.udtName == "timestamp" then Some("VARCHAR2(50 BYTE)")
    else if c.udtName == "bool" then Some("VARCHAR2(5 BYTE)")
    else if c.udtName == "text" then Some("VARCHAR2(4000 BYTE)")
    else None
  }

  /**
   * A type table: the Oracle type a metadata row is given, or `None` when the row is
   * skipped. The layout rules below hold for any table; the translator uses `OracleType`.
   */
  type TypeTable = ColumnMeta -> Option<string>

  predicate Mapped(table: TypeTable, c: ColumnMeta) {
    table(c).Some?
  }

  /** `smartComma`: empty for the last METADATA row (not the last mapped one), a comma otherwise. */
  function Separator(last: bool): string {
    if last then "" else ","
  }

  /** What row `i` adds to the column list of the `CREATE TABLE` text. */
  function Clause(table: TypeTable, rows: seq<ColumnMeta>, i: nat): string
    requires i < |rows|
  {
    match table(rows[i])
    case None => ""
    case Some(t) => "\t" + rows[i].columnName + " " + t + Separator(i == |rows| - 1) + "\n"
  }

  /** What row `i` adds to the `VALUES(` list of the insert template. */
  function Placeholder(table: TypeTable, rows: seq<ColumnMeta>, i: nat): string
    requires i < |rows|
  {
    if Mapped(table, rows[i]) then " :" + rows[i].columnName + Separator(i == |rows| - 1) else ""
  }

  /** The column list after the loop has seen the first `k` rows. */
  function ColumnsUpTo(table: TypeTable, rows: seq<ColumnMeta>, k: nat): string
    requires k <= |rows|
  {
    if k == 0 then "" else ColumnsUpTo(table, rows, k - 1) + Clause(table, rows, k - 1)
  }

  /** The placeholder list after the loop has seen the first `k` rows. */
  function PlaceholdersUpTo(table: TypeTable, rows: seq<ColumnMeta>, k: nat): string
    requires k <= |rows|
  {
    if k == 0 then "" else PlaceholdersUpTo(table, rows, k - 1) + Placeholder(table, rows, k - 1)
  }

  function CreateTableText(table: TypeTable, dest: string, rows: seq<ColumnMeta>): string {
    "CREATE TABLE " + dest + " (\n" + ColumnsUpTo(table, rows, |rows|) + ")\n"
  }

  function InsertText(table: TypeTable, dest: string, rows: seq<ColumnMeta>): string {
    "INSERT INTO " + dest + " VALUES(" + PlaceholdersUpTo(table, rows, |rows|) + " )"
  }

  lemma Regroup(head: string, acc: string, piece: string)
    ensures head + acc + piece == head + (acc + piece)
  {
  }

  /**
   * One pass of the translation loop: six independent tests of `udt_name`, each of which,
   * when it matches, appends the row's column clause and its placeholder.
   */
  method TranslateRow(createTblString: string, insertString: string, rows: seq<ColumnMeta>, i: nat)
    returns (ddl: string, ins: string)
    requires i < |rows|
    ensures ddl == createTblString + Clause(OracleType, rows, i)
    ensures ins == insertString + Placeholder(OracleType, rows, i)
  {
    var smartComma := if |rows| - 1 == i then "" else ",";
    var c := rows[i];
    ddl, ins := createTblString, insertString;
    if c.udtName == "varchar" {
      var t := "VARCHAR2(" + Text(c.characterMaximumLength) + " BYTE)";
      ddl := ddl + ("\t" + c.columnName + " " + t + smartComma + "\n");
      ins := ins + (" :" + c.columnName + smartComma);
    }
    if c.udtName == "numeric" {
      var t := "NUMBER(" + Text(c.numericPrecision) + "," + Text(c.numericScale) + ")";
      ddl := ddl + ("\t" + c.columnName + " " + t + smartComma + "\n");
      ins := ins + (" :" + c.columnName + smartComma);
    }
    if c.udtName == "int4" {
      ddl := ddl + ("\t" + c.columnName + " " + "INTEGER" + smartComma + "\n");
      ins := ins + (" :" + c.columnName + smartComma);
    }
    if c.udtName == "timestamp" {
      ddl := ddl + ("\t" + c.columnName + " " + "VARCHAR2(50 BYTE)" + smartComma + "\n");
      ins := ins + (" :" + c.columnName + smartComma);
    }
    if c.udtName == "bool" {
      ddl := ddl + ("\t" + c.columnName + " " + "VARCHAR2(5 BYTE)" + smartComma + "\n");
      ins := ins + (" :" + c.columnName + smartComma);
    }
    if c.udtName == "text" {
      ddl := ddl + ("\t" + c.columnName + " " + "VARCHAR2(4000 BYTE)" + smartComma + "\n");
      ins := ins + (" :" + c.columnName + smartComma);
    }
  }

  /**
   * The translation loop over the metadata rows, between the opening and the closing of
   * both statements.
   */
  method BuildStatements(dest: string, rows: seq<ColumnMeta>) returns (createTblString: string, insertString: string)
    ensures createTblString == CreateTableText(OracleType, dest, rows)
    ensures insertString == InsertText(OracleType, dest, rows)
  {
    var ddlHead, insHead := "CREATE TABLE " + dest + " (\n", "INSERT INTO " + dest + " VALUES(";
    createTblString := ddlHead;
    insertString := insHead;
    var i := 0;
    while i < |rows|
      invariant 0 <= i <= |rows|
      invariant createTblString == ddlHead + ColumnsUpTo(OracleType, rows, i)
      invariant insertString == insHead + PlaceholdersUpTo(OracleType, rows, i)
    {
      createTblString, insertString := TranslateRow(createTblString, insertString, rows, i);
      Regroup(ddlHead, ColumnsUpTo(OracleType, rows, i), Clause(OracleType, rows, i));
      Regroup(insHead, PlaceholdersUpTo(OracleType, rows, i), Placeholder(OracleType, rows, i));
      i := i + 1;
    }
    createTblString := createTblString + ")\n";
    insertString := insertString + " )";
  }

  // ---------------------------------------------------------------------------------
  // A reference description: the mapped rows, in metadata order, and what each adds.

  /** The indices of the first `k` metadata rows whose type is in the table, in order. */
  function MappedIndices(table: TypeTable, rows: seq<ColumnMeta>, k: nat): (idx: seq<nat>)
    requires k <= |rows|
    ensures forall j :: 0 <= j < |idx| ==> idx[j] < k
    ensures forall a, b :: 0 <= a < b < |idx| ==> idx[a] < idx[b]
  {
    if k == 0 then []
    else MappedIndices(table, rows, k - 1) + (if Mapped(table, rows[k - 1]) then [k - 1] else [])
  }

  /** The clauses of the rows listed in `idx`, concatenated in that order. */
  function JoinClauses(table: TypeTable, rows: seq<ColumnMeta>, idx: seq<nat>): string
    requires forall j :: 0 <= j < |idx| ==> idx[j] < |rows|
  {
    if idx == [] then "" else JoinClauses(table, rows, idx[..|idx| - 1]) + Clause(table, rows, idx[|idx| - 1])
  }

  /** The placeholders of the rows listed in `idx`, concatenated in that order. */
  function JoinPlaceholders(table: TypeTable, rows: seq<ColumnMeta>, idx: seq<nat>): string
    requires forall j :: 0 <= j < |idx| ==> idx[j] < |rows|
  {
    if idx == [] then "" else JoinPlaceholders(table, rows, idx[..|idx| - 1]) + Placeholder(table, rows, idx[|idx| - 1])
  }

  /** Appending one index to the list appends that row's clause and placeholder. */
  lemma JoinAppend(table: TypeTable, rows: seq<ColumnMeta>, idx: seq<nat>, i: nat)
    requires forall j :: 0 <= j < |idx| ==> idx[j] < |rows|
    requires i < |rows|
    ensures JoinClauses(table, rows, idx + [i]) == JoinClauses(table, rows, idx) + Clause(table, rows, i)
    ensures JoinPlaceholders(table, rows, idx + [i]) == JoinPlaceholders(table, rows, idx) + Placeholder(table, rows, i)
  {
    assert (idx + [i])[..|idx|] == idx;
  }

  /** A row of an unknown type contributes neither a clause nor a placeholder. */
  lemma UnmappedAddsNothing(table: TypeTable, rows: seq<ColumnMeta>, i: nat)
    requires i < |rows| && !Mapped(table, rows[i])
    ensures Clause(table, rows, i) == "" && Placeholder(table, rows, i) == ""
  {
  }

  /** A row is listed exactly when its type is in the table. */
  lemma {:induction false} MappedIndicesExactly(table: TypeTable, rows: seq<ColumnMeta>, k: nat)
    requires k <= |rows|
    ensures forall i :: 0 <= i < k ==> (i in MappedIndices(table, rows, k) <==> Mapped(table, rows[i]))
  {
    if k > 0 {
      MappedIndicesExactly(table, rows, k - 1);
    }
  }

  /**
   * The column list and the placeholder list are both generated from the same list of
   * mapped rows, in metadata order: equally many entries, one per mapped row, same order.
   */
  lemma {:induction false} StatementsFollowMappedRows(table: TypeTable, rows: seq<ColumnMeta>, k: nat)
    requires k <= |rows|
    ensures ColumnsUpTo(table, rows, k) == JoinClauses(table, rows, MappedIndices(table, rows, k))
    ensures PlaceholdersUpTo(table, rows, k) == JoinPlaceholders(table, rows, MappedIndices(table, rows, k))
  {
    if k > 0 {
      StatementsFollowMappedRows(table, rows, k - 1);
      var prev := MappedIndices(table, rows, k - 1);
      if Mapped(table, rows[k - 1]) {
        JoinAppend(table, rows, prev, k - 1);
      } else {
        UnmappedAddsNothing(table, rows, k - 1);
        assert MappedIndices(table, rows, k) == prev;
      }
    }
  }

  /** Both statements list exactly the mapped rows, in metadata order, inside their fixed frames. */
  lemma TranslatedTexts(table: TypeTable, dest: string, rows: seq<ColumnMeta>)
    ensures CreateTableText(table, dest, rows)
            == "CREATE TABLE " + dest + " (\n" + JoinClauses(table, rows, MappedIndices(table, rows, |rows|)) + ")\n"
    ensures InsertText(table, dest, rows)
            == "INSERT INTO " + dest + " VALUES(" + JoinPlaceholders(table, rows, MappedIndices(table, rows, |rows|)) + " )"
  {
    StatementsFollowMappedRows(table, rows, |rows|);
  }

  /** With no mapped row among the first `k`, both lists are still empty. */
  lemma {:induction false} NoMappedRows(table: TypeTable, rows: seq<ColumnMeta>, k: nat)
    requires k <= |rows|
    requires forall i :: 0 <= i < k ==> !Mapped(table, rows[i])
    ensures ColumnsUpTo(table, rows, k) == "" && PlaceholdersUpTo(table, rows, k) == ""
  {
    if k > 0 {
      NoMappedRows(table, rows, k - 1);
      UnmappedAddsNothing(table, rows, k - 1);
    }
  }

  /** The last `n` characters of `a + b` are the last `n` of `b`. */
  lemma SuffixOfAppend(a: string, b: string, n: nat)
    requires n <= |b|
    ensures (a + b)[|a + b| - n..] == b[|b| - n..]
  {
  }

  /** A mapped row before the last metadata row yields a clause ending in `,\n` and a placeholder ending in `,`. */
  lemma InnerClauseEndsWithComma(table: TypeTable, rows: seq<ColumnMeta>, i: nat)
    requires i < |rows| - 1 && Mapped(table, rows[i])
    ensures var c := Clause(table, rows, i); |c| >= 2 && c[|c| - 2..] == ",\n"
    ensures var p := Placeholder(table, rows, i); |p| >= 1 && p[|p| - 1] == ','
  {
    var t := table(rows[i]).value;
    var c := Clause(table, rows, i);
    assert c == "\t" + rows[i].columnName + " " + t + "," + "\n";
  }

  /** Before the last metadata row, once a row has been mapped, the column list ends with `,\n`. */
  lemma {:induction false} ColumnsCommaEnded(table: TypeTable, rows: seq<ColumnMeta>, k: nat, w: nat)
    requires k < |rows| && w < k && Mapped(table, rows[w])
    ensures var cols := ColumnsUpTo(table, rows, k); |cols| >= 2 && cols[|cols| - 2..] == ",\n"
  {
    var prev, c := ColumnsUpTo(table, rows, k - 1), Clause(table, rows, k - 1);
    assert ColumnsUpTo(table, rows, k) == prev + c;
    if Mapped(table, rows[k - 1]) {
      InnerClauseEndsWithComma(table, rows, k - 1);
      SuffixOfAppend(prev, c, 2);
    } else {
      ColumnsCommaEnded(table, rows, k - 1, w);
      UnmappedAddsNothing(table, rows, k - 1);
      assert prev + c == prev;
    }
  }

  /** Before the last metadata row, once a row has been mapped, the placeholder list ends with `,`. */
  lemma {:induction false} PlaceholdersCommaEnded(table: TypeTable, rows: seq<ColumnMeta>, k: nat, w: nat)
    requires k < |rows| && w < k && Mapped(table, rows[w])
    ensures var ph := PlaceholdersUpTo(table, rows, k); |ph| >= 1 && ph[|ph| - 1] == ','
  {
    var prev, p := PlaceholdersUpTo(table, rows, k - 1), Placeholder(table, rows, k - 1);
    assert PlaceholdersUpTo(table, rows, k) == prev + p;
    if Mapped(table, rows[k - 1]) {
      InnerClauseEndsWithComma(table, rows, k - 1);
    } else {
      PlaceholdersCommaEnded(table, rows, k - 1, w);
      UnmappedAddsNothing(table, rows, k - 1);
      assert prev + p == prev;
    }
  }

  /** The last `n + |c|` characters of `a + b + c` are the last `n` of `b` followed by `c`. */
  lemma SuffixThrough(a: string, b: string, c: string, n: nat)
    requires n <= |b|
    ensures |a + b + c| >= n + |c|
    ensures (a + b + c)[|a + b + c| - (n + |c|)..] == b[|b| - n..] + c
  {
  }

  /**
   * The separator rule counts metadata rows, not mapped columns: when the last metadata
   * row is of an unknown type, the last emitted clause keeps its comma and the statement
   * ends in `,\n)\n`.
   */
  lemma LastRowUnmappedKeepsComma(table: TypeTable, dest: string, rows: seq<ColumnMeta>, w: nat)
    requires |rows| > 0 && !Mapped(table, rows[|rows| - 1])
    requires w < |rows| && Mapped(table, rows[w])
    ensures var d := CreateTableText(table, dest, rows); |d| >= 4 && d[|d| - 4..] == ",\n)\n"
  {
    var n := |rows|;
    ColumnsCommaEnded(table, rows, n - 1, w);
    UnmappedAddsNothing(table, rows, n - 1);
    var cols := ColumnsUpTo(table, rows, n - 1);
    assert ColumnsUpTo(table, rows, n) == cols + "" == cols;
    var head := "CREATE TABLE " + dest + " (\n";
    assert CreateTableText(table, dest, rows) == head + cols + ")\n";
    SuffixThrough(head, cols, ")\n", 2);
  }

  /** Likewise the insert template then ends in `, )`. */
  lemma LastRowUnmappedKeepsPlaceholderComma(table: TypeTable, dest: string, rows: seq<ColumnMeta>, w: nat)
    requires |rows| > 0 && !Mapped(table, rows[|rows| - 1])
    requires w < |rows| && Mapped(table, rows[w])
    ensures var s := InsertText(table, dest, rows); |s| >= 3 && s[|s| - 3..] == ", )"
  {
    var n := |rows|;
    PlaceholdersCommaEnded(table, rows, n - 1, w);
    UnmappedAddsNothing(table, rows, n - 1);
    var ph := PlaceholdersUpTo(table, rows, n - 1);
    assert PlaceholdersUpTo(table, rows, n) == ph + "" == ph;
    var head := "INSERT INTO " + dest + " VALUES(";
    assert InsertText(table, dest, rows) == head + ph + " )";
    SuffixThrough(head, ph, " )", 1);
    assert ph[|ph| - 1..] == [','];
  }
}
