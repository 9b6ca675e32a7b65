/**
 * The canned Oracle transactions of lib/operations/transactions/Oracle.js: each turns
 * the driver's `(err, response)` into a verdict. When an error was reported the
 * original goes on to read the absent response; only the first settlement counts, so
 * the verdict is the one given for the error.
 */
module OracleTransactions {
  import opened Js
  import opened Staging
  import opened Context

  /** `err.toString()` of the Oracle error for a missing table or view. */
  const TableMissing: string := "Error: ORA-00942: table or view does not exist\n"

  /** `err.toString()` of the Oracle error for a name already in use. */
  const NameInUse: string := "Error: ORA-00955: name is already used by an existing object\n"

  /** The existence query: `'true'` when the schema owns a table of that (upper-cased) name. */
  function TableExistsQuery(table: string): string {
    "SELECT CASE WHEN tableexists > 0 THEN 'true' ELSE 'false' END AS tableexists "
    + "FROM (SELECT COUNT(rownum) AS tableexists FROM user_all_tables WHERE table_name = UPPER('"
    + table + "'))"
  }

  /** The `TABLEEXISTS` answer the existence query computes from the number of matching tables. */
  function ExistsAnswer(count: nat): string {
    if count > 0 then "true" else "false"
  }

  /**
   * `tableExists`: runs the existence query on the (upper-cased) table name; true on
   * `'true'`, false on `'false'` or on the missing-table error; rejected with any other
   * error; any other answer leaves the promise pending.
   */
  function TableExists(table: string, reply: Res<string>): (t: Transaction<bool>)
    ensures t.sql == TableExistsQuery(table)
    ensures t.settled == Resolved(true) <==> reply == Ok("true")
    ensures t.settled == Resolved(false) <==> reply == Ok("false") || reply == Err(TableMissing)
    ensures t.settled.Rejected? <==> reply.Err? && reply.error != TableMissing
    ensures t.settled.Rejected? ==> t.settled.reason == reply.error
    ensures t.settled.Pending? <==> reply.Ok? && reply.value != "true" && reply.value != "false"
  {
    var settled :=
      match reply
      case Err(e) => if e == TableMissing then Resolved(false) else Rejected(e)
      case Ok(answer) =>
        if answer == "true" then Resolved(true)
        else if answer == "false" then Resolved(false)
        else Pending;
    Transaction(TableExistsQuery(table), settled)
  }

  /** Whatever the number of matching tables, the answer settles `tableExists`: present iff any. */
  lemma ExistsAnswerSettles(table: string, count: nat)
    ensures TableExists(table, Ok(ExistsAnswer(count))).settled == Resolved(count > 0)
  {
  }

  /** The existence query names one table: different tables give different queries. */
  lemma TableExistsQueryNamesOneTable(a: string, b: string)
    ensures TableExistsQuery(a) == TableExistsQuery(b) ==> a == b
  {
    if TableExistsQuery(a) == TableExistsQuery(b) {
      var n := |TableExistsQuery("")| - 3;
      assert a == TableExistsQuery(a)[n..n + |a|];
      assert b == TableExistsQuery(b)[n..n + |b|];
    }
  }

  /**
   * `createTable`: runs the operation's `createTblString`; an error other than the
   * name-in-use one rejects; the name-in-use error resolves false; otherwise the verdict
   * is whether `rowsAffected` is exactly 0.
   */
  function CreateTable(createTblString: string, reply: Res<JsValue>): (t: Transaction<bool>)
    ensures t.sql == createTblString
    ensures !t.settled.Pending?
    ensures t.settled.Rejected? <==> reply.Err? && reply.error != NameInUse
    ensures t.settled.Rejected? ==> t.settled.reason == reply.error
    ensures t.settled == Resolved(true) <==> reply == Ok(Num(0))
    ensures t.settled == Resolved(false) <==> reply == Err(NameInUse) || (reply.Ok? && reply.value != Num(0))
  {
    var settled :=
      match reply
      case Err(e) => if e == NameInUse then Resolved(false) else Rejected(e)
      case Ok(rowsAffected) => Resolved(rowsAffected == Num(0));
    Transaction(createTblString, settled)
  }

  /**
   * `dropTable`: runs the operation's `dropTblString`; any error rejects (no error is
   * tolerated); otherwise the verdict is whether `rowsAffected` is exactly 0.
   */
  function DropTable(dropTblString: string, reply: Res<JsValue>): (t: Transaction<bool>)
    ensures t.sql == dropTblString
    ensures !t.settled.Pending?
    ensures t.settled.Rejected? <==> reply.Err?
    ensures t.settled.Rejected? ==> t.settled.reason == reply.error
    ensures t.settled == Resolved(true) <==> reply == Ok(Num(0))
  {
    var settled :=
      match reply
      case Err(e) => Rejected(e)
      case Ok(rowsAffected) => Resolved(rowsAffected == Num(0));
    Transaction(dropTblString, settled)
  }

  /** `SELECT count(rowid) AS count FROM <table>`. */
  function RowCountQuery(table: string): string {
    "SELECT count(rowid) AS count FROM " + table
  }

  /** `tableRowCount`: counts the table's rows; the first row's `COUNT`, or rejected with the driver's error. */
  function TableRowCount(table: string, reply: Res<nat>): (t: Transaction<nat>)
    ensures t.sql == RowCountQuery(table)
    ensures t.settled.Resolved? <==> reply.Ok?
    ensures reply.Ok? ==> t.settled.value == reply.value
    ensures reply.Err? ==> t.settled == Rejected(reply.error)
  {
    var settled :=
      match reply
      case Ok(n) => Resolved(n)
      case Err(e) => Rejected(e);
    Transaction(RowCountQuery(table), settled)
  }

  /** The row-count query names one table: different tables give different queries. */
  lemma RowCountQueryNamesOneTable(a: string, b: string)
    ensures RowCountQuery(a) == RowCountQuery(b) ==> a == b
  {
    if RowCountQuery(a) == RowCountQuery(b) {
      var n := |RowCountQuery("")|;
      assert a == RowCountQuery(a)[n..];
      assert b == RowCountQuery(b)[n..];
    }
  }

  /** What one insert callback decides: reject with its error, or resolve true. */
  function InsertVerdict(reply: Outcome): Settled<bool> {
    match reply
    case Failed(e) => Rejected(e)
    case Done => Resolved(true)
  }

  /**
   * `loadTable`'s promise: the callbacks run in dispatch order and every one of them
   * settles, so the first insert decides; with no rows nothing settles it.
   */
  function LoadVerdict(rows: seq<BufferRow>, replies: nat -> Outcome): (r: Settled<bool>)
    ensures r.Pending? <==> rows == []
    ensures r == Resolved(true) <==> rows != [] && replies(0).Done?
    ensures r.Rejected? ==> rows != [] && replies(0) == Failed(r.reason)
  {
    if rows == [] then Pending else InsertVerdict(replies(0))
  }

  /**
   * `loadTable`: execute `insertString` once per staged row, binding that row, and settle
   * on the first callback. `replies(i)` is the driver's reply to the i-th insert.
   */
  method LoadTable(data: seq<BufferRow>, insertString: string, replies: nat -> Outcome)
    returns (calls: seq<DriverCall>, settled: Settled<bool>)
    ensures calls == InsertCalls(insertString, data)
    ensures settled == LoadVerdict(data, replies)
  {
    calls := [];
    settled := Pending;
    var i := 0;
    while i < |data|
      invariant 0 <= i <= |data|
      invariant calls == InsertCalls(insertString, data[..i])
      invariant settled == LoadVerdict(data[..i], replies)
    {
      calls := calls + [Run(Destination, Prepared(insertString), data[i])];
      settled := First(settled, InsertVerdict(replies(i)));
      assert data[..i + 1][..i] == data[..i];
      i := i + 1;
    }
    assert data[..i] == data;
  }
}
