/**
 * Part three of a Postgres-to-Oracle clone (lib/operations/postgresToOracle.js, lines
 * 644-750): open a second connection to the source, read the whole table, stage every
 * row in memory, record the size estimate, end the connection.
 */
module CopyPart {
  import opened Js
  import opened Staging
  import opened Endpoints
  import opened Emitter
  import opened Context

  /**
   * The Postgres driver's replies in part three: to connect and to `SELECT *`; and the
   * two formats the staging relies on, `Date.prototype.toString` (of a date given in
   * milliseconds) and `JSON.stringify` of the result rows.
   */
  datatype CopyReplies = CopyReplies(connect: Outcome, rows: Res<seq<Row>>, dateText: int -> string,
                                     stringify: seq<Row> -> string)

  /** The events of the query callback, after `prior`, the counter standing at `n`. */
  function FetchEvents(prior: seq<Event>, s: Scope, n: nat, r: CopyReplies): (es: seq<Event>)
    ensures |es| > |prior|
    ensures prior <= es
  {
    match r.rows
    case Err(e) => prior + [Emitted(s, n + 1, Error, Cause(e), None)]
    case Ok(rows) =>
      prior + [Emitted(s, n + 1, Process, Message(CopyComplete(TableSize(rows, r.stringify))), None)]
            + [Emitted(s, n + 2, Connection, Message(LinkChange(Connection2, s.source, Closed)), None)]
  }

  /**
   * The query callback: on success stage the rows, record `data` and the size estimate,
   * report the copy, end the connection and resolve; on error report it and reject,
   * leaving the connection open.
   */
  method FetchCallback(op: Operation, r: CopyReplies) returns (end: Settled<()>)
    modifies op`stepCount, op`events, op`calls, op`data, op`tableSizeInCharacters
    ensures op.events == FetchEvents(old(op.events), op.CurrentScope(), old(op.stepCount), r)
    ensures op.stepCount - old(op.stepCount) == |op.events| - |old(op.events)|
    ensures op.calls == old(op.calls) + (if r.rows.Ok? then [Disconnect(Source)] else [])
    ensures op.data == (if r.rows.Ok? then Some(StagedTable(r.rows.value, r.dateText)) else old(op.data))
    ensures op.tableSizeInCharacters
            == (if r.rows.Ok? then Some(TableSize(r.rows.value, r.stringify)) else old(op.tableSizeInCharacters))
    ensures end == (if r.rows.Ok? then Resolved(()) else Rejected(r.rows.error))
  {
    if r.rows.Err? {
      op.EmitActivity(Error, Cause(r.rows.error), None);
      end := Rejected(r.rows.error);
      return;
    }
    var tableData := StageRows(r.rows.value, r.dateText);
    op.data := Some(tableData);
    op.tableSizeInCharacters := Some(TableSize(r.rows.value, r.stringify));
    op.EmitActivity(Process, Message(CopyComplete(op.tableSizeInCharacters.value)), None);
    op.calls := op.calls + [Disconnect(Source)];
    op.EmitActivity(Connection, Message(LinkChange(Connection2, op.sourceDb, Closed)), None);
    end := Resolved(());
  }

  /** Everything part three emits. */
  function CopyEvents(prior: seq<Event>, s: Scope, n: nat, r: CopyReplies): (es: seq<Event>)
    ensures |es| > |prior|
    ensures prior <= es
  {
    match r.connect
    case Failed(e) => prior + [Emitted(s, n + 1, Error, Cause(e), None)]
    case Done =>
      var begun := prior + [Emitted(s, n + 1, Connection, Message(LinkChange(Connection2, s.source, Opened)), None)]
                         + [Emitted(s, n + 2, Process, Message(CopyBegun(s.source)), None)];
      FetchEvents(begun, s, n + 2, r)
  }

  /** Everything part three sends to the source. */
  function CopyCalls(prior: seq<DriverCall>, s: Scope, r: CopyReplies): seq<DriverCall> {
    var connecting := prior + [Connect(Source)];
    if r.connect.Failed? then connecting
    else connecting + [Run(Source, SelectAll(Text(s.source.tblName)), [])]
                    + (if r.rows.Ok? then [Disconnect(Source)] else [])
  }

  /** How part three's promise ends: it never hangs; it resolves exactly when both replies are good. */
  function CopyEnd(r: CopyReplies): (e: Settled<()>)
    ensures !e.Pending?
    ensures e.Resolved? <==> r.connect.Done? && r.rows.Ok?
  {
    if r.connect.Failed? then Rejected(r.connect.error)
    else if r.rows.Err? then Rejected(r.rows.error)
    else Resolved(())
  }

  /** Whether part three stages the rows. */
  predicate Copies(r: CopyReplies) {
    r.connect.Done? && r.rows.Ok?
  }

  /** What part three fills in: the staged rows and their size, when the copy succeeds. */
  function CopyFills(g: Gathered, r: CopyReplies): Gathered {
    if Copies(r) then
      g.(data := Some(StagedTable(r.rows.value, r.dateText)), tableSizeInCharacters := Some(TableSize(r.rows.value, r.stringify)))
    else g
  }

  /** Part three, from progress `p`. */
  function CopyEffect(p: Progress, s: Scope, r: CopyReplies): Progress {
    Advanced(p, CopyEvents(p.events, s, p.stepCount, r), CopyCalls(p.calls, s, r), CopyFills(p.gathered, r))
  }

  /**
   * `copySourceDataIntoMemory`. Only the step counter, the logs, `data` and
   * `tableSizeInCharacters` change, and the last two only when the copy succeeds.
   */
  method CopySourceDataIntoMemory(op: Operation, r: CopyReplies) returns (end: Settled<()>)
    modifies op`stepCount, op`events, op`calls, op`data, op`tableSizeInCharacters
    ensures op.Snapshot() == CopyEffect(old(op.Snapshot()), op.CurrentScope(), r)
    ensures end == CopyEnd(r)
  {
    ghost var s, p := op.CurrentScope(), op.Snapshot();
    var src := op.sourceDb;
    op.calls := op.calls + [Connect(Source)];
    if r.connect.Failed? {
      op.EmitActivity(Error, Cause(r.connect.error), None);
      end := Rejected(r.connect.error);
      assert op.Gathering() == p.gathered;
      return;
    }
    op.EmitActivity(Connection, Message(LinkChange(Connection2, src, Opened)), None);
    op.EmitActivity(Process, Message(CopyBegun(src)), None);
    op.calls := op.calls + [Run(Source, SelectAll(Text(src.tblName)), [])];
    end := FetchCallback(op, r);
    assert op.events == CopyEvents(p.events, s, p.stepCount, r);
    assert op.calls == CopyCalls(p.calls, s, r);
    assert op.Gathering() == CopyFills(p.gathered, r);
  }

  /** Part three carries the step numbering on and emits neither a `finish` nor a summary. */
  lemma CopySteps(prior: seq<Event>, s: Scope, n: nat, r: CopyReplies)
    requires Numbered(prior, n)
    ensures Continues(prior, CopyEvents(prior, s, n, r), n)
  {
    match r.connect
    case Failed(e) =>
      Carry(prior, n, s, Error, Cause(e), None);
    case Done =>
      var joined := Message(LinkChange(Connection2, s.source, Opened));
      var begun := prior + [Emitted(s, n + 1, Connection, joined, None)]
                         + [Emitted(s, n + 2, Process, Message(CopyBegun(s.source)), None)];
      CarryTwo(prior, n, s, Connection, joined, None, Process, Message(CopyBegun(s.source)), None);
      FetchSteps(begun, s, n + 2, r);
      ContinuesTransitive(prior, begun, FetchEvents(begun, s, n + 2, r), n);
  }

  lemma FetchSteps(prior: seq<Event>, s: Scope, n: nat, r: CopyReplies)
    requires Numbered(prior, n)
    ensures Continues(prior, FetchEvents(prior, s, n, r), n)
  {
    match r.rows
    case Err(e) =>
      Carry(prior, n, s, Error, Cause(e), None);
    case Ok(rows) =>
      CarryTwo(prior, n, s, Process, Message(CopyComplete(TableSize(rows, r.stringify))), None,
               Connection, Message(LinkChange(Connection2, s.source, Closed)), None);
  }

  /**
   * The second source connection is ended exactly when the copy succeeds: a failed
   * `SELECT *` leaves it open.
   */
  lemma CopyReleasesExactlyOnSuccess(prior: seq<DriverCall>, s: Scope, r: CopyReplies)
    ensures var cs := CopyCalls(prior, s, r);
            Disconnect(Source) in cs[|prior|..] <==> Copies(r)
  {
    var tail := CopyCalls(prior, s, r)[|prior|..];
    if r.connect.Failed? {
      assert tail == [Connect(Source)];
    } else if r.rows.Err? {
      assert tail == [Connect(Source), Run(Source, SelectAll(Text(s.source.tblName)), [])];
    } else {
      assert tail[2] == Disconnect(Source);
    }
  }
}
