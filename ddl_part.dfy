/**
 * Part one of a Postgres-to-Oracle clone (lib/operations/postgresToOracle.js, lines
 * 23-177): connect to the source, read the table's column metadata, build the Oracle
 * `CREATE TABLE` and `INSERT` statements, count the source rows, disconnect.
 *
 * Each driver callback is a method; what it emits, what it sends and how it settles are
 * given by functions of the operation's scope, its step counter and the replies.
 */
module DdlPart {
  import opened Js
  import opened Schema
  import opened Endpoints
  import opened Emitter
  import opened Context

  /** The Postgres driver's replies in part one: to connect, to the metadata query, to the count. */
  datatype DdlReplies = DdlReplies(connect: Outcome, metadata: Res<seq<ColumnMeta>>, count: Res<string>)

  /** The events of the count callback, after `prior`, the counter standing at `n`. */
  function CountEvents(prior: seq<Event>, s: Scope, n: nat, count: Res<string>): (es: seq<Event>)
    ensures |es| > |prior|
    ensures prior <= es
  {
    match count
    case Err(e) => prior + [Emitted(s, n + 1, Error, Cause(e), None)]
    case Ok(c) =>
      prior + [Emitted(s, n + 1, RowsToProcess, Message(Verbatim(c)), None)]
            + [Emitted(s, n + 2, Connection, Message(LinkChange(Connection1, s.source, Closed)), None)]
  }

  /** The count callback ends the connection whatever the reply. */
  function CountCalls(prior: seq<DriverCall>): seq<DriverCall> {
    prior + [Disconnect(Source)]
  }

  /** The count callback fills in the source row count when the count succeeds. */
  function CountFills(g: Gathered, count: Res<string>): Gathered {
    if count.Ok? then g.(sourceTblRowCt := Some(count.value)) else g
  }

  function CountEffect(p: Progress, s: Scope, count: Res<string>): Progress {
    Advanced(p, CountEvents(p.events, s, p.stepCount, count), CountCalls(p.calls), CountFills(p.gathered, count))
  }

  /** The count callback: record the count and disconnect, or report the error and disconnect. */
  method CountSourceRows(op: Operation, count: Res<string>) returns (end: Settled<()>)
    modifies op`stepCount, op`events, op`calls, op`sourceTblRowCt
    ensures op.Snapshot() == CountEffect(old(op.Snapshot()), op.CurrentScope(), count)
    ensures end == (if count.Ok? then Resolved(()) else Rejected(count.error))
  {
    ghost var s, p := op.CurrentScope(), op.Snapshot();
    var src := op.sourceDb;
    if count.Err? {
      op.EmitActivity(Error, Cause(count.error), None);
      op.calls := op.calls + [Disconnect(Source)];
      end := Rejected(count.error);
      assert op.Gathering() == p.gathered;
      return;
    }
    op.sourceTblRowCt := Some(count.value);
    op.EmitActivity(RowsToProcess, Message(Verbatim(count.value)), None);
    ghost var counted := op.events;
    assert counted == p.events + [Emitted(s, p.stepCount + 1, RowsToProcess, Message(Verbatim(count.value)), None)];
    op.calls := op.calls + [Disconnect(Source)];
    op.EmitActivity(Connection, Message(LinkChange(Connection1, src, Closed)), None);
    end := Resolved(());
    assert op.events == counted + [Emitted(s, p.stepCount + 2, Connection, Message(LinkChange(Connection1, s.source, Closed)), None)];
    assert op.Gathering() == CountFills(p.gathered, count);
  }

  /** The events of the metadata callback and of the count callback it leads to. */
  function MetadataEvents(prior: seq<Event>, s: Scope, n: nat, metadata: Res<seq<ColumnMeta>>,
                          count: Res<string>): (es: seq<Event>)
    ensures |es| > |prior|
    ensures prior <= es
  {
    match metadata
    case Err(e) => prior + [Emitted(s, n + 1, Error, Message(QueryFailed(s.source, e)), None)]
    case Ok(_) =>
      var built := prior + [Emitted(s, n + 1, Process, Message(MetadataGathered(s.source)), None)]
                         + [Emitted(s, n + 2, Process, Message(StatementsGenerated), None)];
      CountEvents(built, s, n + 2, count)
  }

  function MetadataCalls(prior: seq<DriverCall>, s: Scope, metadata: Res<seq<ColumnMeta>>): seq<DriverCall> {
    if metadata.Err? then prior + [Disconnect(Source)]
    else CountCalls(prior + [Run(Source, CountRows(Text(s.source.tblName)), [])])
  }

  /**
   * The metadata callback fills in the two statements it builds from the metadata when
   * the query succeeds, then whatever the count callback fills in.
   */
  function MetadataFills(g: Gathered, s: Scope, metadata: Res<seq<ColumnMeta>>, count: Res<string>): Gathered {
    match metadata
    case Err(_) => g
    case Ok(rows) =>
      var dest := Text(s.destination.tblName);
      CountFills(g.(createTblString := Some(CreateTableText(OracleType, dest, rows)),
                    insertString := Some(InsertText(OracleType, dest, rows))), count)
  }

  function MetadataEffect(p: Progress, s: Scope, metadata: Res<seq<ColumnMeta>>, count: Res<string>): Progress {
    Advanced(p, MetadataEvents(p.events, s, p.stepCount, metadata, count), MetadataCalls(p.calls, s, metadata),
             MetadataFills(p.gathered, s, metadata, count))
  }

  /**
   * The metadata callback: on success build both statements for the destination table
   * from the metadata, store them and go on to count the rows; on error report it and
   * disconnect.
   */
  method GatherMetadata(op: Operation, metadata: Res<seq<ColumnMeta>>, count: Res<string>) returns (end: Settled<()>)
    modifies op`stepCount, op`events, op`calls, op`createTblString, op`insertString, op`sourceTblRowCt
    ensures op.Snapshot() == MetadataEffect(old(op.Snapshot()), op.CurrentScope(), metadata, count)
    ensures end == (if metadata.Err? then Rejected(metadata.error) else if count.Err? then Rejected(count.error) else Resolved(()))
  {
    ghost var s, p := op.CurrentScope(), op.Snapshot();
    var src := op.sourceDb;
    if metadata.Err? {
      op.EmitActivity(Error, Message(QueryFailed(src, metadata.error)), None);
      op.calls := op.calls + [Disconnect(Source)];
      end := Rejected(metadata.error);
      assert op.Gathering() == p.gathered;
      return;
    }
    StoreStatements(op, metadata.value);
    MetadataThenCount(p, s, metadata, count);
    end := CountSourceRows(op, count);
  }

  /**
   * Where the metadata callback has the column rows: both statements built, stored and
   * reported, and the count query sent.
   */
  function Stored(p: Progress, s: Scope, rows: seq<ColumnMeta>): Progress {
    var dest := Text(s.destination.tblName);
    Progress(p.stepCount + 2,
             p.events + [Emitted(s, p.stepCount + 1, Process, Message(MetadataGathered(s.source)), None)]
                      + [Emitted(s, p.stepCount + 2, Process, Message(StatementsGenerated), None)],
             p.calls + [Run(Source, CountRows(Text(s.source.tblName)), [])],
             p.gathered.(createTblString := Some(CreateTableText(OracleType, dest, rows)),
                         insertString := Some(InsertText(OracleType, dest, rows))))
  }

  /** The success path of the metadata callback, up to the count query. */
  method StoreStatements(op: Operation, rows: seq<ColumnMeta>)
    modifies op`stepCount, op`events, op`calls, op`createTblString, op`insertString
    ensures op.Snapshot() == Stored(old(op.Snapshot()), op.CurrentScope(), rows)
  {
    ghost var s, p := op.CurrentScope(), op.Snapshot();
    var src := op.sourceDb;
    op.EmitActivity(Process, Message(MetadataGathered(src)), None);
    ghost var gathered := op.events;
    assert gathered == p.events + [Emitted(s, p.stepCount + 1, Process, Message(MetadataGathered(s.source)), None)];
    var createTblString, insertString := BuildStatements(Text(op.destinationDb.tblName), rows);
    op.createTblString := Some(createTblString);
    op.insertString := Some(insertString);
    ghost var built := op.Gathering();
    assert built == p.gathered.(createTblString := Some(createTblString), insertString := Some(insertString));
    op.EmitActivity(Process, Message(StatementsGenerated), None);
    op.calls := op.calls + [Run(Source, CountRows(Text(src.tblName)), [])];
    assert op.Gathering() == built;
    assert op.events == gathered + [Emitted(s, p.stepCount + 2, Process, Message(StatementsGenerated), None)];
  }

  /** A successful metadata query, then the count. */
  lemma MetadataThenCount(p: Progress, s: Scope, metadata: Res<seq<ColumnMeta>>, count: Res<string>)
    requires metadata.Ok?
    ensures MetadataEffect(p, s, metadata, count) == CountEffect(Stored(p, s, metadata.value), s, count)
  {
    var q := Stored(p, s, metadata.value);
    var es := CountEvents(q.events, s, q.stepCount, count);
    assert MetadataEvents(p.events, s, p.stepCount, metadata, count) == es;
    assert |q.events| == |p.events| + 2;
    assert MetadataCalls(p.calls, s, metadata) == CountCalls(q.calls);
    assert MetadataFills(p.gathered, s, metadata, count) == CountFills(q.gathered, count);
  }

  /** Everything part one emits. */
  function DdlEvents(prior: seq<Event>, s: Scope, n: nat, r: DdlReplies): (es: seq<Event>)
    ensures |es| > |prior|
    ensures prior <= es
  {
    match r.connect
    case Failed(e) => prior + [Emitted(s, n + 1, Error, Message(ConnectFailed(s.source, e)), None)]
    case Done =>
      var linked := prior + [Emitted(s, n + 1, Connection, Message(LinkChange(Connection1, s.source, Opened)), None)];
      MetadataEvents(linked, s, n + 1, r.metadata, r.count)
  }

  /** Everything part one sends to the source. */
  function DdlCalls(prior: seq<DriverCall>, s: Scope, r: DdlReplies): seq<DriverCall> {
    var connecting := prior + [Connect(Source)];
    if r.connect.Failed? then connecting
    else MetadataCalls(connecting + [Run(Source, ColumnMetadata(Text(s.source.tblName)), [])], s, r.metadata)
  }

  /**
   * How part one's promise ends: it never hangs, it resolves exactly when all three
   * replies are good, and otherwise it rejects with the first error.
   */
  function DdlEnd(r: DdlReplies): (e: Settled<()>)
    ensures !e.Pending?
    ensures e.Resolved? <==> r.connect.Done? && r.metadata.Ok? && r.count.Ok?
    ensures r.connect.Failed? ==> e == Rejected(r.connect.error)
    ensures r.connect.Done? && r.metadata.Err? ==> e == Rejected(r.metadata.error)
    ensures r.connect.Done? && r.metadata.Ok? && r.count.Err? ==> e == Rejected(r.count.error)
  {
    match r.connect
    case Failed(e) => Rejected(e)
    case Done =>
      match r.metadata
      case Err(e) => Rejected(e)
      case Ok(_) => if r.count.Err? then Rejected(r.count.error) else Resolved(())
  }

  /** What part one fills in: once connected, what the metadata callback fills in. */
  function DdlFills(g: Gathered, s: Scope, r: DdlReplies): Gathered {
    if r.connect.Done? then MetadataFills(g, s, r.metadata, r.count) else g
  }

  /** Part one, from progress `p`: its events carry the counter on from `p.stepCount`. */
  function DdlEffect(p: Progress, s: Scope, r: DdlReplies): Progress {
    Advanced(p, DdlEvents(p.events, s, p.stepCount, r), DdlCalls(p.calls, s, r), DdlFills(p.gathered, s, r))
  }

  /**
   * `generateTableDDLAndDML`. Only the step counter, the logs, the two statements and
   * the source row count change.
   */
  method GenerateTableDdlAndDml(op: Operation, r: DdlReplies) returns (end: Settled<()>)
    modifies op`stepCount, op`events, op`calls, op`createTblString, op`insertString, op`sourceTblRowCt
    ensures op.Snapshot() == DdlEffect(old(op.Snapshot()), op.CurrentScope(), r)
    ensures end == DdlEnd(r)
  {
    ghost var s, p := op.CurrentScope(), op.Snapshot();
    op.calls := op.calls + [Connect(Source)];
    if r.connect.Failed? {
      op.EmitActivity(Error, Message(ConnectFailed(op.sourceDb, r.connect.error)), None);
      end := Rejected(r.connect.error);
      assert op.Gathering() == p.gathered;
      return;
    }
    op.EmitActivity(Connection, Message(LinkChange(Connection1, op.sourceDb, Opened)), None);
    op.calls := op.calls + [Run(Source, ColumnMetadata(Text(op.sourceDb.tblName)), [])];
    assert op.Snapshot() == Progress(p.stepCount + 1,
                                     p.events + [Emitted(s, p.stepCount + 1, Connection, Message(LinkChange(Connection1, s.source, Opened)), None)],
                                     p.calls + [Connect(Source)] + [Run(Source, ColumnMetadata(Text(s.source.tblName)), [])], p.gathered);
    ConnectThenMetadata(p, s, r);
    end := GatherMetadata(op, r.metadata, r.count);
  }

  /** A successful connection, then the metadata query and its callback. */
  lemma ConnectThenMetadata(p: Progress, s: Scope, r: DdlReplies)
    requires r.connect.Done?
    ensures DdlEffect(p, s, r)
         == MetadataEffect(Progress(p.stepCount + 1,
                                    p.events + [Emitted(s, p.stepCount + 1, Connection, Message(LinkChange(Connection1, s.source, Opened)), None)],
                                    p.calls + [Connect(Source)] + [Run(Source, ColumnMetadata(Text(s.source.tblName)), [])], p.gathered),
                           s, r.metadata, r.count)
  {
  }

  // ---------------------------------------------------------------------------------
  // Part one numbers its events on from the counter and emits no closing event.

  lemma CountSteps(prior: seq<Event>, s: Scope, n: nat, count: Res<string>)
    requires Numbered(prior, n)
    ensures Continues(prior, CountEvents(prior, s, n, count), n)
  {
    match count
    case Err(e) =>
      Step(prior, n, s, Error, Cause(e), None);
    case Ok(c) =>
      Step(prior, n, s, RowsToProcess, Message(Verbatim(c)), None);
      var counted := prior + [Emitted(s, n + 1, RowsToProcess, Message(Verbatim(c)), None)];
      Step(counted, n + 1, s, Connection, Message(LinkChange(Connection1, s.source, Closed)), None);
      ContinuesTransitive(prior, counted, CountEvents(prior, s, n, count), n);
  }

  lemma MetadataSteps(prior: seq<Event>, s: Scope, n: nat, metadata: Res<seq<ColumnMeta>>, count: Res<string>)
    requires Numbered(prior, n)
    ensures Continues(prior, MetadataEvents(prior, s, n, metadata, count), n)
  {
    match metadata
    case Err(e) =>
      Step(prior, n, s, Error, Message(QueryFailed(s.source, e)), None);
    case Ok(_) =>
      Step(prior, n, s, Process, Message(MetadataGathered(s.source)), None);
      var gathered := prior + [Emitted(s, n + 1, Process, Message(MetadataGathered(s.source)), None)];
      Step(gathered, n + 1, s, Process, Message(StatementsGenerated), None);
      var built := gathered + [Emitted(s, n + 2, Process, Message(StatementsGenerated), None)];
      ContinuesTransitive(prior, gathered, built, n);
      CountSteps(built, s, n + 2, count);
      ContinuesTransitive(prior, built, CountEvents(built, s, n + 2, count), n);
  }

  /** Part one carries the step numbering on and emits neither a `finish` nor a summary. */
  lemma DdlSteps(prior: seq<Event>, s: Scope, n: nat, r: DdlReplies)
    requires Numbered(prior, n)
    ensures Continues(prior, DdlEvents(prior, s, n, r), n)
  {
    match r.connect
    case Failed(e) =>
      Step(prior, n, s, Error, Message(ConnectFailed(s.source, e)), None);
    case Done =>
      Step(prior, n, s, Connection, Message(LinkChange(Connection1, s.source, Opened)), None);
      var linked := prior + [Emitted(s, n + 1, Connection, Message(LinkChange(Connection1, s.source, Opened)), None)];
      MetadataSteps(linked, s, n + 1, r.metadata, r.count);
      ContinuesTransitive(prior, linked, MetadataEvents(linked, s, n + 1, r.metadata, r.count), n);
  }

  /**
   * Part one talks to the source only: it opens one connection first and, once
   * connected, always ends it last, whatever the replies.
   */
  lemma DdlReleasesSource(prior: seq<DriverCall>, s: Scope, r: DdlReplies)
    ensures var cs := DdlCalls(prior, s, r);
            |cs| > |prior| && cs[|prior|] == Connect(Source)
            && (r.connect.Done? ==> cs[|cs| - 1] == Disconnect(Source))
            && forall i :: |prior| <= i < |cs| ==> cs[i].side == Source
  {
  }
}
