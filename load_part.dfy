/**
 * Part four of a Postgres-to-Oracle clone (lib/operations/postgresToOracle.js, lines
 * 763-933): connect to the destination, dispatch one insert per staged row, count the
 * destination rows, compare the count with the source's, release, record the end time.
 *
 * The inserts are dispatched without waiting for them and the count follows them; what
 * an insert's callback does with an error is not part of this model.
 */
module LoadPart {
  import opened Js
  import opened Staging
  import opened Endpoints
  import opened Emitter
  import opened Context

  /**
   * The Oracle driver's replies in part four: to connect and to the row count (the
   * `COUNT` of its first row); and the time stamp taken as the end time.
   */
  datatype LoadReplies = LoadReplies(connect: Outcome, count: Res<nat>, finished: string)

  /**
   * The insert loop: execute `insertString` once per staged row, binding that row, in
   * buffer order.
   */
  method DispatchInserts(op: Operation)
    requires op.data.Some? && op.insertString.Some?
    modifies op`calls
    ensures op.calls == old(op.calls) + InsertCalls(op.insertString.value, op.data.value)
  {
    var rows, insertString := op.data.value, op.insertString.value;
    ghost var prior := op.calls;
    var i := 0;
    while i < |rows|
      invariant 0 <= i <= |rows|
      invariant op.calls == prior + InsertCalls(insertString, rows[..i])
    {
      var row := rows[i];
      op.calls := op.calls + [Run(Destination, Prepared(insertString), row)];
      assert rows[..i + 1][..i] == rows[..i];
      i := i + 1;
    }
    assert rows[..i] == rows;
  }

  /** The events of the count callback, after `prior`, the counter standing at `n`. */
  function VerifyEvents(prior: seq<Event>, s: Scope, n: nat, sourceCount: Option<string>, count: Res<nat>): (es: seq<Event>)
    ensures |es| > |prior|
    ensures prior <= es
  {
    match count
    case Err(e) => prior + [Emitted(s, n + 1, Error, Cause(e), None)]
    case Ok(c) =>
      prior + [Emitted(s, n + 1, Process, Message(LoadComplete(c)), None)]
            + [Emitted(s, n + 2, Process, Message(CheckRowCount), None)]
            + [Emitted(s, n + 3, CountsMatch, Flag(CountsEqual(sourceCount, Some(c))), None)]
            + [Emitted(s, n + 4, Connection, Message(LinkChange(DestinationLink, s.destination, Closed)), None)]
  }

  /**
   * The count callback: on success record `destTblRowCt`, report the load, report
   * whether the two counts agree, release, record the end time and resolve, whatever the
   * comparison says; on error report it and reject, leaving the connection open.
   */
  method VerifyCallback(op: Operation, count: Res<nat>, finished: string) returns (end: Settled<()>)
    modifies op`stepCount, op`events, op`calls, op`destTblRowCt, op`endTime
    ensures op.events == VerifyEvents(old(op.events), op.CurrentScope(), old(op.stepCount), op.sourceTblRowCt, count)
    ensures op.stepCount - old(op.stepCount) == |op.events| - |old(op.events)|
    ensures op.calls == old(op.calls) + (if count.Ok? then [Disconnect(Destination)] else [])
    ensures op.destTblRowCt == (if count.Ok? then Some(count.value) else old(op.destTblRowCt))
    ensures op.endTime == (if count.Ok? then Some(finished) else old(op.endTime))
    ensures end == (if count.Ok? then Resolved(()) else Rejected(count.error))
  {
    if count.Err? {
      op.EmitActivity(Error, Cause(count.error), None);
      end := Rejected(count.error);
      return;
    }
    end := RecordCount(op, count.value, finished);
  }

  /**
   * The count callback on success: record `destTblRowCt`, report the load, report whether
   * the two counts agree, release, record the end time and resolve.
   */
  method RecordCount(op: Operation, c: nat, finished: string) returns (end: Settled<()>)
    modifies op`stepCount, op`events, op`calls, op`destTblRowCt, op`endTime
    ensures op.events == VerifyEvents(old(op.events), op.CurrentScope(), old(op.stepCount), op.sourceTblRowCt, Ok(c))
    ensures op.stepCount == old(op.stepCount) + 4
    ensures op.calls == old(op.calls) + [Disconnect(Destination)]
    ensures op.destTblRowCt == Some(c) && op.endTime == Some(finished)
    ensures end == Resolved(())
  {
    ghost var s, prior, n, sourceCount := op.CurrentScope(), op.events, op.stepCount, op.sourceTblRowCt;
    op.destTblRowCt := Some(c);
    op.EmitActivity(Process, Message(LoadComplete(op.destTblRowCt.value)), None);
    op.EmitActivity(Process, Message(CheckRowCount), None);
    ghost var checked := op.events;
    assert checked == prior + [Emitted(s, n + 1, Process, Message(LoadComplete(c)), None)]
                            + [Emitted(s, n + 2, Process, Message(CheckRowCount), None)];
    var agreed := CountsEqual(op.sourceTblRowCt, op.destTblRowCt);
    assert agreed == CountsEqual(sourceCount, Some(c));
    op.EmitActivity(CountsMatch, Flag(agreed), None);
    op.calls := op.calls + [Disconnect(Destination)];
    op.EmitActivity(Connection, Message(LinkChange(DestinationLink, op.destinationDb, Closed)), None);
    assert op.events == checked + [Emitted(s, n + 3, CountsMatch, Flag(agreed), None)]
                                + [Emitted(s, n + 4, Connection, Message(LinkChange(DestinationLink, s.destination, Closed)), None)];
    assert op.events == VerifyEvents(prior, s, n, sourceCount, Ok(c));
    op.endTime := Some(finished);
    end := Resolved(());
  }

  /**
   * Once connected: dispatch the inserts, then (the loop's promise resolved) the count,
   * and handle the count's reply.
   */
  method InsertAndCount(op: Operation, count: Res<nat>, finished: string) returns (end: Settled<()>)
    requires op.data.Some? && op.insertString.Some?
    modifies op`stepCount, op`events, op`calls, op`destTblRowCt, op`endTime
    ensures op.events == VerifyEvents(old(op.events), op.CurrentScope(), old(op.stepCount), op.sourceTblRowCt, count)
    ensures op.stepCount - old(op.stepCount) == |op.events| - |old(op.events)|
    ensures op.calls == old(op.calls) + InsertCalls(op.insertString.value, op.data.value)
                                      + [Run(Destination, CountRowIds(Text(op.destinationDb.tblName)), [])]
                                      + (if count.Ok? then [Disconnect(Destination)] else [])
    ensures op.destTblRowCt == (if count.Ok? then Some(count.value) else old(op.destTblRowCt))
    ensures op.endTime == (if count.Ok? then Some(finished) else old(op.endTime))
    ensures end == (if count.Ok? then Resolved(()) else Rejected(count.error))
  {
    DispatchInserts(op);
    op.calls := op.calls + [Run(Destination, CountRowIds(Text(op.destinationDb.tblName)), [])];
    end := VerifyCallback(op, count, finished);
  }

  /** Everything part four emits; `sourceCount` is the source row count part one recorded. */
  function LoadEvents(prior: seq<Event>, s: Scope, n: nat, sourceCount: Option<string>, r: LoadReplies): (es: seq<Event>)
    ensures |es| > |prior|
    ensures prior <= es
  {
    match r.connect
    case Failed(e) => prior + [Emitted(s, n + 1, Error, Cause(e), None)]
    case Done =>
      var begun := prior + [Emitted(s, n + 1, Connection, Message(LinkChange(DestinationLink, s.destination, Open)), None)]
                         + [Emitted(s, n + 2, Process, Message(LoadBegun(s.destination)), None)];
      VerifyEvents(begun, s, n + 2, sourceCount, r.count)
  }

  /** Everything part four sends to the destination. */
  function LoadCalls(prior: seq<DriverCall>, s: Scope, insertString: string, data: seq<BufferRow>,
                     r: LoadReplies): seq<DriverCall> {
    var connecting := prior + [Connect(Destination)];
    if r.connect.Failed? then connecting
    else connecting + InsertCalls(insertString, data)
                    + [Run(Destination, CountRowIds(Text(s.destination.tblName)), [])]
                    + (if r.count.Ok? then [Disconnect(Destination)] else [])
  }

  /**
   * How part four's promise ends: it never hangs, and it resolves exactly when both
   * replies are good; the count comparison plays no part.
   */
  function LoadEnd(r: LoadReplies): (e: Settled<()>)
    ensures !e.Pending?
    ensures e.Resolved? <==> r.connect.Done? && r.count.Ok?
  {
    if r.connect.Failed? then Rejected(r.connect.error)
    else if r.count.Err? then Rejected(r.count.error)
    else Resolved(())
  }

  /** Whether part four reaches the count. */
  predicate Counts(r: LoadReplies) {
    r.connect.Done? && r.count.Ok?
  }

  /** What part four fills in: the destination count and the end time, when the count succeeds. */
  function LoadFills(g: Gathered, r: LoadReplies): Gathered {
    if Counts(r) then g.(destTblRowCt := Some(r.count.value), endTime := Some(r.finished)) else g
  }

  /**
   * Part four, from progress `p`: it inserts the gathered rows with the gathered template
   * and reports the gathered source count.
   */
  function LoadEffect(p: Progress, s: Scope, r: LoadReplies): Progress
    requires p.gathered.insertString.Some? && p.gathered.data.Some?
  {
    Advanced(p, LoadEvents(p.events, s, p.stepCount, p.gathered.sourceTblRowCt, r),
             LoadCalls(p.calls, s, p.gathered.insertString.value, p.gathered.data.value, r),
             LoadFills(p.gathered, r))
  }

  /**
   * `loadDataIntoDestinationTable`. Only the step counter, the logs, `destTblRowCt` and
   * `endTime` change, the last two only when the count succeeds. The rows and the
   * insert template are those of parts three and one.
   */
  method LoadDataIntoDestinationTable(op: Operation, r: LoadReplies) returns (end: Settled<()>)
    requires op.data.Some? && op.insertString.Some?
    modifies op`stepCount, op`events, op`calls, op`destTblRowCt, op`endTime
    ensures op.Snapshot() == LoadEffect(old(op.Snapshot()), op.CurrentScope(), r)
    ensures end == LoadEnd(r)
  {
    ghost var s, p := op.CurrentScope(), op.Snapshot();
    op.calls := op.calls + [Connect(Destination)];
    if r.connect.Failed? {
      op.EmitActivity(Error, Cause(r.connect.error), None);
      end := Rejected(r.connect.error);
      assert op.Gathering() == p.gathered;
      return;
    }
    op.EmitActivity(Connection, Message(LinkChange(DestinationLink, op.destinationDb, Open)), None);
    op.EmitActivity(Process, Message(LoadBegun(op.destinationDb)), None);
    assert op.events == p.events + [Emitted(s, p.stepCount + 1, Connection, Message(LinkChange(DestinationLink, s.destination, Open)), None)]
                                 + [Emitted(s, p.stepCount + 2, Process, Message(LoadBegun(s.destination)), None)];
    end := InsertAndCount(op, r.count, r.finished);
    assert op.events == LoadEvents(p.events, s, p.stepCount, p.gathered.sourceTblRowCt, r);
    assert op.calls == LoadCalls(p.calls, s, p.gathered.insertString.value, p.gathered.data.value, r);
    assert op.Gathering() == LoadFills(p.gathered, r);
  }

  /** The four events of a successful count, whatever the comparison reports as `agreed`. */
  lemma CountedSteps(prior: seq<Event>, s: Scope, n: nat, c: nat, agreed: Description)
    requires Numbered(prior, n)
    ensures Continues(prior, prior + [Emitted(s, n + 1, Process, Message(LoadComplete(c)), None)]
                                    + [Emitted(s, n + 2, Process, Message(CheckRowCount), None)]
                                    + [Emitted(s, n + 3, CountsMatch, agreed, None)]
                                    + [Emitted(s, n + 4, Connection, Message(LinkChange(DestinationLink, s.destination, Closed)), None)], n)
  {
    var p2 := prior + [Emitted(s, n + 1, Process, Message(LoadComplete(c)), None)]
                    + [Emitted(s, n + 2, Process, Message(CheckRowCount), None)];
    CarryTwo(prior, n, s, Process, Message(LoadComplete(c)), None, Process, Message(CheckRowCount), None);
    CarryTwo(p2, n + 2, s, CountsMatch, agreed, None,
             Connection, Message(LinkChange(DestinationLink, s.destination, Closed)), None);
    ContinuesTransitive(prior, p2, p2 + [Emitted(s, n + 3, CountsMatch, agreed, None)]
                                      + [Emitted(s, n + 4, Connection, Message(LinkChange(DestinationLink, s.destination, Closed)), None)], n);
  }

  lemma VerifySteps(prior: seq<Event>, s: Scope, n: nat, sourceCount: Option<string>, count: Res<nat>)
    requires Numbered(prior, n)
    ensures Continues(prior, VerifyEvents(prior, s, n, sourceCount, count), n)
  {
    match count
    case Err(e) =>
      Carry(prior, n, s, Error, Cause(e), None);
    case Ok(c) =>
      CountedSteps(prior, s, n, c, Flag(CountsEqual(sourceCount, Some(c))));
  }

  /** Part four carries the step numbering on and emits neither a `finish` nor a summary. */
  lemma LoadSteps(prior: seq<Event>, s: Scope, n: nat, sourceCount: Option<string>, r: LoadReplies)
    requires Numbered(prior, n)
    ensures Continues(prior, LoadEvents(prior, s, n, sourceCount, r), n)
  {
    match r.connect
    case Failed(e) =>
      Step(prior, n, s, Error, Cause(e), None);
    case Done =>
      var joined := Message(LinkChange(DestinationLink, s.destination, Open));
      Step(prior, n, s, Connection, joined, None);
      var linked := prior + [Emitted(s, n + 1, Connection, joined, None)];
      Step(linked, n + 1, s, Process, Message(LoadBegun(s.destination)), None);
      var begun := linked + [Emitted(s, n + 2, Process, Message(LoadBegun(s.destination)), None)];
      ContinuesTransitive(prior, linked, begun, n);
      VerifySteps(begun, s, n + 2, sourceCount, r.count);
      ContinuesTransitive(prior, begun, VerifyEvents(begun, s, n + 2, sourceCount, r.count), n);
  }

  /**
   * Once connected, part four sends every staged row before the count, and the count is
   * the last statement; the destination connection is released exactly when the count
   * succeeds.
   */
  lemma LoadOrder(prior: seq<DriverCall>, s: Scope, insertString: string, data: seq<BufferRow>, r: LoadReplies)
    requires r.connect.Done?
    ensures var cs := LoadCalls(prior, s, insertString, data, r);
            var k := |prior| + 1 + |data|;
            |cs| == k + 1 + (if r.count.Ok? then 1 else 0)
            && cs[|prior|] == Connect(Destination)
            && (forall i :: 0 <= i < |data| ==> cs[|prior| + 1 + i] == Run(Destination, Prepared(insertString), data[i]))
            && cs[k] == Run(Destination, CountRowIds(Text(s.destination.tblName)), [])
            && (r.count.Ok? <==> cs[|cs| - 1] == Disconnect(Destination))
  {
    InsertCallsPointwise(insertString, data);
    var cs := LoadCalls(prior, s, insertString, data, r);
    var inserts := InsertCalls(insertString, data);
    assert cs[|prior| + 1..|prior| + 1 + |data|] == inserts;
  }
}
