/**
 * lib/Operator.js: a Postgres-to-Oracle clone run as one operation. A `start` event,
 * then the four parts chained one after the other; once all four have resolved, the end
 * time is stamped on the operation, a `finish` event carries it, and the summary is
 * emitted. Every part's promise has an empty `catch`, so a rejection stops the chain
 * silently: no `finish`, no summary, and nothing reaches the caller.
 */
module Operator {
  import opened Js
  import opened Emitter
  import opened Context
  import opened Pipeline

  /**
   * Progress `q` after the callback that follows part four: the end time `endStamp`
   * stamped on the operation, the `finish` event carrying it, then the summary.
   */
  function Concluded(q: Progress, s: Scope, hostSystem: string, startTime: string, endStamp: string): Progress {
    FinishedWith(q.(gathered := q.gathered.(endTime := Some(endStamp))), s, hostSystem, startTime,
                 OperatorComplete(s.destination), Some(endStamp))
  }

  /**
   * The operation's progress after the run, from progress `p`, the end time stamp being
   * `endStamp` (the time stamp of `new Date()` once the load has resolved).
   */
  function OperatorEffect(p: Progress, s: Scope, hostSystem: string, startTime: string, r: Replies,
                          endStamp: string): Progress {
    Closed(PartsEffect(StartedWith(p, s, OperatorBegun(s.destination), startTime), s, r), s, hostSystem, startTime,
           ChainEnd(s.destination.overwriteDestTbl, r).Resolved?, endStamp)
  }

  /** Progress `q` the chain left, after the closing callback if the chain `resolved`. */
  function Closed(q: Progress, s: Scope, hostSystem: string, startTime: string, resolved: bool, endStamp: string): Progress {
    if resolved then Concluded(q, s, hostSystem, startTime, endStamp) else q
  }

  /**
   * `postgresToOracle` of lib/Operator.js. The drivers' replies and the end time stamp
   * are supplied; a rejection is swallowed, so nothing is returned.
   */
  method PostgresToOracle(op: Operation, r: Replies, endStamp: string)
    modifies op`stepCount, op`events, op`calls, op`createTblString, op`insertString, op`sourceTblRowCt,
             op`destTblCreated, op`data, op`tableSizeInCharacters, op`destTblRowCt, op`endTime
    requires op.Valid()
    ensures op.Snapshot() == OperatorEffect(old(op.Snapshot()), op.CurrentScope(), op.hostSystem, op.startTime, r, endStamp)
    ensures op.Valid()
  {
    ghost var s, p := op.CurrentScope(), op.Snapshot();
    op.EmitActivity(Start, Message(OperatorBegun(op.destinationDb)), Some(op.startTime));
    ghost var p0 := op.Snapshot();
    assert p0 == StartedWith(p, s, OperatorBegun(s.destination), op.startTime);
    var end := RunParts(op, r);
    ghost var q := op.Snapshot();
    assert q == PartsEffect(p0, s, r);
    if end.Resolved? {
      Conclude(op, endStamp);
    }
    OperatorNumbering(p, s, op.hostSystem, op.startTime, r, endStamp);
  }

  /** The callback after part four. */
  method Conclude(op: Operation, endStamp: string)
    modifies op`stepCount, op`events, op`endTime
    ensures op.Snapshot() == Concluded(old(op.Snapshot()), op.CurrentScope(), op.hostSystem, op.startTime, endStamp)
  {
    ghost var s := op.CurrentScope();
    op.endTime := Some(endStamp);
    ghost var stamped := op.Snapshot();
    op.EmitActivity(Finish, Message(OperatorComplete(op.destinationDb)), op.endTime);
    ghost var finish := Emitted(s, stamped.stepCount + 1, Finish, Message(OperatorComplete(s.destination)), Some(endStamp));
    assert op.Gathering() == stamped.gathered;
    assert op.events == stamped.events + [finish];
    ghost var done := op.Snapshot();
    assert done == Advanced(stamped, stamped.events + [finish], stamped.calls, stamped.gathered);
    assert op.Summary() == SummaryAt(s, op.hostSystem, op.startTime, done);
    op.EmitOperation();
  }

  /**
   * The closing callback adds the `finish` event, which carries the end time it stamps,
   * and then the summary of the operation as it then stands.
   */
  lemma ConcludedShape(q: Progress, s: Scope, hostSystem: string, startTime: string, endStamp: string)
    ensures var t := Concluded(q, s, hostSystem, startTime, endStamp);
            && q.events <= t.events && |t.events| == |q.events| + 2 && t.stepCount == q.stepCount + 1
            && t.events[|q.events|] == Emitted(s, t.stepCount, Finish, Message(OperatorComplete(s.destination)), Some(endStamp))
            && t.events[|q.events| + 1] == SummaryEvent(SummaryAt(s, hostSystem, startTime, t))
            && t.gathered == q.gathered.(endTime := Some(endStamp))
  {
    var q' := q.(gathered := q.gathered.(endTime := Some(endStamp)));
    var finish := Emitted(s, q.stepCount + 1, Finish, Message(OperatorComplete(s.destination)), Some(endStamp));
    var done := Advanced(q', q'.events + [finish], q'.calls, q'.gathered);
    var t := Concluded(q, s, hostSystem, startTime, endStamp);
    assert t.events == q.events + [finish] + [SummaryEvent(SummaryAt(s, hostSystem, startTime, done))];
    assert t.stepCount == done.stepCount && t.gathered == done.gathered;
  }

  /** The two events of the closing callback keep the numbering and are the two closing events it adds. */
  lemma ConcludedNumbering(q: Progress, s: Scope, hostSystem: string, startTime: string, endStamp: string)
    requires Numbered(q.events, q.stepCount)
    ensures var t := Concluded(q, s, hostSystem, startTime, endStamp);
            && Numbered(t.events, t.stepCount)
            && Closings(t.events) == Closings(q.events) + 2 && Summaries(t.events) == Summaries(q.events) + 1
  {
    var q' := q.(gathered := q.gathered.(endTime := Some(endStamp)));
    FinishCloses(q', s, hostSystem, startTime, OperatorComplete(s.destination), Some(endStamp));
  }

  /**
   * Whatever the chain did between the `start` event and the closing callback, the
   * events before the run stay, the `start` event comes right after them, the numbering
   * is kept, and the closing events are those of the callback, if it runs.
   */
  lemma ClosedShape(p: Progress, q: Progress, s: Scope, hostSystem: string, startTime: string, resolved: bool,
                    endStamp: string)
    requires Numbered(p.events, p.stepCount)
    requires CarriesOn(StartedWith(p, s, OperatorBegun(s.destination), startTime), q)
    ensures var t := Closed(q, s, hostSystem, startTime, resolved, endStamp);
            && p.events < t.events
            && t.events[|p.events|] == Emitted(s, p.stepCount + 1, Start, Message(OperatorBegun(s.destination)), Some(startTime))
            && Numbered(t.events, t.stepCount)
            && Closings(t.events) == Closings(p.events) + (if resolved then 2 else 0)
            && Summaries(t.events) == Summaries(p.events) + (if resolved then 1 else 0)
  {
    var p0 := StartedWith(p, s, OperatorBegun(s.destination), startTime);
    StartCarries(p, s, OperatorBegun(s.destination), startTime);
    CarriesOnTransitive(p, p0, q);
    assert q.events[|p.events|] == p0.events[|p.events|];
    if resolved {
      ConcludedShape(q, s, hostSystem, startTime, endStamp);
      ConcludedNumbering(q, s, hostSystem, startTime, endStamp);
    }
  }

  /**
   * The run keeps what was emitted before it, its `start` event comes first, the step
   * numbering is kept, and it adds a `finish` event and a summary exactly when all four
   * parts resolve, and otherwise no closing event at all.
   */
  lemma OperatorNumbering(p: Progress, s: Scope, hostSystem: string, startTime: string, r: Replies, endStamp: string)
    requires Numbered(p.events, p.stepCount)
    ensures var q := OperatorEffect(p, s, hostSystem, startTime, r, endStamp);
            var k := PartsResolved(s.destination.overwriteDestTbl, r);
            && p.events < q.events
            && q.events[|p.events|] == Emitted(s, p.stepCount + 1, Start, Message(OperatorBegun(s.destination)), Some(startTime))
            && Numbered(q.events, q.stepCount)
            && Closings(q.events) == Closings(p.events) + (if k == 4 then 2 else 0)
            && Summaries(q.events) == Summaries(p.events) + (if k == 4 then 1 else 0)
  {
    var p0 := StartedWith(p, s, OperatorBegun(s.destination), startTime);
    StartCarries(p, s, OperatorBegun(s.destination), startTime);
    PartsCarries(p0, s, r);
    ClosedShape(p, PartsEffect(p0, s, r), s, hostSystem, startTime, ChainEnd(s.destination.overwriteDestTbl, r).Resolved?,
                endStamp);
  }

  /**
   * When all four parts resolve, the run ends with the `finish` event, which carries the
   * end time stamped on the operation, and then the summary of the operation as it
   * finally stands.
   */
  lemma OperatorFinish(p: Progress, s: Scope, hostSystem: string, startTime: string, r: Replies, endStamp: string)
    requires PartsResolved(s.destination.overwriteDestTbl, r) == 4
    ensures var q := OperatorEffect(p, s, hostSystem, startTime, r, endStamp);
            && |q.events| >= 2
            && q.events[|q.events| - 2]
               == Emitted(s, q.stepCount, Finish, Message(OperatorComplete(s.destination)), Some(endStamp))
            && q.events[|q.events| - 1] == SummaryEvent(SummaryAt(s, hostSystem, startTime, q))
            && q.gathered.endTime == Some(endStamp)
  {
    ConcludedShape(PartsEffect(StartedWith(p, s, OperatorBegun(s.destination), startTime), s, r), s, hostSystem, startTime,
                   endStamp);
  }

  /**
   * The closing summary reports the end time, the steps taken, the counts of both tables
   * as the parts read them, and whether they match.
   */
  lemma OperatorSummary(p: Progress, s: Scope, hostSystem: string, startTime: string, r: Replies, endStamp: string)
    requires PartsResolved(s.destination.overwriteDestTbl, r) == 4
    ensures var q := OperatorEffect(p, s, hostSystem, startTime, r, endStamp);
            var summary := SummaryAt(s, hostSystem, startTime, q);
            && summary.endTime == Some(endStamp) && summary.stepsTaken == q.stepCount
            && summary.sourceDb.rows == Some(r.ddl.count.value) && summary.destinationDb.rows == Some(r.load.count.value)
            && (summary.rowCountsMatch == "yes" <==> CountsEqual(Some(r.ddl.count.value), Some(r.load.count.value)))
  {
    var p0 := StartedWith(p, s, OperatorBegun(s.destination), startTime);
    var q := PartsEffect(p0, s, r);
    PartsGathered(p0, s, r);
    var t := Concluded(q, s, hostSystem, startTime, endStamp);
    assert t.gathered == q.gathered.(endTime := Some(endStamp));
  }

  /**
   * A part that rejects or never settles stops the run there: the parts after it leave
   * their fields as they were, and the end time is not stamped.
   */
  lemma OperatorStops(p: Progress, s: Scope, hostSystem: string, startTime: string, r: Replies, endStamp: string)
    requires PartsResolved(s.destination.overwriteDestTbl, r) < 4
    ensures var q := OperatorEffect(p, s, hostSystem, startTime, r, endStamp);
            var k := PartsResolved(s.destination.overwriteDestTbl, r);
            && q.gathered.endTime == p.gathered.endTime
            && q.gathered.destTblRowCt == p.gathered.destTblRowCt
            && (k < 3 ==> q.gathered.data == p.gathered.data)
            && (k < 1 ==> q.gathered.sourceTblRowCt == p.gathered.sourceTblRowCt)
  {
    var p0 := StartedWith(p, s, OperatorBegun(s.destination), startTime);
    PartsGathered(p0, s, r);
  }
}
