/**
 * lib/Engine.js: the same run as lib/Operator.js, as the clone engine starts it, with
 * three differences. The `start` event names both tables and the destination database;
 * the end time is not stamped here, so the `finish` event carries whatever end time the
 * load left on the operation; and the promises have no `catch`, so a rejection of any
 * part is left unhandled. `postgresToOracle` returns nothing (its `then` callbacks do not
 * return their promises), so no caller ever sees how the chain settled.
 *
 * lib/Engine.js takes the four parts from lib/engineInventory/postgresToOracle.js, which
 * is not part of this model; they are taken to be the four parts of
 * lib/operations/postgresToOracle.js.
 */
module Engine {
  import opened Js
  import opened Emitter
  import opened Context
  import opened Pipeline

  /** Progress `q` the chain left, after the `finish` event and the summary if the chain `resolved`. */
  function Wrapped(q: Progress, s: Scope, hostSystem: string, startTime: string, resolved: bool): Progress {
    if resolved then FinishedWith(q, s, hostSystem, startTime, EngineComplete(s.source), q.gathered.endTime) else q
  }

  /** The operation's progress after the run, from progress `p`. */
  function EngineEffect(p: Progress, s: Scope, hostSystem: string, startTime: string, r: Replies): Progress {
    Wrapped(PartsEffect(StartedWith(p, s, EngineBegun(s.source, s.destination), startTime), s, r), s, hostSystem,
            startTime, ChainEnd(s.destination.overwriteDestTbl, r).Resolved?)
  }

  /**
   * `postgresToOracle` of lib/Engine.js. The drivers' replies are supplied; `end` records
   * how the chain settled; the original returns nothing and leaves a rejection unhandled.
   */
  method PostgresToOracle(op: Operation, r: Replies) returns (end: Settled<()>)
    modifies op`stepCount, op`events, op`calls, op`createTblString, op`insertString, op`sourceTblRowCt,
             op`destTblCreated, op`data, op`tableSizeInCharacters, op`destTblRowCt, op`endTime
    requires op.Valid()
    ensures op.Snapshot() == EngineEffect(old(op.Snapshot()), op.CurrentScope(), op.hostSystem, op.startTime, r)
    ensures end == ChainEnd(op.destinationDb.overwriteDestTbl, r)
    ensures op.Valid()
  {
    ghost var s, p := op.CurrentScope(), op.Snapshot();
    op.EmitActivity(Start, Message(EngineBegun(op.sourceDb, op.destinationDb)), Some(op.startTime));
    ghost var p0 := op.Snapshot();
    assert p0 == StartedWith(p, s, EngineBegun(s.source, s.destination), op.startTime);
    end := RunParts(op, r);
    ghost var q := op.Snapshot();
    assert q == PartsEffect(p0, s, r);
    if end.Resolved? {
      Conclude(op);
    }
    EngineNumbering(p, s, op.hostSystem, op.startTime, r);
  }

  /** The callback after part four: the `finish` event, carrying the operation's end time, then the summary. */
  method Conclude(op: Operation)
    modifies op`stepCount, op`events
    ensures op.Snapshot() == FinishedWith(old(op.Snapshot()), op.CurrentScope(), op.hostSystem, op.startTime,
                                          EngineComplete(op.sourceDb), old(op.endTime))
  {
    ghost var s, q := op.CurrentScope(), op.Snapshot();
    op.EmitActivity(Finish, Message(EngineComplete(op.sourceDb)), op.endTime);
    ghost var finish := Emitted(s, q.stepCount + 1, Finish, Message(EngineComplete(s.source)), q.gathered.endTime);
    assert op.Gathering() == q.gathered;
    assert op.events == q.events + [finish];
    ghost var done := op.Snapshot();
    assert done == Advanced(q, q.events + [finish], q.calls, q.gathered);
    assert op.Summary() == SummaryAt(s, op.hostSystem, op.startTime, done);
    op.EmitOperation();
  }

  /**
   * Whatever the chain did after the `start` event, the events before the run stay, the
   * `start` event comes right after them, the numbering is kept, and the closing events
   * are the `finish` event and the summary, if the chain resolved.
   */
  lemma WrappedShape(p: Progress, q: Progress, s: Scope, hostSystem: string, startTime: string, resolved: bool)
    requires Numbered(p.events, p.stepCount)
    requires CarriesOn(StartedWith(p, s, EngineBegun(s.source, s.destination), startTime), q)
    ensures var t := Wrapped(q, s, hostSystem, startTime, resolved);
            && p.events < t.events
            && t.events[|p.events|]
               == Emitted(s, p.stepCount + 1, Start, Message(EngineBegun(s.source, s.destination)), Some(startTime))
            && Numbered(t.events, t.stepCount)
            && Closings(t.events) == Closings(p.events) + (if resolved then 2 else 0)
            && Summaries(t.events) == Summaries(p.events) + (if resolved then 1 else 0)
  {
    var p0 := StartedWith(p, s, EngineBegun(s.source, s.destination), startTime);
    StartCarries(p, s, EngineBegun(s.source, s.destination), startTime);
    CarriesOnTransitive(p, p0, q);
    assert q.events[|p.events|] == p0.events[|p.events|];
    if resolved {
      FinishCloses(q, s, hostSystem, startTime, EngineComplete(s.source), q.gathered.endTime);
    }
  }

  /**
   * The run keeps what was emitted before it, its `start` event comes first, the step
   * numbering is kept, and it adds a `finish` event and a summary exactly when all four
   * parts resolve, and otherwise no closing event at all.
   */
  lemma EngineNumbering(p: Progress, s: Scope, hostSystem: string, startTime: string, r: Replies)
    requires Numbered(p.events, p.stepCount)
    ensures var q := EngineEffect(p, s, hostSystem, startTime, r);
            var k := PartsResolved(s.destination.overwriteDestTbl, r);
            && p.events < q.events
            && q.events[|p.events|]
               == Emitted(s, p.stepCount + 1, Start, Message(EngineBegun(s.source, s.destination)), Some(startTime))
            && Numbered(q.events, q.stepCount)
            && Closings(q.events) == Closings(p.events) + (if k == 4 then 2 else 0)
            && Summaries(q.events) == Summaries(p.events) + (if k == 4 then 1 else 0)
  {
    var p0 := StartedWith(p, s, EngineBegun(s.source, s.destination), startTime);
    StartCarries(p, s, EngineBegun(s.source, s.destination), startTime);
    PartsCarries(p0, s, r);
    WrappedShape(p, PartsEffect(p0, s, r), s, hostSystem, startTime, ChainEnd(s.destination.overwriteDestTbl, r).Resolved?);
  }

  /** The `finish` event and the summary, after the progress `q` the chain left. */
  lemma FinishShape(q: Progress, s: Scope, hostSystem: string, startTime: string)
    ensures var t := FinishedWith(q, s, hostSystem, startTime, EngineComplete(s.source), q.gathered.endTime);
            && |t.events| == |q.events| + 2 && t.stepCount == q.stepCount + 1 && t.gathered == q.gathered
            && t.events[|q.events|] == Emitted(s, t.stepCount, Finish, Message(EngineComplete(s.source)), q.gathered.endTime)
            && t.events[|q.events| + 1] == SummaryEvent(SummaryAt(s, hostSystem, startTime, t))
  {
    var finish := Emitted(s, q.stepCount + 1, Finish, Message(EngineComplete(s.source)), q.gathered.endTime);
    var done := Advanced(q, q.events + [finish], q.calls, q.gathered);
    var t := FinishedWith(q, s, hostSystem, startTime, EngineComplete(s.source), q.gathered.endTime);
    assert t.events == q.events + [finish] + [SummaryEvent(SummaryAt(s, hostSystem, startTime, done))];
    assert t.stepCount == done.stepCount && t.gathered == done.gathered;
  }

  /**
   * When all four parts resolve, the run ends with the `finish` event, which carries the
   * end time the load stamped, then the summary of the operation as it finally stands.
   */
  lemma EngineFinish(p: Progress, s: Scope, hostSystem: string, startTime: string, r: Replies)
    requires PartsResolved(s.destination.overwriteDestTbl, r) == 4
    ensures var q := EngineEffect(p, s, hostSystem, startTime, r);
            && |q.events| >= 2
            && q.events[|q.events| - 2]
               == Emitted(s, q.stepCount, Finish, Message(EngineComplete(s.source)), Some(r.load.finished))
            && q.events[|q.events| - 1] == SummaryEvent(SummaryAt(s, hostSystem, startTime, q))
            && q.gathered.endTime == Some(r.load.finished)
  {
    var p0 := StartedWith(p, s, EngineBegun(s.source, s.destination), startTime);
    PartsGathered(p0, s, r);
    FinishShape(PartsEffect(p0, s, r), s, hostSystem, startTime);
  }
}
