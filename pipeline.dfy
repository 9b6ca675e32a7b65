/**
 * The chain of the four parts of a Postgres-to-Oracle clone, as lib/Operator.js (lines
 * 25-28) and lib/Engine.js (lines 23-26) both nest it: each part is started from the
 * `then` of the one before, so a part runs only once the part before it has resolved,
 * and a part that rejects or never settles stops the chain there.
 *
 * Each part is summed up here by what it does to the operation's progress (counter,
 * logs, gathered fields); the chain is the composition of those effects.
 */
module Pipeline {
  import opened Js
  import opened Staging
  import opened Schema
  import opened Endpoints
  import opened Emitter
  import opened Context
  import opened DdlPart
  import opened TablePart
  import opened CopyPart
  import opened LoadPart

  /** The drivers' replies to everything the four parts ask of them. */
  datatype Replies = Replies(ddl: DdlReplies, table: TableReplies, copy: CopyReplies, load: LoadReplies)

  /** Parts three and four: part four only when part three resolves. */
  function CopyOnEffect(p: Progress, s: Scope, r: Replies): Progress
    requires p.gathered.insertString.Some?
  {
    var p3 := CopyEffect(p, s, r.copy);
    if !CopyEnd(r.copy).Resolved? then p3 else LoadEffect(p3, s, r.load)
  }

  /** Parts two to four: the rest only when part two resolves. */
  function TableOnEffect(p: Progress, s: Scope, r: Replies): Progress
    requires p.gathered.createTblString.Some? && p.gathered.insertString.Some?
  {
    var p2 := TableEffect(p, s, r.table);
    if !TableEnd(s.destination.overwriteDestTbl, r.table).Resolved? then p2 else CopyOnEffect(p2, s, r)
  }

  /** The four parts: the rest only when part one resolves. */
  function PartsEffect(p: Progress, s: Scope, r: Replies): Progress {
    var p1 := DdlEffect(p, s, r.ddl);
    if !DdlEnd(r.ddl).Resolved? then p1 else TableOnEffect(p1, s, r)
  }

  /** How parts three and four end: as part four when part three resolves, otherwise as part three. */
  function CopyOnEnd(r: Replies): Settled<()> {
    if !CopyEnd(r.copy).Resolved? then CopyEnd(r.copy) else LoadEnd(r.load)
  }

  /** How parts two to four end, part two running under the policy `flag`. */
  function TableOnEnd(flag: JsValue, r: Replies): Settled<()> {
    if !TableEnd(flag, r.table).Resolved? then TableEnd(flag, r.table) else CopyOnEnd(r)
  }

  /**
   * How many parts resolve one after the other, from the first, part two running under
   * the policy `flag`. The chain stops at the part after them, if any.
   */
  function PartsResolved(flag: JsValue, r: Replies): (k: nat)
    ensures k <= 4
    ensures k >= 1 <==> DdlEnd(r.ddl).Resolved?
    ensures k >= 2 <==> k >= 1 && TableEnd(flag, r.table).Resolved?
    ensures k >= 3 <==> k >= 2 && CopyEnd(r.copy).Resolved?
    ensures k == 4 <==> k >= 3 && LoadEnd(r.load).Resolved?
  {
    if !DdlEnd(r.ddl).Resolved? then 0
    else if !TableEnd(flag, r.table).Resolved? then 1
    else if !CopyEnd(r.copy).Resolved? then 2
    else if !LoadEnd(r.load).Resolved? then 3
    else 4
  }

  /**
   * How the chain ends: resolved exactly when all four parts resolve, otherwise as the
   * part that stopped it.
   */
  function ChainEnd(flag: JsValue, r: Replies): (e: Settled<()>)
    ensures e.Resolved? <==> PartsResolved(flag, r) == 4
    ensures PartsResolved(flag, r) == 0 ==> e == DdlEnd(r.ddl)
    ensures PartsResolved(flag, r) == 1 ==> e == TableEnd(flag, r.table)
    ensures PartsResolved(flag, r) == 2 ==> e == CopyEnd(r.copy)
    ensures PartsResolved(flag, r) == 3 ==> e == LoadEnd(r.load)
  {
    if !DdlEnd(r.ddl).Resolved? then DdlEnd(r.ddl) else TableOnEnd(flag, r)
  }

  /**
   * The callback that runs once part two has resolved: part three, then, once that has
   * resolved, part four.
   */
  method CopyThenLoad(op: Operation, r: Replies) returns (end: Settled<()>)
    requires op.insertString.Some?
    modifies op`stepCount, op`events, op`calls, op`data, op`tableSizeInCharacters, op`destTblRowCt, op`endTime
    ensures op.Snapshot() == CopyOnEffect(old(op.Snapshot()), op.CurrentScope(), r)
    ensures end == CopyOnEnd(r)
  {
    ghost var s, p := op.CurrentScope(), op.Snapshot();
    end := CopySourceDataIntoMemory(op, r.copy);
    ghost var p3 := op.Snapshot();
    assert p3 == CopyEffect(p, s, r.copy);
    if end.Resolved? {
      end := LoadDataIntoDestinationTable(op, r.load);
      assert op.Snapshot() == LoadEffect(p3, s, r.load);
    }
  }

  /**
   * The callback that runs once part one has resolved: part two, then, once that has
   * resolved, parts three and four.
   */
  method TableThenRest(op: Operation, r: Replies) returns (end: Settled<()>)
    requires op.createTblString.Some? && op.insertString.Some?
    modifies op`stepCount, op`events, op`calls, op`destTblCreated, op`data, op`tableSizeInCharacters,
             op`destTblRowCt, op`endTime
    ensures op.Snapshot() == TableOnEffect(old(op.Snapshot()), op.CurrentScope(), r)
    ensures end == TableOnEnd(op.destinationDb.overwriteDestTbl, r)
  {
    ghost var s, p := op.CurrentScope(), op.Snapshot();
    end := CreateDestinationTable(op, r.table);
    ghost var p2 := op.Snapshot();
    assert p2 == TableEffect(p, s, r.table);
    if end.Resolved? {
      end := CopyThenLoad(op, r);
    }
  }

  /**
   * The four parts, each started once the one before has resolved. What each part leaves
   * on the operation is kept only as far as the chain got.
   */
  method RunParts(op: Operation, r: Replies) returns (end: Settled<()>)
    modifies op`stepCount, op`events, op`calls, op`createTblString, op`insertString, op`sourceTblRowCt,
             op`destTblCreated, op`data, op`tableSizeInCharacters, op`destTblRowCt, op`endTime
    ensures op.Snapshot() == PartsEffect(old(op.Snapshot()), op.CurrentScope(), r)
    ensures end == ChainEnd(op.destinationDb.overwriteDestTbl, r)
  {
    ghost var s, p := op.CurrentScope(), op.Snapshot();
    end := GenerateTableDdlAndDml(op, r.ddl);
    ghost var p1 := op.Snapshot();
    assert p1 == DdlEffect(p, s, r.ddl);
    if end.Resolved? {
      end := TableThenRest(op, r);
    }
  }

  /**
   * What the chain fills in: the two statements as soon as part one has the metadata,
   * and every other field only when each part before the one that sets it has resolved;
   * a field the chain does not reach keeps the value it had.
   */
  lemma PartsGathered(p: Progress, s: Scope, r: Replies)
    ensures var h := PartsEffect(p, s, r).gathered;
            var flag := s.destination.overwriteDestTbl;
            var k := PartsResolved(flag, r);
            var dest := Text(s.destination.tblName);
            && (r.ddl.connect.Done? && r.ddl.metadata.Ok? ==>
                  h.createTblString == Some(CreateTableText(OracleType, dest, r.ddl.metadata.value))
                  && h.insertString == Some(InsertText(OracleType, dest, r.ddl.metadata.value)))
            && (!(r.ddl.connect.Done? && r.ddl.metadata.Ok?) ==>
                  h.createTblString == p.gathered.createTblString && h.insertString == p.gathered.insertString)
            && h.sourceTblRowCt == (if k >= 1 then Some(r.ddl.count.value) else p.gathered.sourceTblRowCt)
            && h.destTblCreated
               == (if k >= 1 && TableCreatedBy(flag, r.table) then Some(r.table.created) else p.gathered.destTblCreated)
            && h.data == (if k >= 3 then Some(StagedTable(r.copy.rows.value, r.copy.dateText)) else p.gathered.data)
            && h.tableSizeInCharacters
               == (if k >= 3 then Some(TableSize(r.copy.rows.value, r.copy.stringify)) else p.gathered.tableSizeInCharacters)
            && h.destTblRowCt == (if k == 4 then Some(r.load.count.value) else p.gathered.destTblRowCt)
            && h.endTime == (if k == 4 then Some(r.load.finished) else p.gathered.endTime)
  {
  }

  /**
   * `q` carries `p` on: it keeps `p`'s events as they were, its new activity events take
   * the next steps, none of them closes the operation, and the counter counts them.
   */
  ghost predicate CarriesOn(p: Progress, q: Progress) {
    p.events <= q.events && Continues(p.events, q.events, p.stepCount)
    && q.stepCount == p.stepCount + (|q.events| - |p.events|)
  }

  lemma CarriesOnTransitive(p: Progress, q: Progress, t: Progress)
    requires CarriesOn(p, q) && CarriesOn(q, t)
    ensures CarriesOn(p, t)
  {
    ContinuesTransitive(p.events, q.events, t.events, p.stepCount);
  }

  lemma {:induction false} CopyOnCarries(p: Progress, s: Scope, r: Replies)
    requires Numbered(p.events, p.stepCount) && p.gathered.insertString.Some?
    ensures CarriesOn(p, CopyOnEffect(p, s, r))
  {
    var p3 := CopyEffect(p, s, r.copy);
    CopySteps(p.events, s, p.stepCount, r.copy);
    if CopyEnd(r.copy).Resolved? {
      LoadSteps(p3.events, s, p3.stepCount, p3.gathered.sourceTblRowCt, r.load);
      CarriesOnTransitive(p, p3, LoadEffect(p3, s, r.load));
    }
  }

  lemma {:induction false} TableOnCarries(p: Progress, s: Scope, r: Replies)
    requires Numbered(p.events, p.stepCount) && p.gathered.createTblString.Some? && p.gathered.insertString.Some?
    ensures CarriesOn(p, TableOnEffect(p, s, r))
  {
    var p2 := TableEffect(p, s, r.table);
    TableSteps(p.events, s, p.stepCount, r.table);
    if TableEnd(s.destination.overwriteDestTbl, r.table).Resolved? {
      CopyOnCarries(p2, s, r);
      CarriesOnTransitive(p, p2, CopyOnEffect(p2, s, r));
    }
  }

  /**
   * The chain keeps what was emitted before it, carries the step numbering on, counts
   * every activity event it emits, and emits neither a `finish` nor a summary.
   */
  lemma {:induction false} PartsCarries(p: Progress, s: Scope, r: Replies)
    requires Numbered(p.events, p.stepCount)
    ensures CarriesOn(p, PartsEffect(p, s, r))
  {
    var p1 := DdlEffect(p, s, r.ddl);
    DdlSteps(p.events, s, p.stepCount, r.ddl);
    if DdlEnd(r.ddl).Resolved? {
      TableOnCarries(p1, s, r);
      CarriesOnTransitive(p, p1, TableOnEffect(p1, s, r));
    }
  }

  /**
   * No "skipped" state: when the policy is `'no'` and the table already exists, part two
   * creates nothing but still resolves, so the copy and the load still run.
   */
  lemma KeptTableDoesNotStopChain(r: Replies)
    requires DdlEnd(r.ddl).Resolved? && r.table.connect.Done? && r.table.existence == Ok("true")
    ensures PartsResolved(Str("no"), r) >= 2
    ensures !TableCreatedBy(Str("no"), r.table)
  {
  }

  // ---------------------------------------------------------------------------------
  // The `start` event before the chain and the `finish` event and the summary after it,
  // which lib/Operator.js and lib/Engine.js both wrap around the four parts.

  /** Progress `p` after the `start` event describing `m`, stamped with the start time. */
  function StartedWith(p: Progress, s: Scope, m: Msg, startTime: string): Progress {
    Advanced(p, p.events + [Emitted(s, p.stepCount + 1, Start, Message(m), Some(startTime))], p.calls, p.gathered)
  }

  /**
   * Progress `q` after the `finish` event describing `m`, stamped with `time`, and the
   * summary of the operation as it then stands.
   */
  function FinishedWith(q: Progress, s: Scope, hostSystem: string, startTime: string, m: Msg,
                        time: Option<string>): Progress {
    var done := Advanced(q, q.events + [Emitted(s, q.stepCount + 1, Finish, Message(m), time)], q.calls, q.gathered);
    done.(events := done.events + [SummaryEvent(SummaryAt(s, hostSystem, startTime, done))])
  }

  /** The `start` event comes right after what was emitted before and carries the numbering on. */
  lemma StartCarries(p: Progress, s: Scope, m: Msg, startTime: string)
    requires Numbered(p.events, p.stepCount)
    ensures var q := StartedWith(p, s, m, startTime);
            CarriesOn(p, q) && q.events[|p.events|] == Emitted(s, p.stepCount + 1, Start, Message(m), Some(startTime))
  {
    Carry(p.events, p.stepCount, s, Start, Message(m), Some(startTime));
  }

  /**
   * The `finish` event and the summary keep the numbering, come last, in that order, and
   * are the two closing events added; the summary reports the step count of the `finish`.
   */
  lemma FinishCloses(q: Progress, s: Scope, hostSystem: string, startTime: string, m: Msg, time: Option<string>)
    requires Numbered(q.events, q.stepCount)
    ensures var t := FinishedWith(q, s, hostSystem, startTime, m, time);
            && q.events <= t.events && |t.events| == |q.events| + 2
            && Numbered(t.events, t.stepCount) && t.stepCount == q.stepCount + 1
            && t.events[|q.events|] == Emitted(s, q.stepCount + 1, Finish, Message(m), time)
            && t.events[|q.events| + 1].SummaryEvent? && t.events[|q.events| + 1].summary.stepsTaken == t.stepCount
            && Closings(t.events) == Closings(q.events) + 2 && Summaries(t.events) == Summaries(q.events) + 1
  {
    var es := q.events + [Emitted(s, q.stepCount + 1, Finish, Message(m), time)];
    Step(q.events, q.stepCount, s, Finish, Message(m), time);
    var t := FinishedWith(q, s, hostSystem, startTime, m, time);
    SummaryStep(es, q.stepCount + 1, t.events[|q.events| + 1].summary);
  }
}
