/**
 * The operation object every part of a clone works on (lib/CloneEngine.js, lines 19-47):
 * identity and clock values fixed at construction, the two endpoints, the fields the
 * four parts fill in, and the step counter behind the activity events.
 *
 * The model adds two logs the original keeps implicitly: the events emitted so far, and
 * the driver calls dispatched so far (connect, execute/query, release/end), so that the
 * order of statements sent to the databases can be stated.
 */
module Context {
  import opened Js
  import opened Staging
  import opened Endpoints
  import opened Emitter
  import opened Schema

  datatype Side = Source | Destination

  /**
   * The statements lib/operations/postgresToOracle.js sends, as it spells them inline;
   * `Prepared` is a statement the operation built earlier (`createTblString`,
   * `insertString`).
   */
  datatype Statement =
    | ColumnMetadata(table: string)
    | CountRows(table: string)
    | SelectAll(table: string)
    | ExistsCheck(table: string)
    | DropCascade(table: string)
    | CountRowIds(table: string)
    | Prepared(sql: string)

  /** The inline existence check: note `tableexists = 1`, where the canned one has `> 0`. */
  const ExistsCheckHead: string :=
    "SELECT CASE WHEN tableexists = 1 THEN 'true' ELSE 'false' END AS tableexists "
    + "FROM (SELECT COUNT(rownum) AS tableexists FROM user_all_tables WHERE table_name = UPPER('"

  /** The SQL text of a statement. */
  function SqlText(st: Statement): string {
    match st
    case ColumnMetadata(t) => MetadataQuery(t)
    case CountRows(t) => "SELECT count(*) FROM " + t
    case SelectAll(t) => "SELECT * FROM " + t
    case ExistsCheck(t) => ExistsCheckHead + t + "'))"
    case DropCascade(t) => "DROP TABLE " + t + " CASCADE CONSTRAINTS"
    case CountRowIds(t) => "SELECT count(rowid) AS count FROM " + t
    case Prepared(sql) => sql
  }

  /** A driver call: connect, run a statement with its binds, end or release the connection. */
  datatype DriverCall = Connect(side: Side) | Run(side: Side, statement: Statement, binds: seq<Value>) | Disconnect(side: Side)

  /** One insert per staged row, binding that row, in buffer order. */
  function InsertCalls(insertString: string, rows: seq<BufferRow>): (r: seq<DriverCall>)
    ensures |r| == |rows|
  {
    if rows == [] then []
    else InsertCalls(insertString, rows[..|rows| - 1]) + [Run(Destination, Prepared(insertString), rows[|rows| - 1])]
  }

  /** The i-th insert binds the i-th staged row. */
  lemma {:induction false} InsertCallsPointwise(insertString: string, rows: seq<BufferRow>)
    ensures forall i :: 0 <= i < |rows| ==> InsertCalls(insertString, rows)[i] == Run(Destination, Prepared(insertString), rows[i])
  {
    if rows != [] {
      InsertCallsPointwise(insertString, rows[..|rows| - 1]);
    }
  }

  /** The activity events among `es` carry the steps 1, 2, ..., n, in emission order. */
  ghost predicate Numbered(es: seq<Event>, n: nat) {
    if es == [] then n == 0
    else
      var last := es[|es| - 1];
      if last.ActivityEvent? then n > 0 && last.activity.step == n && Numbered(es[..|es| - 1], n - 1)
      else Numbered(es[..|es| - 1], n)
  }

  /** Appending the next activity event, or a summary, keeps the numbering. */
  lemma NumberedAppend(es: seq<Event>, n: nat, e: Event)
    requires Numbered(es, n)
    requires e.ActivityEvent? ==> e.activity.step == n + 1
    ensures Numbered(es + [e], if e.ActivityEvent? then n + 1 else n)
  {
    assert (es + [e])[..|es|] == es;
  }

  /** What the activity events of an operation are stamped with: its id and its endpoints. */
  datatype Scope = Scope(operationId: string, source: Endpoint, destination: Endpoint)

  /** The activity event of step `step` in scope `s`. */
  function Emitted(s: Scope, step: nat, kind: Kind, d: Description, time: Option<string>): Event {
    ActivityRecord(s.operationId, s.destination, kind, step, d, time)
  }

  /** Whether an event closes an operation: a `finish` activity or the summary. */
  predicate Closing(e: Event) {
    e.SummaryEvent? || e.activity.msgType == Finish
  }

  /** How many closing events `es` holds. */
  function Closings(es: seq<Event>): nat {
    if es == [] then 0 else Closings(es[..|es| - 1]) + (if Closing(es[|es| - 1]) then 1 else 0)
  }

  /** How many summaries `es` holds. */
  function Summaries(es: seq<Event>): nat {
    if es == [] then 0 else Summaries(es[..|es| - 1]) + (if es[|es| - 1].SummaryEvent? then 1 else 0)
  }

  /**
   * Emitting the next activity event keeps the numbering, and adds a closing event
   * exactly when it is a `finish`; it never adds a summary.
   */
  lemma Step(es: seq<Event>, n: nat, s: Scope, kind: Kind, d: Description, time: Option<string>)
    requires Numbered(es, n)
    ensures Numbered(es + [Emitted(s, n + 1, kind, d, time)], n + 1)
    ensures Closings(es + [Emitted(s, n + 1, kind, d, time)]) == Closings(es) + (if kind == Finish then 1 else 0)
    ensures Summaries(es + [Emitted(s, n + 1, kind, d, time)]) == Summaries(es)
    ensures kind != Finish ==> Continues(es, es + [Emitted(s, n + 1, kind, d, time)], n)
  {
    var e := Emitted(s, n + 1, kind, d, time);
    NumberedAppend(es, n, e);
    assert (es + [e])[..|es|] == es;
  }

  /** Emitting the next activity event, other than a `finish`, carries the numbering on. */
  lemma Carry(es: seq<Event>, n: nat, s: Scope, kind: Kind, d: Description, time: Option<string>)
    requires Numbered(es, n) && kind != Finish
    ensures Continues(es, es + [Emitted(s, n + 1, kind, d, time)], n)
  {
    Step(es, n, s, kind, d, time);
  }

  /** Emitting two activity events in a row, neither a `finish`, carries the numbering on. */
  lemma CarryTwo(es: seq<Event>, n: nat, s: Scope, kind1: Kind, d1: Description, time1: Option<string>,
                 kind2: Kind, d2: Description, time2: Option<string>)
    requires Numbered(es, n) && kind1 != Finish && kind2 != Finish
    ensures Continues(es, es + [Emitted(s, n + 1, kind1, d1, time1)] + [Emitted(s, n + 2, kind2, d2, time2)], n)
  {
    var once := es + [Emitted(s, n + 1, kind1, d1, time1)];
    Carry(es, n, s, kind1, d1, time1);
    Carry(once, n + 1, s, kind2, d2, time2);
    ContinuesTransitive(es, once, once + [Emitted(s, n + 2, kind2, d2, time2)], n);
  }

  /** Emitting the summary keeps the numbering and adds one closing event and one summary. */
  lemma SummaryStep(es: seq<Event>, n: nat, summary: Summary)
    requires Numbered(es, n)
    ensures Numbered(es + [SummaryEvent(summary)], n)
    ensures Closings(es + [SummaryEvent(summary)]) == Closings(es) + 1
    ensures Summaries(es + [SummaryEvent(summary)]) == Summaries(es) + 1
  {
    NumberedAppend(es, n, SummaryEvent(summary));
    assert (es + [SummaryEvent(summary)])[..|es|] == es;
  }

  /**
   * `es` carries `prior` on from step `n`: the activity events it adds take the next
   * steps, and none of the events it adds closes the operation or is a summary.
   */
  ghost predicate Continues(prior: seq<Event>, es: seq<Event>, n: nat) {
    |prior| <= |es| && Numbered(es, n + (|es| - |prior|))
    && Closings(es) == Closings(prior) && Summaries(es) == Summaries(prior)
  }

  /** Carrying on twice is carrying on. */
  lemma ContinuesTransitive(a: seq<Event>, b: seq<Event>, c: seq<Event>, n: nat)
    requires Continues(a, b, n) && Continues(b, c, n + (|b| - |a|))
    ensures Continues(a, c, n)
  {
  }

  /** The fields the four parts fill in, as they stand at some point. */
  datatype Gathered = Gathered(
    createTblString: Option<string>,
    insertString: Option<string>,
    sourceTblRowCt: Option<string>,
    destTblCreated: Option<string>,
    data: Option<seq<BufferRow>>,
    tableSizeInCharacters: Option<int>,
    destTblRowCt: Option<nat>,
    endTime: Option<string>)

  /** What the four parts change on the operation: the counter, the two logs and the gathered fields. */
  datatype Progress = Progress(stepCount: nat, events: seq<Event>, calls: seq<DriverCall>, gathered: Gathered)

  /**
   * Progress `p` after a step that leaves the events `es` (which extend `p.events`), the
   * calls `calls` and the gathered fields `g`: the counter moves on by one per new event.
   */
  function Advanced(p: Progress, es: seq<Event>, calls: seq<DriverCall>, g: Gathered): Progress
    requires |es| >= |p.events|
  {
    Progress(p.stepCount + (|es| - |p.events|), es, calls, g)
  }

  /**
   * The summary record of the operation whose scope is `s`, with the given host and start
   * time, once its progress stands at `q`.
   */
  function SummaryAt(s: Scope, hostSystem: string, startTime: string, q: Progress): Summary {
    var g := q.gathered;
    OperationSummary(s.operationId, hostSystem, startTime, g.endTime, g.tableSizeInCharacters, q.stepCount,
                     s.source, s.destination, g.sourceTblRowCt, g.destTblRowCt, g.destTblCreated)
  }

  /** The shared operation object. */
  class Operation {
    const operationId: string
    const hostSystem: string
    const startTime: string
    const timeZone: JsValue
    var sourceDb: Endpoint
    var destinationDb: Endpoint
    var stepCount: nat
    var createTblString: Option<string>
    var insertString: Option<string>
    var sourceTblRowCt: Option<string>
    var destTblCreated: Option<string>
    var data: Option<seq<BufferRow>>
    var tableSizeInCharacters: Option<int>
    var destTblRowCt: Option<nat>
    var endTime: Option<string>
    var events: seq<Event>
    var calls: seq<DriverCall>

    /** The activity events carry the steps 1, 2, ..., stepCount, in emission order. */
    ghost predicate Valid()
      reads this
    {
      Numbered(events, stepCount)
    }

    /** What the parts have filled in so far. */
    function Gathering(): Gathered
      reads this`createTblString, this`insertString, this`sourceTblRowCt, this`destTblCreated, this`data,
            this`tableSizeInCharacters, this`destTblRowCt, this`endTime
    {
      Gathered(createTblString, insertString, sourceTblRowCt, destTblCreated, data, tableSizeInCharacters,
               destTblRowCt, endTime)
    }

    /** The counter, the logs and the gathered fields, as they stand. */
    function Snapshot(): Progress
      reads this`stepCount, this`events, this`calls, this`createTblString, this`insertString, this`sourceTblRowCt,
            this`destTblCreated, this`data, this`tableSizeInCharacters, this`destTblRowCt, this`endTime
    {
      Progress(stepCount, events, calls, Gathering())
    }

    /** The scope the next activity event is stamped with. */
    function CurrentScope(): Scope
      reads this`sourceDb, this`destinationDb
    {
      Scope(operationId, sourceDb, destinationDb)
    }

    /**
     * A new operation: endpoints resolved from the settings, time zone defaulted, step
     * counter at zero, nothing gathered yet. Id, host name and start time are supplied.
     */
    constructor(operationId: string, hostSystem: string, startTime: string, timeZone: JsValue,
                source: EndpointConfig, destination: EndpointConfig)
      ensures Valid()
      ensures this.operationId == operationId && this.hostSystem == hostSystem && this.startTime == startTime
      ensures this.timeZone == ZoneOrUtc(timeZone)
      ensures sourceDb == Resolve(source) && destinationDb == Resolve(destination)
      ensures stepCount == 0 && events == [] && calls == []
      ensures createTblString == None && insertString == None && sourceTblRowCt == None
      ensures destTblCreated == None && data == None && tableSizeInCharacters == None
      ensures destTblRowCt == None && endTime == None
    {
      this.operationId := operationId;
      this.hostSystem := hostSystem;
      this.startTime := startTime;
      this.timeZone := ZoneOrUtc(timeZone);
      sourceDb := Resolve(source);
      destinationDb := Resolve(destination);
      stepCount := 0;
      createTblString := None;
      insertString := None;
      sourceTblRowCt := None;
      destTblCreated := None;
      data := None;
      tableSizeInCharacters := None;
      destTblRowCt := None;
      endTime := None;
      events := [];
      calls := [];
    }

    /**
     * `activityMsg`: advance the step counter by one and emit an activity event under the
     * name `messageType` that carries the new step.
     */
    method EmitActivity(messageType: Kind, message: Description, time: Option<string>)
      modifies this`stepCount, this`events
      ensures stepCount == old(stepCount) + 1
      ensures events == old(events) + [Emitted(CurrentScope(), stepCount, messageType, message, time)]
    {
      stepCount := stepCount + 1;
      events := events + [ActivityRecord(operationId, destinationDb, messageType, stepCount, message, time)];
    }

    /** The summary record of the operation as it stands. */
    function Summary(): Summary
      reads this
    {
      SummaryAt(CurrentScope(), hostSystem, startTime, Snapshot())
    }

    /** `operationMsg`: emit the summary under the name `operation`; the step counter is left alone. */
    method EmitOperation()
      modifies this`events
      ensures events == old(events) + [SummaryEvent(Summary())]
    {
      events := events + [SummaryEvent(Summary())];
    }
  }
}
