/**
 * The event records of lib/Emitter.js: the activity event every step of an operation
 * emits (`activityMsg`) and the summary record emitted once at the end (`operationMsg`).
 * The step counter they share lives on the operation (see module Context).
 */
module Emitter {
  import opened Js
  import opened Endpoints

  /** The names activity events are emitted under (`messageType`). */
  datatype Kind = Start | Connection | Process | RowsToProcess | CountsMatch | Finish | Error

  function KindName(k: Kind): string {
    match k
    case Start => "start"
    case Connection => "connection"
    case Process => "process"
    case RowsToProcess => "rowsToProcess"
    case CountsMatch => "countsMatch"
    case Finish => "finish"
    case Error => "ERROR!"
  }

  /** The three connections a clone opens, as the connection messages name them. */
  datatype Link = Connection1 | Connection2 | DestinationLink

  datatype LinkStatus = Opened | Open | Closed

  /**
   * The message texts the clone emits, one template per message; `Render` spells each
   * out. Names of databases and tables are those of the endpoint at emission time.
   */
  datatype Msg =
    | ConnectFailed(db: Endpoint, error: string)
    | QueryFailed(db: Endpoint, error: string)
    | LinkChange(link: Link, db: Endpoint, status: LinkStatus)
    | MetadataGathered(db: Endpoint)
    | StatementsGenerated
    | Verbatim(text: string)
    | TableCreated(db: Endpoint)
    | TablePurged(db: Endpoint)
    | CannotOverwrite(db: Endpoint)
    | CopyBegun(db: Endpoint)
    | CopyComplete(size: int)
    | LoadBegun(db: Endpoint)
    | LoadComplete(rows: nat)
    | CheckRowCount
    | OperatorBegun(db: Endpoint)
    | OperatorComplete(db: Endpoint)
    | EngineBegun(source: Endpoint, destination: Endpoint)
    | EngineComplete(source: Endpoint)

  function LinkName(link: Link): string {
    match link
    case Connection1 => "Connection1"
    case Connection2 => "Connection2"
    case DestinationLink => "Connection"
  }

  function StatusName(status: LinkStatus): string {
    match status
    case Opened => "OPENED"
    case Open => "OPEN"
    case Closed => "CLOSED"
  }

  /** `<make> <NAME>`: how messages name a database. */
  function DatabaseTitle(db: Endpoint): string {
    Text(db.make) + " " + Upper(Text(db.name))
  }

  /** How messages name a table: upper-cased. */
  function TableTitle(db: Endpoint): string {
    Upper(Text(db.tblName))
  }

  /** The text of a message. */
  function Render(m: Msg): string {
    match m
    case ConnectFailed(db, e) => "Attempting to connect with " + DatabaseTitle(db) + " yielded the following error: " + e
    case QueryFailed(db, e) => "Attempting to query " + DatabaseTitle(db) + " yielded the following error: " + e
    case LinkChange(link, db, status) => LinkName(link) + " to " + DatabaseTitle(db) + " database " + StatusName(status)
    case MetadataGathered(db) => TableTitle(db) + " table metadata gathered"
    case StatementsGenerated => "SQL strings generated"
    case Verbatim(text) => text
    case TableCreated(db) => TableTitle(db) + " table created"
    case TablePurged(db) => TableTitle(db) + " table purged"
    case CannotOverwrite(db) => "Unable overwrite " + Text(db.tblName) + " table"
    case CopyBegun(db) => "Begin copying " + TableTitle(db) + " table into memory"
    case CopyComplete(size) => "Copying complete -- " + DecimalText(size) + " bytes of data copied into memory"
    case LoadBegun(db) => "Loading data into the " + TableTitle(db) + " table"
    case LoadComplete(rows) => "Data loaded -- " + Digits(rows) + " rows inserted"
    case CheckRowCount => "Check row count"
    case OperatorBegun(db) => "Begin " + TableTitle(db) + " cloning operation"
    case OperatorComplete(db) => TableTitle(db) + " cloning operation complete"
    case EngineBegun(src, dst) =>
      "Begin cloning " + TableTitle(src) + " table into " + Upper(Text(dst.name)) + " database as " + TableTitle(dst)
    case EngineComplete(src) => "Cloning operation for " + TableTitle(src) + " table complete"
  }

  /** What an activity event describes: a message, a boolean verdict, or a driver error. */
  datatype Description = Message(msg: Msg) | Flag(b: bool) | Cause(error: string)

  /** An event's time: the one the caller supplied, or a stamp the emitter generates itself. */
  datatype EventTime = Given(stamp: string) | Generated

  /** `time ? time : tools.timeStamp(zone)`: a supplied time is used only when truthy. */
  function ResolveTime(time: Option<string>): (t: EventTime)
    ensures t.Given? <==> time.Some? && time.value != ""
    ensures t.Given? ==> time == Some(t.stamp)
  {
    if time.Some? && time.value != "" then Given(time.value) else Generated
  }

  /**
   * The payload of an activity event (its `activityId`, a fresh unique id, is not
   * modelled). The event is emitted under the name of its `msgType`.
   */
  datatype Activity = Activity(
    operationId: string,
    operation: string,
    msgType: Kind,
    step: nat,
    time: EventTime,
    description: Description)

  datatype SourceReport = SourceReport(name: JsValue, make: JsValue, table: JsValue, rows: Option<string>)

  datatype DestinationReport = DestinationReport(
    name: JsValue,
    make: JsValue,
    table: JsValue,
    rows: Option<nat>,
    created: Option<string>,
    tableWasRebuilt: JsValue)

  /** The payload of the `operation` event (its `secondsTaken` is not modelled). */
  datatype Summary = Summary(
    operation: string,
    operationId: string,
    description: string,
    msgType: string,
    hostSystem: string,
    startTime: string,
    endTime: Option<string>,
    bytesCloned: Option<int>,
    stepsTaken: nat,
    sourceDb: SourceReport,
    destinationDb: DestinationReport,
    rowCountsMatch: string)

  /** An emitted event: an activity event or the summary record. */
  datatype Event = ActivityEvent(activity: Activity) | SummaryEvent(summary: Summary)

  /** The name an event is emitted under. */
  function EventName(e: Event): string {
    match e
    case ActivityEvent(a) => KindName(a.msgType)
    case SummaryEvent(_) => "operation"
  }

  predicate IsDecimal(s: string) {
    |s| > 0 && forall i :: 0 <= i < |s| ==> '0' <= s[i] <= '9'
  }

  /**
   * JavaScript `==` between the source count (the Postgres driver hands `count(*)` over as
   * decimal text) and the destination count (a number): only plain decimal text is read
   * as a number. Two absent counts are equal (`undefined == undefined`).
   */
  function CountsEqual(sourceCount: Option<string>, destCount: Option<nat>): bool {
    match (sourceCount, destCount)
    case (None, None) => true
    case (Some(s), Some(n)) => IsDecimal(s) && ReadDigits(s) == n
    case _ => false
  }

  /** The activity record `activityMsg` emits for the operation's next step. */
  function ActivityRecord(operationId: string, destination: Endpoint, messageType: Kind, step: nat,
                          message: Description, time: Option<string>): Event
  {
    ActivityEvent(Activity(operationId, TableTitle(destination), messageType, step, ResolveTime(time), message))
  }

  /** `Clone <SRC> Table to <DESTDB> Database as <DEST>`. */
  function SummaryDescription(source: Endpoint, destination: Endpoint): string {
    "Clone " + TableTitle(source) + " Table to " + Upper(Text(destination.name)) + " Database as " + TableTitle(destination)
  }

  /**
   * The summary record `operationMsg` emits: it reports the counters and fields of the
   * operation as they stand, and derives `rowCountsMatch` from the two row counts.
   */
  function OperationSummary(operationId: string, hostSystem: string, startTime: string, endTime: Option<string>,
                            bytesCloned: Option<int>, stepCount: nat, source: Endpoint, destination: Endpoint,
                            sourceRows: Option<string>, destRows: Option<nat>, created: Option<string>): (r: Summary)
    ensures r.rowCountsMatch in {"yes", "no"}
    ensures r.rowCountsMatch == "yes" <==> CountsEqual(sourceRows, destRows)
    ensures r.stepsTaken == stepCount && r.bytesCloned == bytesCloned
    ensures r.destinationDb.tableWasRebuilt == destination.overwriteDestTbl
    ensures r.destinationDb.rows == destRows && r.sourceDb.rows == sourceRows && r.destinationDb.created == created
    ensures r.operation == TableTitle(destination) && r.msgType == "operation"
  {
    Summary(TableTitle(destination), operationId, SummaryDescription(source, destination), "operation",
            hostSystem, startTime, endTime, bytesCloned, stepCount,
            SourceReport(source.name, source.make, source.tblName, sourceRows),
            DestinationReport(destination.name, destination.make, destination.tblName, destRows, created,
                              destination.overwriteDestTbl),
            if CountsEqual(sourceRows, destRows) then "yes" else "no")
  }

  /**
   * The summary identifies the operation (its id, the host, the start and end times),
   * describes the clone as `Clone <SRC> Table to <DESTDB> Database as <DEST>` with the
   * source table, the destination database and the destination table upper-cased, and
   * reports each endpoint's name, make and table as they are.
   */
  lemma SummaryReports(operationId: string, hostSystem: string, startTime: string, endTime: Option<string>,
                       bytesCloned: Option<int>, stepCount: nat, source: Endpoint, destination: Endpoint,
                       sourceRows: Option<string>, destRows: Option<nat>, created: Option<string>)
    ensures var r := OperationSummary(operationId, hostSystem, startTime, endTime, bytesCloned, stepCount, source,
                                      destination, sourceRows, destRows, created);
            && r.operationId == operationId && r.hostSystem == hostSystem
            && r.startTime == startTime && r.endTime == endTime
            && r.description
               == "Clone " + Upper(Text(source.tblName)) + " Table to " + Upper(Text(destination.name)) + " Database as "
                  + Upper(Text(destination.tblName))
            && r.sourceDb == SourceReport(source.name, source.make, source.tblName, sourceRows)
            && r.destinationDb
               == DestinationReport(destination.name, destination.make, destination.tblName, destRows, created,
                                    destination.overwriteDestTbl)
  {
  }

  /** The decimal text of a count is a decimal. */
  lemma DigitsAreDecimal(m: nat)
    ensures IsDecimal(Digits(m))
  {
  }

  /**
   * For counts as the drivers report them (the source's as decimal text, the
   * destination's as a number) the comparison is exact: equal iff the counts are equal.
   */
  lemma CountsEqualExactly(m: nat, n: nat)
    ensures CountsEqual(Some(Digits(m)), Some(n)) <==> m == n
  {
    DigitsAreDecimal(m);
    DigitsRoundTrip(m);
  }

  /** The summary says the counts match exactly when the source and destination counts agree. */
  lemma RowCountsMatchExactly(operationId: string, hostSystem: string, startTime: string, endTime: Option<string>,
                              bytesCloned: Option<int>, stepCount: nat, source: Endpoint, destination: Endpoint,
                              m: nat, n: nat, created: Option<string>)
    ensures OperationSummary(operationId, hostSystem, startTime, endTime, bytesCloned, stepCount, source, destination,
                             Some(Digits(m)), Some(n), created).rowCountsMatch
            == (if m == n then "yes" else "no")
  {
    CountsEqualExactly(m, n);
  }
}
