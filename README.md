# CloneEngine: a verified model of the Postgres-to-Oracle table clone

CloneEngine copies one table from a PostgreSQL database into an Oracle database. A caller
builds a `CloneEngine` from the two databases' connection settings, then runs it with a
clone plan. The plan names the source table, the destination table and the overwrite
policy. The run emits a `start` event and then chains four parts:

1. `generateTableDDLAndDML` reads the source table's column metadata. It builds an Oracle
   `CREATE TABLE` statement and a positional `INSERT` template, then counts the source rows.
2. `createDestinationTable` asks Oracle whether the table exists. Under the policy `'yes'`
   it creates the table, or drops and re-creates it. Under `'no'` it creates it or leaves
   it alone.
3. `copySourceDataIntoMemory` reads every source row into an in-memory buffer. Dates and
   booleans are turned into text.
4. `loadDataIntoDestinationTable` sends one insert per buffered row. It then counts the
   destination rows and reports whether the two counts match.

Every step emits an activity event numbered by the operation's step counter. When all four
parts resolve, a `finish` event and a summary record close the operation.

The model is written in Dafny, one module per piece of the system:

- `Js` (js.dfy): the JavaScript notions the code relies on. These are values that may be
  absent, truthiness, `'' + v`, `toUpperCase` (on ASCII letters only) and promise settlement.
- `Endpoints` (endpoints.dfy): the constructor's resolution of each database's settings.
- `Schema` (schema.dfy): the column-type translator and the statement builder.
- `Staging` (staging.dfy): the row-normalisation loop, shared by part three and `cacheTable`.
- `Emitter` (emitter.dfy): the activity and summary records.
- `Context` (context.dfy): the shared operation object, as a class. Its methods
  `EmitActivity` and `EmitOperation` advance the step counter and append to its event log.
  The class also keeps a log of driver calls, so the order of statements is visible.
- `OracleTransactions` (oracle.dfy) and `PostgresTransactions` (postgres.dfy): the canned
  transactions of lib/operations/transactions.
- `DdlPart`, `TablePart`, `CopyPart`, `LoadPart` (ddl_part.dfy, table_part.dfy,
  copy_part.dfy, load_part.dfy): the four parts. Each driver callback is a method on the
  operation. Each method is proved to leave the operation exactly as a specification
  function of the old state and the driver's replies says.
- `Pipeline` (pipeline.dfy): the chain of the four parts, and the `start` and `finish`
  events around it.
- `Operator` (operator.dfy) and `Engine` (engine.dfy): the two drivers of the chain.
- `CloneEngine` (clone_engine.dfy): the constructor and `run`.

Database drivers, clocks and identifiers are not called. Their answers are parameters: the
replies to connect, query and execute, and the time stamps and ids. A reply is `Ok`/`Done`
or an error with its text, and a promise ends `Resolved`, `Rejected` or `Pending` (never
settled).

Where the code and its documentation disagree, the model follows the code:

- No part skips anything. After the `'no'`-and-exists path, part two still resolves, so
  the copy and the load still run (`Pipeline.KeptTableDoesNotStopChain`).
- The inline create used by part two treats every error as fatal. Only the canned
  `createTable` tolerates ORA-00955.
- An unknown database make does not throw. Its connection string is the literal error
  text.
- A failed `SELECT *` in part three, or a failed count in part four, leaves its
  connection open.
- An overwrite policy other than `'yes'` or `'no'` leaves part two's promise pending.
  So does an existence answer other than `'true'` or `'false'`.
- `run` binds the plan fields one at a time. A missing field throws after the earlier
  fields have been bound.

The column separator counts metadata rows, not emitted columns. When the last metadata row
has an unsupported type, the statements end in `,\n)\n` and `, )`. The lemmas
`Schema.LastRowUnmappedKeepsComma` and `Schema.LastRowUnmappedKeepsPlaceholderComma`
state this behaviour as written.

## Model

| member | source | states |
|---|---|---|
| Js.Digits | lib/operations/postgresToOracle.js:889 | the decimal text of a count is non-empty and made only of the digits 0-9 |
| Js.DigitsRoundTrip | lib/Emitter.js:53 | reading back the decimal text of n gives n, so the rendering loses nothing |
| Js.Upper | lib/Emitter.js:20 | ASCII upper-casing keeps the length of the text |
| Js.UpperPointwise | lib/Emitter.js:20 | ASCII upper-casing maps `a`-`z` to `A`-`Z` one character at a time and leaves every other character as it is |
| Js.UpperHasNoLowercase | lib/Emitter.js:20 | no lower-case ASCII letter survives upper-casing |
| Js.UpperIdempotent | lib/Emitter.js:20 | ASCII upper-casing twice is the same as upper-casing once |
| Endpoints.Resolve | lib/CloneEngine.js:30-43 | make and user are kept exactly when truthy; the password is dropped exactly when undefined, null or 0; the name is the database, or the user for an Oracle-style make without a database; Oracle-style makes get `host:port/service` and `'postgres'` gets the `postgres://` URL; no table or policy is bound yet |
| Endpoints.ZoneOrUtc | lib/CloneEngine.js:29 | the time zone is the given one whenever that is truthy, and `'utc'` otherwise, so it is always truthy |
| Endpoints.NoSlashInUnresolved | lib/CloneEngine.js:35 | the error text given for an unknown make contains no `/` |
| Endpoints.SlashInEasyConnect | lib/CloneEngine.js:35 | every easy-connect string contains a `/` |
| Endpoints.SlashInPostgresUrl | lib/CloneEngine.js:35 | every Postgres URL contains a `/` |
| Endpoints.UnresolvedExactlyForUnknownMakes | lib/CloneEngine.js:35 | the connection string is the error text if and only if the make is neither `'oracle'`, absent, nor `'postgres'` |
| Schema.OracleType | lib/operations/postgresToOracle.js:86-109 | a metadata row gets an Oracle type exactly when its `udt_name` is one of the six supported names |
| Schema.TranslateRow | lib/operations/postgresToOracle.js:83-110 | one loop pass appends exactly the row's column clause and its placeholder, the comma omitted only for the last metadata row |
| Schema.BuildStatements | lib/operations/postgresToOracle.js:82-112 | the loop leaves exactly the `CREATE TABLE <dest> (` ... `)` text and the `INSERT INTO <dest> VALUES(` ... ` )` template built row by row from the metadata |
| Schema.MappedIndices | lib/operations/postgresToOracle.js:82-110 | the reference list of translated rows holds only indices of rows seen so far, strictly increasing (metadata order) |
| Schema.UnmappedAddsNothing | lib/operations/postgresToOracle.js:86-109 | a row of an unsupported type contributes neither a column clause nor a placeholder |
| Schema.MappedIndicesExactly | lib/operations/postgresToOracle.js:86-109 | a row is translated if and only if its type is in the type table |
| Schema.StatementsFollowMappedRows | lib/operations/postgresToOracle.js:82-110 | the column list and the placeholder list are both the concatenation over the same translated rows, in metadata order: one clause and one placeholder per translated row |
| Schema.TranslatedTexts | lib/operations/postgresToOracle.js:82-112 | both statements are their fixed frame around exactly the translated rows' clauses or placeholders, in metadata order |
| Schema.NoMappedRows | lib/operations/postgresToOracle.js:82-110 | when no row has a supported type, both lists stay empty |
| Schema.InnerClauseEndsWithComma | lib/operations/postgresToOracle.js:84 | a translated row other than the last metadata row ends its clause with `,\n` and its placeholder with `,` |
| Schema.ColumnsCommaEnded | lib/operations/postgresToOracle.js:84-110 | before the last metadata row, once any row has been translated, the column list ends with `,\n` |
| Schema.PlaceholdersCommaEnded | lib/operations/postgresToOracle.js:84-110 | before the last metadata row, once any row has been translated, the placeholder list ends with `,` |
| Schema.LastRowUnmappedKeepsComma | lib/operations/postgresToOracle.js:84-111 | when the last metadata row is unsupported and some row is supported, the `CREATE TABLE` text ends in `,\n)\n` |
| Schema.LastRowUnmappedKeepsPlaceholderComma | lib/operations/postgresToOracle.js:84-112 | in the same case the insert template ends in `, )` |
| Staging.Normalised | lib/operations/postgresToOracle.js:706-714 | null stays null, a date or a boolean becomes its text, any other value is copied unchanged, and no date or boolean survives |
| Staging.StagedRow | lib/operations/postgresToOracle.js:703-715 | a staged row has one entry per property of the result row, in key order, each the normalised value |
| Staging.StagedTable | lib/operations/postgresToOracle.js:699-719 | the buffer has one staged row per result row, in result order |
| Staging.StageRows | lib/operations/postgresToOracle.js:699-719 | the nested loops build exactly the staged table: one row per result row, one entry per column, each normalised |
| Emitter.ResolveTime | lib/Emitter.js:15 | an event carries the supplied time exactly when it is given and non-empty, and otherwise a generated stamp |
| Emitter.OperationSummary | lib/Emitter.js:32-54 | `rowCountsMatch` is `"yes"` if and only if the two counts compare equal, otherwise `"no"`; `stepsTaken`, `bytesCloned`, both row counts, `created` and `tableWasRebuilt` report the operation's fields verbatim; `operation` is the upper-cased destination table |
| Emitter.SummaryReports | lib/Emitter.js:33-50 | the summary carries the operation's id, host, start and end times; its description is `Clone <SRC> Table to <DESTDB> Database as <DEST>`, all three upper-cased; each endpoint report gives its name, make and table as they are |
| Emitter.DigitsAreDecimal | lib/Emitter.js:53 | the decimal text of a count reads as a decimal |
| Emitter.CountsEqualExactly | lib/Emitter.js:53 | comparing the source count (decimal text) with the destination count (a number) is true exactly when the counts are equal |
| Emitter.RowCountsMatchExactly | lib/Emitter.js:53 | the summary says `"yes"` exactly when source and destination row counts are equal |
| Context.InsertCalls | lib/operations/postgresToOracle.js:801-808 | the load sends exactly one insert per staged row |
| Context.InsertCallsPointwise | lib/operations/postgresToOracle.js:801-808 | the i-th insert runs the insert template binding the i-th staged row |
| Context.Step | lib/Emitter.js:17-25 | emitting the next activity event keeps the steps numbered 1..n in order, adds a closing event only for `finish`, and never adds a summary |
| Context.SummaryStep | lib/Emitter.js:32-42 | the summary leaves the step numbering unchanged and is one more closing event and one more summary |
| Context.Operation.constructor | lib/CloneEngine.js:21-47 | a new operation: endpoints resolved from the settings, time zone defaulted, step counter 0, no events, nothing gathered |
| Context.Operation.EmitActivity | lib/Emitter.js:10-26 | the step counter grows by exactly one and the one new event carries the new step, the message type, the upper-cased destination table and the supplied time |
| Context.Operation.EmitOperation | lib/Emitter.js:29-55 | one summary event of the operation as it stands is appended; the step counter is untouched |
| OracleTransactions.TableExists | lib/operations/transactions/Oracle.js:12-43 | runs the existence query on the given name; resolves true exactly on `'true'`; false exactly on `'false'` or ORA-00942; rejects with the error on any other error; stays pending on any other answer |
| OracleTransactions.TableExistsQueryNamesOneTable | lib/operations/transactions/Oracle.js:14-22 | different table names give different existence queries |
| OracleTransactions.ExistsAnswerSettles | lib/operations/transactions/Oracle.js:14-41 | for every table count the query's answer settles `tableExists`, true exactly when the count is positive |
| OracleTransactions.CreateTable | lib/operations/transactions/Oracle.js:68-91 | runs the operation's `createTblString`; never pending; rejects exactly on an error other than ORA-00955; resolves true exactly when `rowsAffected` is 0; ORA-00955 resolves false |
| OracleTransactions.DropTable | lib/operations/transactions/Oracle.js:96-114 | runs the operation's `dropTblString`; never pending; rejects exactly on an error; resolves true exactly when `rowsAffected` is 0 |
| OracleTransactions.TableRowCount | lib/operations/transactions/Oracle.js:48-63 | runs `SELECT count(rowid) AS count FROM <table>`; resolves with the count exactly when there is no error, otherwise rejects with the error |
| OracleTransactions.RowCountQueryNamesOneTable | lib/operations/transactions/Oracle.js:53 | different table names give different row-count queries |
| OracleTransactions.LoadVerdict | lib/operations/transactions/Oracle.js:122-139 | pending exactly when there are no rows; otherwise the first insert's reply decides: true when it succeeds, rejected with its error when it fails |
| OracleTransactions.LoadTable | lib/operations/transactions/Oracle.js:120-140 | the loop sends one insert per row, binding that row in order, and settles as the first insert's reply decides |
| PostgresTransactions.Relay | lib/operations/transactions/Postgres.js:14-19 | the promise resolves with the response exactly when there is no error, otherwise rejects with the error |
| PostgresTransactions.TableRowCount | lib/operations/transactions/Postgres.js:12-20 | sends `SELECT count(*) FROM <tbl>` and resolves with the count exactly when there is no error |
| PostgresTransactions.TableSpec | lib/operations/transactions/Postgres.js:24-43 | sends the metadata query filtered on the table name and resolves with the rows exactly when there is no error |
| PostgresTransactions.TableSpecQueryNamesOneTable | lib/operations/transactions/Postgres.js:25-35 | different table names give different metadata queries |
| PostgresTransactions.CacheTable | lib/operations/transactions/Postgres.js:48-81 | on success `data` is the staged table and `tableSizeInCharacters` the JSON length of the raw rows minus 2; on error it rejects and leaves both as they were; nothing else on the operation changes |
| DdlPart.CountEvents | lib/operations/postgresToOracle.js:127-166 | the count callback only appends to the events before it |
| DdlPart.CountSourceRows | lib/operations/postgresToOracle.js:127-171 | on success it records the source count, emits `rowsToProcess` and `CLOSED`, and resolves; on error it emits the error and rejects with it; it ends the connection either way |
| DdlPart.MetadataEvents | lib/operations/postgresToOracle.js:57-166 | the metadata callback only appends to the events before it |
| DdlPart.GatherMetadata | lib/operations/postgresToOracle.js:57-171 | on success it stores both statements built from the metadata for the destination table and goes on to the count; on error it reports it, ends the connection and rejects; it rejects with the first error |
| DdlPart.StoreStatements | lib/operations/postgresToOracle.js:75-127 | it stores the statements built from the metadata, emits the two `process` events, and sends the count query; nothing else changes |
| DdlPart.MetadataThenCount | lib/operations/postgresToOracle.js:75-171 | a successful metadata callback is the statements being stored followed by the count callback |
| DdlPart.DdlEvents | lib/operations/postgresToOracle.js:35-166 | part one only appends to the events before it |
| DdlPart.DdlEnd | lib/operations/postgresToOracle.js:35-171 | part one never hangs; it resolves if and only if connect, metadata and count all succeed; otherwise it rejects with the first error |
| DdlPart.GenerateTableDdlAndDml | lib/operations/postgresToOracle.js:23-177 | part one leaves the operation exactly as its specification says (events, calls, statements, source count) and ends as `DdlEnd` |
| DdlPart.ConnectThenMetadata | lib/operations/postgresToOracle.js:35-60 | a successful connect is the `OPENED` event and the metadata query, followed by the metadata callback |
| DdlPart.CountSteps | lib/operations/postgresToOracle.js:131-166 | the count callback's events carry the step numbering on and close nothing |
| DdlPart.MetadataSteps | lib/operations/postgresToOracle.js:61-166 | the metadata callback's events carry the step numbering on and close nothing |
| DdlPart.DdlSteps | lib/operations/postgresToOracle.js:39-166 | part one carries the step numbering on and emits neither `finish` nor a summary |
| DdlPart.DdlReleasesSource | lib/operations/postgresToOracle.js:27-158 | part one talks only to the source; it connects first and, once connected, always ends the connection last |
| TablePart.Decide | lib/operations/postgresToOracle.js:287-624 | create if and only if the answer is `'false'`; drop and re-create if and only if `'true'` under `'yes'`; keep if and only if `'true'` under any other policy; no decision for any other answer |
| TablePart.CreateEvents | lib/operations/postgresToOracle.js:292-360 | the create callback only appends to the events before it |
| TablePart.CreateCallback | lib/operations/postgresToOracle.js:292-360 | on success it stamps `destTblCreated`, reports the table created at that time, releases and resolves; on error it reports, releases and rejects |
| TablePart.DropEvents | lib/operations/postgresToOracle.js:373-404 | the drop callback adds exactly one event |
| TablePart.DropCallback | lib/operations/postgresToOracle.js:373-404 | on success it reports the table purged and leaves the promise unsettled; on error it reports, releases and rejects |
| TablePart.RebuildEvents | lib/operations/postgresToOracle.js:364-480 | the drop and then the create add at least two events after those before them |
| TablePart.Rebuild | lib/operations/postgresToOracle.js:364-480 | the DROP is dispatched before the create, the callbacks are taken to run in that order, the first settlement wins, and `destTblCreated` is stamped exactly when the create succeeds |
| TablePart.PlanEvents | lib/operations/postgresToOracle.js:287-624 | acting on the decision only appends to the events before it |
| TablePart.ExistsEvents | lib/operations/postgresToOracle.js:264-624 | the existence callback only appends to the events before it |
| TablePart.ExistsCallback | lib/operations/postgresToOracle.js:264-624 | on error it reports, releases and rejects; otherwise it acts on the decision; `destTblCreated` is stamped exactly when a create runs and succeeds |
| TablePart.TableEvents | lib/operations/postgresToOracle.js:209-624 | part two only appends to the events before it |
| TablePart.CreateDestinationTable | lib/operations/postgresToOracle.js:202-630 | part two leaves the operation exactly as its specification says (events, calls, `destTblCreated`) and ends as `TableEnd` |
| TablePart.CreateSteps | lib/operations/postgresToOracle.js:300-356 | the create callback carries the step numbering on and closes nothing |
| TablePart.RebuildSteps | lib/operations/postgresToOracle.js:377-474 | the drop and create callbacks carry the step numbering on and close nothing |
| TablePart.KeepSteps | lib/operations/postgresToOracle.js:593-624 | the `'no'`-and-exists path adds the `CLOSED` event and the `Unable overwrite` error event as the next two steps and closes nothing |
| TablePart.PlanSteps | lib/operations/postgresToOracle.js:287-624 | acting on any decision carries the step numbering on and closes nothing |
| TablePart.ExistsSteps | lib/operations/postgresToOracle.js:264-624 | the existence callback carries the step numbering on and closes nothing |
| TablePart.LinkedSteps | lib/operations/postgresToOracle.js:226-624 | the `OPEN` event and what follows it carry the step numbering on and close nothing |
| TablePart.TableSteps | lib/operations/postgresToOracle.js:209-624 | part two carries the step numbering on and emits neither `finish` nor a summary |
| TablePart.ExistsDispatch | lib/operations/postgresToOracle.js:287-624 | an absent table gets the create and then the release; under `'yes'` a present table gets the DROP before the create, then only releases; under `'no'` a present table gets no statement, only the release; any other answer sends nothing |
| TablePart.ExistsReleases | lib/operations/postgresToOracle.js:264-624 | after the existence check the connection is released once when the part settles, twice after a failed drop, and never while it stays pending |
| TablePart.TableReleasesWhenSettled | lib/operations/postgresToOracle.js:202-630 | once connected, part two releases the connection exactly when its promise settles: once, or twice after a failed drop |
| CopyPart.FetchEvents | lib/operations/postgresToOracle.js:683-741 | the query callback only appends to the events before it |
| CopyPart.FetchCallback | lib/operations/postgresToOracle.js:683-746 | on success it records the staged rows and their size, reports the copy, ends the connection and resolves; on error it reports and rejects, and leaves the connection open |
| CopyPart.CopyEvents | lib/operations/postgresToOracle.js:653-741 | part three only appends to the events before it |
| CopyPart.CopyEnd | lib/operations/postgresToOracle.js:653-746 | part three never hangs and resolves if and only if connect and query both succeed |
| CopyPart.CopySourceDataIntoMemory | lib/operations/postgresToOracle.js:644-750 | part three leaves the operation exactly as its specification says (events, calls, `data`, size) and ends as `CopyEnd` |
| CopyPart.CopySteps | lib/operations/postgresToOracle.js:659-741 | part three carries the step numbering on and emits neither `finish` nor a summary |
| CopyPart.FetchSteps | lib/operations/postgresToOracle.js:689-741 | the query callback carries the step numbering on and closes nothing |
| CopyPart.CopyReleasesExactlyOnSuccess | lib/operations/postgresToOracle.js:653-735 | the second source connection is ended if and only if the copy succeeds |
| LoadPart.DispatchInserts | lib/operations/postgresToOracle.js:801-840 | the loop sends exactly one insert per staged row, binding that row, in buffer order |
| LoadPart.VerifyEvents | lib/operations/postgresToOracle.js:853-924 | the count callback only appends to the events before it |
| LoadPart.VerifyCallback | lib/operations/postgresToOracle.js:853-934 | on success it records `destTblRowCt` and the end time, reports whether the counts match, releases and resolves whatever the comparison says; on error it reports and rejects, and leaves the connection open |
| LoadPart.RecordCount | lib/operations/postgresToOracle.js:883-933 | the successful count callback emits four events, the `countsMatch` one carrying the comparison of the source count with the new count, releases, and sets `destTblRowCt` and `endTime` |
| LoadPart.InsertAndCount | lib/operations/postgresToOracle.js:798-934 | every insert is sent before the count, and the count's reply decides the rest |
| LoadPart.LoadEvents | lib/operations/postgresToOracle.js:768-924 | part four only appends to the events before it |
| LoadPart.LoadEnd | lib/operations/postgresToOracle.js:768-934 | part four never hangs and resolves if and only if connect and count both succeed; the comparison of the counts plays no part |
| LoadPart.LoadDataIntoDestinationTable | lib/operations/postgresToOracle.js:760-939 | part four leaves the operation exactly as its specification says (events, calls, `destTblRowCt`, `endTime`) and ends as `LoadEnd` |
| LoadPart.CountedSteps | lib/operations/postgresToOracle.js:883-924 | the four events of a successful count carry the step numbering on and close nothing |
| LoadPart.VerifySteps | lib/operations/postgresToOracle.js:853-924 | the count callback carries the step numbering on and closes nothing |
| LoadPart.LoadSteps | lib/operations/postgresToOracle.js:768-924 | part four carries the step numbering on and emits neither `finish` nor a summary |
| LoadPart.LoadOrder | lib/operations/postgresToOracle.js:763-917 | once connected, part four connects, sends every staged row in order, then the count as the last statement, and releases if and only if the count succeeds |
| Pipeline.PartsResolved | lib/Operator.js:25-28 | a part counts as resolved only when every part before it has resolved |
| Pipeline.ChainEnd | lib/Engine.js:23-37 | the chain resolves if and only if all four parts resolve; otherwise it ends as the part that stopped it |
| Pipeline.CopyThenLoad | lib/Operator.js:27-28 | part three runs, then part four only when part three resolved |
| Pipeline.TableThenRest | lib/Operator.js:26-28 | part two runs, then parts three and four only when part two resolved |
| Pipeline.RunParts | lib/Operator.js:25-28 | the four parts run in order, each only when the one before resolved, and the operation ends as their composed effect |
| Pipeline.PartsGathered | lib/Operator.js:25-28 | each field the parts fill in holds that part's result exactly when the chain reached and passed the part, and otherwise keeps its old value |
| Pipeline.CopyOnCarries | lib/Operator.js:27-28 | parts three and four keep earlier events, carry the step numbering on and close nothing |
| Pipeline.TableOnCarries | lib/Operator.js:26-28 | parts two to four keep earlier events, carry the step numbering on and close nothing |
| Pipeline.PartsCarries | lib/Operator.js:25-28 | the chain keeps earlier events, counts every activity event it emits, and emits neither `finish` nor a summary |
| Pipeline.KeptTableDoesNotStopChain | lib/operations/postgresToOracle.js:593-624 | under `'no'` with the table present, part two creates nothing yet resolves, so the chain reaches part three |
| Pipeline.StartCarries | lib/Operator.js:18-22 | the `start` event comes right after the earlier events and takes the next step |
| Pipeline.FinishCloses | lib/Operator.js:34-40 | `finish` then the summary come last, in that order, keep the numbering, and are the two closing events added; the summary reports the final step count |
| Operator.PostgresToOracle | lib/Operator.js:13-46 | the run leaves the operation exactly as its specification says: `start`, the chain, then the closing callback only when the chain resolved; the activity events stay numbered 1 to the step count |
| Operator.Conclude | lib/Operator.js:31-40 | the end time is stamped, then `finish` carries it, then the summary of the operation as it then stands |
| Operator.ConcludedShape | lib/Operator.js:31-40 | the closing callback adds two events, `finish` with the stamped end time and then the summary, and sets `endTime` |
| Operator.ConcludedNumbering | lib/Operator.js:34-40 | the closing callback keeps the numbering and adds exactly two closing events, one of them a summary |
| Operator.ClosedShape | lib/Operator.js:18-45 | whatever the chain did, earlier events stay, `start` comes first, the numbering is kept, and the closing events are added only when the chain resolved |
| Operator.OperatorNumbering | lib/Operator.js:18-45 | the run keeps earlier events, begins with `start`, keeps the numbering, and adds `finish` and one summary if and only if all four parts resolve |
| Operator.OperatorFinish | lib/Operator.js:31-40 | when all four parts resolve, the run ends with `finish` carrying the end time it stamped, then the summary of the final state |
| Operator.OperatorSummary | lib/Operator.js:31-40 | the closing summary reports the end time, the final step count and both row counts, and says `"yes"` exactly when the counts match |
| Operator.OperatorStops | lib/Operator.js:42-45 | a part that does not resolve stops the run silently: no end time, and the fields of the later parts keep their old values |
| Engine.PostgresToOracle | lib/Engine.js:11-38 | the run leaves the operation exactly as its specification says: `start`, the chain, then `finish` and the summary only when the chain resolved; `end` records how the chain settled, while the original returns nothing and leaves a rejection unhandled; the activity events stay numbered 1 to the step count |
| Engine.Conclude | lib/Engine.js:28-35 | `finish` carries the end time the load left, then the summary of the operation as it then stands |
| Engine.WrappedShape | lib/Engine.js:16-37 | whatever the chain did, earlier events stay, `start` comes first, the numbering is kept, and the closing events are added only when the chain resolved |
| Engine.EngineNumbering | lib/Engine.js:16-37 | the run keeps earlier events, begins with `start`, keeps the numbering, and adds `finish` and one summary if and only if all four parts resolve |
| Engine.FinishShape | lib/Engine.js:28-35 | the closing callback adds two events, `finish` and then the summary, and changes no field |
| Engine.EngineFinish | lib/Engine.js:28-33 | when all four parts resolve, `finish` carries the end time stamped by part four, and the summary of the final state follows |
| CloneEngine.Bind | lib/CloneEngine.js:55-57 | binding completes if and only if all three plan fields are truthy; each field is bound only when it and every field before it are truthy; nothing else on the endpoints changes |
| CloneEngine.CloneEngine.constructor | lib/CloneEngine.js:17-49 | a new engine owns a fresh operation whose endpoints are resolved from the two settings, whose time zone is defaulted, and whose step counter is 0 |
| CloneEngine.CloneEngine.Run | lib/CloneEngine.js:53-62 | `run` binds what it can; it throws if and only if a plan field is falsy, and then nothing but the bindings changes; otherwise the engine's run follows and `run` returns `undefined`, the model recording how the chain settled; either way the activity events stay numbered 1 to the step count |
| CloneEngine.BindCarriesPlan | lib/CloneEngine.js:55-59 | when the engine starts, the endpoints carry the plan's two table names and its policy, and keep their connection strings |

## Left out

- Database drivers: `pg.Client` and `oracledb` are not called. Their replies to connect,
  query and execute are parameters.
- The parallel existence check through `./databases/oracle.js` (lib/operations/postgresToOracle.js:235-253) is not modelled. That module is not part of this model, and only the inline check is.
- Insert completion: the inserts of part four are dispatched without waiting, and the count follows them. An insert callback's error (its `ERROR!` event and its rejection) is not modelled, because when it would run relative to the count is not determined.
- Js.JsValue: a setting or plan value is absent, null, a string or a whole number; booleans (`overwriteDestTblIfExists: true`, `password: false`) and fractional numbers cannot be written. A string or number of the same truthiness stands in for them, and every branch of the code turns only on truthiness or on string equality.
- TablePart.Rebuild: assumes the drop callback runs before the create callback, in dispatch order. The two statements go to one Oracle connection, which executes them one after the other, but the original does not wait for the drop before sending the create.
- Emitter.CountsEqual: reads only plain decimal text as a number. JavaScript `==` also gives `"" == 0`, `" 7" == 7` and `"7.0" == 7`; the Postgres driver hands `count(*)` over as plain digits, so the counts the clone compares are unaffected.
- Engine.PostgresToOracle and CloneEngine.CloneEngine.Run: the settlement they return is a record of the model. The original `postgresToOracle` and `run` return `undefined`, and a part's rejection is an unhandled rejection no caller sees.
- OracleTransactions.LoadVerdict: assumes the insert callbacks run in dispatch order. The first reply to arrive decides in the original.
- The drop promise of the `'yes'` rebuild never settles. The model dispatches the create at once, as the original does, and gives the drop no settlement of its own.
- Unreachable code after `return` (lib/operations/postgresToOracle.js:865-878 and the matching lines of the insert callback) is left out.
- Reads of an absent `response` after a reported error in lib/operations/transactions are not modelled. The promise has already settled, and the TypeError they raise is not modelled.
- Release and end errors (`connErr`) are not modelled: every release succeeds. Their callbacks run after the part has settled and would only add an `ERROR!` event.
- Js.Upper: only the ASCII letters `a`-`z` are mapped; every other character is kept. JavaScript's `toUpperCase` maps every cased Unicode letter (`é` to `É`), and its special casings can lengthen a name (`ß` becomes `SS`), so for names outside ASCII the model's upper-cased texts differ from the original's and keep the length the original may change.
- Js.UpperPointwise: the one-character-at-a-time mapping holds for the ASCII upper-casing only; JavaScript's special casings turn one character into several.
- `toUpperCase` on a name that is not a string: the model upper-cases the name's text. The original throws a TypeError when the name is absent or a number.
- Time stamps, unique ids, the host name and `new Date()` are parameters. This covers `tools.timeStamp`, `tools.getUniqueID` and `os.hostname`. lib/tools.js is not part of this model.
- The activity id of each event and the `secondsTaken` field of the summary (a floating-point division of dates) are not modelled.
- `JSON.stringify` and `Date.prototype.toString` are taken as given functions, not interpreted.
- Event delivery through the inherited EventEmitter is not modelled. Emitted events are appended to the operation's event log instead.
- lib/Engine.js takes its parts from lib/engineInventory/postgresToOracle.js, which is not part of this model. The model takes them to be the four parts of lib/operations/postgresToOracle.js.
- `endTimeValue` and `startTimeValue` (Date objects) are not modelled, only the `endTime` and `startTime` stamps.
