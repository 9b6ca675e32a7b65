/**
 * lib/CloneEngine.js: the object a caller builds from the two databases' connection
 * settings and then runs with a clone plan naming the two tables and the overwrite
 * policy.
 */
module CloneEngine {
  import opened Js
  import opened Endpoints
  import opened Context
  import opened Pipeline
  import Engine

  /** The clone plan `run` is given; any field may be absent. */
  datatype ClonePlan = ClonePlan(sourceTableName: JsValue, destinationTableName: JsValue, overwriteDestTblIfExists: JsValue)

  /**
   * How `run` ends: it throws (a missing plan field leads to a call of the undefined
   * `reject`), or it starts the engine and returns `undefined`; `end` records how the
   * engine's chain settled, which the original does not hand back.
   */
  datatype RunOutcome = Threw(error: string) | Started(end: Settled<()>)

  /** What calling the undefined `reject` throws. */
  const RejectIsNotDefined: string := "ReferenceError: reject is not defined"

  /** The two endpoints after `run` has bound what it could of the plan, and whether it bound all of it. */
  datatype Binding = Binding(source: Endpoint, destination: Endpoint, complete: bool)

  /**
   * `run`'s three bindings, in order, each of a truthy plan field; the first falsy field
   * throws, and the bindings made before it stay.
   */
  function Bind(source: Endpoint, destination: Endpoint, plan: ClonePlan): (b: Binding)
    ensures b.complete <==> Truthy(plan.sourceTableName) && Truthy(plan.destinationTableName)
                            && Truthy(plan.overwriteDestTblIfExists)
    ensures b.source == (if Truthy(plan.sourceTableName) then source.(tblName := plan.sourceTableName) else source)
    ensures b.destination.tblName
            == (if Truthy(plan.sourceTableName) && Truthy(plan.destinationTableName) then plan.destinationTableName
                else destination.tblName)
    ensures b.destination.overwriteDestTbl == (if b.complete then plan.overwriteDestTblIfExists else destination.overwriteDestTbl)
    ensures b.destination == destination.(tblName := b.destination.tblName, overwriteDestTbl := b.destination.overwriteDestTbl)
  {
    if !Truthy(plan.sourceTableName) then Binding(source, destination, false)
    else
      var src := source.(tblName := plan.sourceTableName);
      if !Truthy(plan.destinationTableName) then Binding(src, destination, false)
      else
        var dst := destination.(tblName := plan.destinationTableName);
        if !Truthy(plan.overwriteDestTblIfExists) then Binding(src, dst, false)
        else Binding(src, dst.(overwriteDestTbl := plan.overwriteDestTblIfExists), true)
  }

  class CloneEngine {
    /** The operation this engine runs. */
    const operation: Operation

    /**
     * The constructor: a new operation whose endpoints are resolved from the two sets of
     * connection settings, with the time zone defaulted. The id, the host name and the
     * start time stamp are supplied.
     */
    constructor(sourceTable: EndpointConfig, destTable: EndpointConfig, timeZone: JsValue, operationId: string,
                hostSystem: string, startTime: string)
      ensures fresh(operation)
      ensures operation.Valid()
      ensures operation.operationId == operationId && operation.hostSystem == hostSystem && operation.startTime == startTime
      ensures operation.timeZone == ZoneOrUtc(timeZone)
      ensures operation.sourceDb == Resolve(sourceTable) && operation.destinationDb == Resolve(destTable)
      ensures operation.stepCount == 0 && operation.events == [] && operation.calls == []
      ensures operation.Gathering() == Gathered(None, None, None, None, None, None, None, None)
    {
      operation := new Operation(operationId, hostSystem, startTime, timeZone, sourceTable, destTable);
    }

    /**
     * `run`: bind the plan to the endpoints, then start the engine; a missing plan field
     * throws before the engine starts, and then nothing else changes. The drivers' replies
     * are supplied.
     */
    method Run(plan: ClonePlan, r: Replies) returns (outcome: RunOutcome)
      modifies operation`sourceDb, operation`destinationDb, operation`stepCount, operation`events, operation`calls,
               operation`createTblString, operation`insertString, operation`sourceTblRowCt, operation`destTblCreated,
               operation`data, operation`tableSizeInCharacters, operation`destTblRowCt, operation`endTime
      requires operation.Valid()
      ensures operation.Valid()
      ensures var b := Bind(old(operation.sourceDb), old(operation.destinationDb), plan);
              operation.sourceDb == b.source && operation.destinationDb == b.destination
              && (outcome.Threw? <==> !b.complete)
      ensures outcome.Threw? ==> outcome.error == RejectIsNotDefined && operation.Snapshot() == old(operation.Snapshot())
      ensures outcome.Started? ==>
                && operation.Snapshot()
                   == Engine.EngineEffect(old(operation.Snapshot()), operation.CurrentScope(), operation.hostSystem,
                                          operation.startTime, r)
                && outcome.end == ChainEnd(operation.destinationDb.overwriteDestTbl, r)
    {
      if !Truthy(plan.sourceTableName) {
        return Threw(RejectIsNotDefined);
      }
      operation.sourceDb := operation.sourceDb.(tblName := plan.sourceTableName);
      if !Truthy(plan.destinationTableName) {
        return Threw(RejectIsNotDefined);
      }
      operation.destinationDb := operation.destinationDb.(tblName := plan.destinationTableName);
      if !Truthy(plan.overwriteDestTblIfExists) {
        return Threw(RejectIsNotDefined);
      }
      operation.destinationDb := operation.destinationDb.(overwriteDestTbl := plan.overwriteDestTblIfExists);
      var end := Engine.PostgresToOracle(operation, r);
      outcome := Started(end);
    }
  }

  /**
   * The engine starts exactly when all three plan fields are truthy, and then the
   * endpoints carry the plan: the two table names and the overwrite policy.
   */
  lemma BindCarriesPlan(source: Endpoint, destination: Endpoint, plan: ClonePlan)
    requires Bind(source, destination, plan).complete
    ensures var b := Bind(source, destination, plan);
            && b.source.tblName == plan.sourceTableName && b.destination.tblName == plan.destinationTableName
            && b.destination.overwriteDestTbl == plan.overwriteDestTblIfExists
            && b.source.connectString == source.connectString && b.destination.connectString == destination.connectString
  {
  }
}
