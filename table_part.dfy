/**
 * Part two of a Postgres-to-Oracle clone (lib/operations/postgresToOracle.js, lines
 * 205-630): connect to the destination, and, under the overwrite policy `'yes'` or
 * `'no'`, ask whether the table exists and then create it, drop and re-create it, or
 * leave it alone. The parallel existence check through the helper module of Oracle tools
 * (lines 235-253) is not part of this model; only the inline check is.
 *
 * Each driver callback is a method; what it emits, what it sends and how it settles are
 * given by functions of the operation's scope, its step counter and the replies.
 */
module TablePart {
  import opened Js
  import opened Endpoints
  import opened Emitter
  import opened Context

  /**
   * The Oracle driver's replies in part two: to connect, to the existence check (the
   * `TABLEEXISTS` text of its first row), to the drop and to the create; and the time
   * stamp taken when the table has been created.
   */
  datatype TableReplies = TableReplies(connect: Outcome, existence: Res<string>, drop: Outcome, create: Outcome,
                                       created: string)

  /** The two policies under which anything is checked at all. */
  predicate Decisive(flag: JsValue) {
    flag == Str("yes") || flag == Str("no")
  }

  /** What the existence answer leads to. */
  datatype Plan = CreateTable | RebuildTable | KeepTable | NoDecision

  /**
   * The decision: an absent table is created under either policy; a present one is
   * dropped and re-created under `'yes'` and kept under `'no'`; any other answer leads
   * nowhere.
   */
  function Decide(flag: JsValue, answer: string): (p: Plan)
    ensures p == CreateTable <==> answer == "false"
    ensures p == RebuildTable <==> answer == "true" && flag == Str("yes")
    ensures p == KeepTable <==> answer == "true" && flag != Str("yes")
    ensures p == NoDecision <==> answer != "false" && answer != "true"
  {
    if answer == "false" then CreateTable
    else if answer == "true" then (if flag == Str("yes") then RebuildTable else KeepTable)
    else NoDecision
  }

  // ---------------------------------------------------------------------------------
  // The create callback.

  function CreateEvents(prior: seq<Event>, s: Scope, n: nat, create: Outcome, stamp: string): (es: seq<Event>)
    ensures |es| > |prior|
    ensures prior <= es
  {
    match create
    case Failed(e) => prior + [Emitted(s, n + 1, Error, Cause(e), None)]
    case Done =>
      prior + [Emitted(s, n + 1, Process, Message(TableCreated(s.destination)), Some(stamp))]
            + [Emitted(s, n + 2, Connection, Message(LinkChange(DestinationLink, s.destination, Closed)), None)]
  }

  function CreateEnd(create: Outcome): Settled<()> {
    if create.Failed? then Rejected(create.error) else Resolved(())
  }

  /**
   * The create callback: on success stamp `destTblCreated`, report the table created (at
   * that time), release the connection and resolve; on error report it, release and
   * reject.
   */
  method CreateCallback(op: Operation, create: Outcome, stamp: string) returns (end: Settled<()>)
    modifies op`stepCount, op`events, op`calls, op`destTblCreated
    ensures op.events == CreateEvents(old(op.events), op.CurrentScope(), old(op.stepCount), create, stamp)
    ensures op.stepCount - old(op.stepCount) == |op.events| - |old(op.events)|
    ensures op.calls == old(op.calls) + [Disconnect(Destination)]
    ensures op.destTblCreated == (if create.Done? then Some(stamp) else old(op.destTblCreated))
    ensures end == CreateEnd(create)
  {
    if create.Failed? {
      op.EmitActivity(Error, Cause(create.error), None);
      op.calls := op.calls + [Disconnect(Destination)];
      end := Rejected(create.error);
      return;
    }
    op.destTblCreated := Some(stamp);
    op.EmitActivity(Process, Message(TableCreated(op.destinationDb)), op.destTblCreated);
    op.calls := op.calls + [Disconnect(Destination)];
    op.EmitActivity(Connection, Message(LinkChange(DestinationLink, op.destinationDb, Closed)), None);
    end := Resolved(());
  }

  // ---------------------------------------------------------------------------------
  // The drop callback.

  function DropEvents(prior: seq<Event>, s: Scope, n: nat, drop: Outcome): (es: seq<Event>)
    ensures |es| == |prior| + 1
    ensures prior <= es
  {
    match drop
    case Failed(e) => prior + [Emitted(s, n + 1, Error, Cause(e), None)]
    case Done => prior + [Emitted(s, n + 1, Process, Message(TablePurged(s.destination)), None)]
  }

  /** The drop callback: report the table purged, or report the error, release and reject. */
  method DropCallback(op: Operation, drop: Outcome) returns (end: Settled<()>)
    modifies op`stepCount, op`events, op`calls
    ensures op.events == DropEvents(old(op.events), op.CurrentScope(), old(op.stepCount), drop)
    ensures op.stepCount == old(op.stepCount) + 1
    ensures op.calls == old(op.calls) + (if drop.Failed? then [Disconnect(Destination)] else [])
    ensures end == (if drop.Failed? then Rejected(drop.error) else Pending)
  {
    if drop.Failed? {
      op.EmitActivity(Error, Cause(drop.error), None);
      op.calls := op.calls + [Disconnect(Destination)];
      end := Rejected(drop.error);
      return;
    }
    op.EmitActivity(Process, Message(TablePurged(op.destinationDb)), None);
    end := Pending;
  }

  /** The drop, then the create: their events, one after the other. */
  function RebuildEvents(prior: seq<Event>, s: Scope, n: nat, drop: Outcome, create: Outcome, stamp: string): (es: seq<Event>)
    ensures |es| > |prior| + 1
    ensures prior <= es
  {
    CreateEvents(DropEvents(prior, s, n, drop), s, n + 1, create, stamp)
  }

  function RebuildEnd(drop: Outcome, create: Outcome): Settled<()> {
    First(if drop.Failed? then Rejected(drop.error) else Pending, CreateEnd(create))
  }

  /**
   * Drop and re-create an existing table: both statements are dispatched at once, the
   * drop first (the create is evaluated as the argument of the drop promise's `then`),
   * and their callbacks run in that order; the first settlement counts.
   */
  method Rebuild(op: Operation, drop: Outcome, create: Outcome, stamp: string) returns (end: Settled<()>)
    requires op.createTblString.Some?
    modifies op`stepCount, op`events, op`calls, op`destTblCreated
    ensures op.events == RebuildEvents(old(op.events), op.CurrentScope(), old(op.stepCount), drop, create, stamp)
    ensures op.stepCount - old(op.stepCount) == |op.events| - |old(op.events)|
    ensures op.calls == old(op.calls) + [Run(Destination, DropCascade(Text(op.destinationDb.tblName)), [])]
                                      + [Run(Destination, Prepared(op.createTblString.value), [])]
                                      + (if drop.Failed? then [Disconnect(Destination)] else [])
                                      + [Disconnect(Destination)]
    ensures op.destTblCreated == (if create.Done? then Some(stamp) else old(op.destTblCreated))
    ensures end == RebuildEnd(drop, create)
  {
    op.calls := op.calls + [Run(Destination, DropCascade(Text(op.destinationDb.tblName)), [])];
    op.calls := op.calls + [Run(Destination, Prepared(op.createTblString.value), [])];
    var dropped := DropCallback(op, drop);
    var created := CreateCallback(op, create, stamp);
    end := First(dropped, created);
  }

  // ---------------------------------------------------------------------------------
  // The existence-check callback.

  /** The events that follow an existence answer calling for `plan`. */
  function PlanEvents(prior: seq<Event>, s: Scope, n: nat, plan: Plan, r: TableReplies): (es: seq<Event>)
    ensures |es| >= |prior|
    ensures prior <= es
  {
    match plan
    case CreateTable => CreateEvents(prior, s, n, r.create, r.created)
    case RebuildTable => RebuildEvents(prior, s, n, r.drop, r.create, r.created)
    case KeepTable =>
      prior + [Emitted(s, n + 1, Connection, Message(LinkChange(DestinationLink, s.destination, Closed)), None)]
            + [Emitted(s, n + 2, Error, Message(CannotOverwrite(s.destination)), None)]
    case NoDecision => prior
  }

  function ExistsEvents(prior: seq<Event>, s: Scope, n: nat, r: TableReplies): (es: seq<Event>)
    ensures |es| >= |prior|
    ensures prior <= es
  {
    match r.existence
    case Err(e) => prior + [Emitted(s, n + 1, Error, Cause(e), None)]
    case Ok(answer) => PlanEvents(prior, s, n, Decide(s.destination.overwriteDestTbl, answer), r)
  }

  function ExistsCalls(prior: seq<DriverCall>, s: Scope, createTblString: string, r: TableReplies): seq<DriverCall> {
    match r.existence
    case Err(_) => prior + [Disconnect(Destination)]
    case Ok(answer) =>
      match Decide(s.destination.overwriteDestTbl, answer)
      case CreateTable => prior + [Run(Destination, Prepared(createTblString), [])] + [Disconnect(Destination)]
      case RebuildTable =>
        prior + [Run(Destination, DropCascade(Text(s.destination.tblName)), [])]
              + [Run(Destination, Prepared(createTblString), [])]
              + (if r.drop.Failed? then [Disconnect(Destination)] else [])
              + [Disconnect(Destination)]
      case KeepTable => prior + [Disconnect(Destination)]
      case NoDecision => prior
  }

  function ExistsEnd(flag: JsValue, r: TableReplies): Settled<()> {
    match r.existence
    case Err(e) => Rejected(e)
    case Ok(answer) =>
      match Decide(flag, answer)
      case CreateTable => CreateEnd(r.create)
      case RebuildTable => RebuildEnd(r.drop, r.create)
      case KeepTable => Resolved(())
      case NoDecision => Pending
  }

  /** Whether the create callback runs: after an answer that calls for a create. */
  predicate Creates(flag: JsValue, r: TableReplies) {
    r.existence.Ok? && Decide(flag, r.existence.value) in {CreateTable, RebuildTable}
  }

  /**
   * The existence callback: on error report it, release and reject; otherwise act on
   * the decision.
   */
  method ExistsCallback(op: Operation, r: TableReplies) returns (end: Settled<()>)
    requires op.createTblString.Some?
    modifies op`stepCount, op`events, op`calls, op`destTblCreated
    ensures op.events == ExistsEvents(old(op.events), op.CurrentScope(), old(op.stepCount), r)
    ensures op.stepCount - old(op.stepCount) == |op.events| - |old(op.events)|
    ensures op.calls == ExistsCalls(old(op.calls), op.CurrentScope(), op.createTblString.value, r)
    ensures op.destTblCreated
            == (if Creates(op.destinationDb.overwriteDestTbl, r) && r.create.Done? then Some(r.created)
                else old(op.destTblCreated))
    ensures end == ExistsEnd(op.destinationDb.overwriteDestTbl, r)
  {
    var dst := op.destinationDb;
    if r.existence.Err? {
      op.EmitActivity(Error, Cause(r.existence.error), None);
      op.calls := op.calls + [Disconnect(Destination)];
      end := Rejected(r.existence.error);
      return;
    }
    var answer := r.existence.value;
    if answer == "false" {
      op.calls := op.calls + [Run(Destination, Prepared(op.createTblString.value), [])];
      end := CreateCallback(op, r.create, r.created);
    } else if answer == "true" && dst.overwriteDestTbl == Str("yes") {
      end := Rebuild(op, r.drop, r.create, r.created);
    } else if answer == "true" {
      op.calls := op.calls + [Disconnect(Destination)];
      op.EmitActivity(Connection, Message(LinkChange(DestinationLink, dst, Closed)), None);
      op.EmitActivity(Error, Message(CannotOverwrite(dst)), None);
      end := Resolved(());
    } else {
      end := Pending;
    }
  }

  // ---------------------------------------------------------------------------------
  // The whole part.

  /** Everything part two emits. */
  function TableEvents(prior: seq<Event>, s: Scope, n: nat, r: TableReplies): (es: seq<Event>)
    ensures |es| > |prior|
    ensures prior <= es
  {
    match r.connect
    case Failed(e) => prior + [Emitted(s, n + 1, Error, Cause(e), None)]
    case Done =>
      var linked := prior + [Emitted(s, n + 1, Connection, Message(LinkChange(DestinationLink, s.destination, Open)), None)];
      if Decisive(s.destination.overwriteDestTbl) then ExistsEvents(linked, s, n + 1, r) else linked
  }

  /** Everything part two sends to the destination. */
  function TableCalls(prior: seq<DriverCall>, s: Scope, createTblString: string, r: TableReplies): seq<DriverCall> {
    var connecting := prior + [Connect(Destination)];
    if r.connect.Failed? || !Decisive(s.destination.overwriteDestTbl) then connecting
    else ExistsCalls(connecting + [Run(Destination, ExistsCheck(Text(s.destination.tblName)), [])],
                     s, createTblString, r)
  }

  /** How part two's promise ends under the policy `flag`. */
  function TableEnd(flag: JsValue, r: TableReplies): Settled<()> {
    if r.connect.Failed? then Rejected(r.connect.error)
    else if !Decisive(flag) then Pending
    else ExistsEnd(flag, r)
  }

  /** Whether part two stamps `destTblCreated`. */
  predicate TableCreatedBy(flag: JsValue, r: TableReplies) {
    r.connect.Done? && Decisive(flag) && Creates(flag, r) && r.create.Done?
  }

  /** What part two fills in: the creation time, when it creates the table. */
  function TableFills(g: Gathered, flag: JsValue, r: TableReplies): Gathered {
    if TableCreatedBy(flag, r) then g.(destTblCreated := Some(r.created)) else g
  }

  /** Part two, from progress `p`: the statement it runs to create the table is the one gathered. */
  function TableEffect(p: Progress, s: Scope, r: TableReplies): Progress
    requires p.gathered.createTblString.Some?
  {
    Advanced(p, TableEvents(p.events, s, p.stepCount, r), TableCalls(p.calls, s, p.gathered.createTblString.value, r),
             TableFills(p.gathered, s.destination.overwriteDestTbl, r))
  }

  /**
   * `createDestinationTable`. Only the step counter, the logs and `destTblCreated`
   * change; the statement run to create the table is the `createTblString` of part one.
   */
  method CreateDestinationTable(op: Operation, r: TableReplies) returns (end: Settled<()>)
    requires op.createTblString.Some?
    modifies op`stepCount, op`events, op`calls, op`destTblCreated
    ensures op.Snapshot() == TableEffect(old(op.Snapshot()), op.CurrentScope(), r)
    ensures end == TableEnd(op.destinationDb.overwriteDestTbl, r)
  {
    ghost var s, p := op.CurrentScope(), op.Snapshot();
    op.calls := op.calls + [Connect(Destination)];
    if r.connect.Failed? {
      op.EmitActivity(Error, Cause(r.connect.error), None);
      end := Rejected(r.connect.error);
      assert op.Gathering() == p.gathered;
      return;
    }
    op.EmitActivity(Connection, Message(LinkChange(DestinationLink, op.destinationDb, Open)), None);
    var flag := op.destinationDb.overwriteDestTbl;
    if flag == Str("yes") || flag == Str("no") {
      op.calls := op.calls + [Run(Destination, ExistsCheck(Text(op.destinationDb.tblName)), [])];
      end := ExistsCallback(op, r);
      assert op.events == TableEvents(p.events, s, p.stepCount, r);
      assert op.calls == TableCalls(p.calls, s, p.gathered.createTblString.value, r);
      assert op.Gathering() == TableFills(p.gathered, s.destination.overwriteDestTbl, r);
    } else {
      end := Pending;
      assert op.Gathering() == p.gathered;
    }
  }

  // ---------------------------------------------------------------------------------
  // Properties of part two.

  lemma CreateSteps(prior: seq<Event>, s: Scope, n: nat, create: Outcome, stamp: string)
    requires Numbered(prior, n)
    ensures Continues(prior, CreateEvents(prior, s, n, create, stamp), n)
  {
    match create
    case Failed(e) =>
      Step(prior, n, s, Error, Cause(e), None);
    case Done =>
      var made := Message(TableCreated(s.destination));
      Step(prior, n, s, Process, made, Some(stamp));
      var reported := prior + [Emitted(s, n + 1, Process, made, Some(stamp))];
      Step(reported, n + 1, s, Connection, Message(LinkChange(DestinationLink, s.destination, Closed)), None);
      ContinuesTransitive(prior, reported, CreateEvents(prior, s, n, create, stamp), n);
  }

  lemma RebuildSteps(prior: seq<Event>, s: Scope, n: nat, drop: Outcome, create: Outcome, stamp: string)
    requires Numbered(prior, n)
    ensures Continues(prior, RebuildEvents(prior, s, n, drop, create, stamp), n)
  {
    if drop.Failed? {
      Step(prior, n, s, Error, Cause(drop.error), None);
    } else {
      Step(prior, n, s, Process, Message(TablePurged(s.destination)), None);
    }
    var dropped := DropEvents(prior, s, n, drop);
    CreateSteps(dropped, s, n + 1, create, stamp);
    ContinuesTransitive(prior, dropped, CreateEvents(dropped, s, n + 1, create, stamp), n);
  }

  lemma KeepSteps(prior: seq<Event>, s: Scope, n: nat)
    requires Numbered(prior, n)
    ensures var es := prior + [Emitted(s, n + 1, Connection, Message(LinkChange(DestinationLink, s.destination, Closed)), None)]
                            + [Emitted(s, n + 2, Error, Message(CannotOverwrite(s.destination)), None)];
            Numbered(es, n + 2) && Closings(es) == Closings(prior) && Summaries(es) == Summaries(prior)
  {
    var closed := Message(LinkChange(DestinationLink, s.destination, Closed));
    Step(prior, n, s, Connection, closed, None);
    Step(prior + [Emitted(s, n + 1, Connection, closed, None)], n + 1, s,
         Error, Message(CannotOverwrite(s.destination)), None);
  }

  lemma {:induction false} PlanSteps(prior: seq<Event>, s: Scope, n: nat, plan: Plan, r: TableReplies)
    requires Numbered(prior, n)
    ensures Continues(prior, PlanEvents(prior, s, n, plan, r), n)
  {
    match plan
    case CreateTable =>
      assert PlanEvents(prior, s, n, plan, r) == CreateEvents(prior, s, n, r.create, r.created);
      CreateSteps(prior, s, n, r.create, r.created);
    case RebuildTable =>
      assert PlanEvents(prior, s, n, plan, r) == RebuildEvents(prior, s, n, r.drop, r.create, r.created);
      RebuildSteps(prior, s, n, r.drop, r.create, r.created);
    case KeepTable => KeepSteps(prior, s, n);
    case NoDecision =>
  }

  lemma ExistsSteps(prior: seq<Event>, s: Scope, n: nat, r: TableReplies)
    requires Numbered(prior, n)
    ensures Continues(prior, ExistsEvents(prior, s, n, r), n)
  {
    match r.existence
    case Err(e) => Step(prior, n, s, Error, Cause(e), None);
    case Ok(answer) => PlanSteps(prior, s, n, Decide(s.destination.overwriteDestTbl, answer), r);
  }

  lemma LinkedSteps(prior: seq<Event>, s: Scope, n: nat, r: TableReplies)
    requires Numbered(prior, n)
    ensures var linked := prior + [Emitted(s, n + 1, Connection, Message(LinkChange(DestinationLink, s.destination, Open)), None)];
            Continues(prior, if Decisive(s.destination.overwriteDestTbl) then ExistsEvents(linked, s, n + 1, r) else linked, n)
  {
    var link := Message(LinkChange(DestinationLink, s.destination, Open));
    Step(prior, n, s, Connection, link, None);
    var linked := prior + [Emitted(s, n + 1, Connection, link, None)];
    if Decisive(s.destination.overwriteDestTbl) {
      ExistsSteps(linked, s, n + 1, r);
      ContinuesTransitive(prior, linked, ExistsEvents(linked, s, n + 1, r), n);
    }
  }

  /** Part two carries the step numbering on and emits neither a `finish` nor a summary. */
  lemma TableSteps(prior: seq<Event>, s: Scope, n: nat, r: TableReplies)
    requires Numbered(prior, n)
    ensures Continues(prior, TableEvents(prior, s, n, r), n)
  {
    if r.connect.Failed? {
      Step(prior, n, s, Error, Cause(r.connect.error), None);
    } else {
      LinkedSteps(prior, s, n, r);
    }
  }

  /** How many times `cs` releases the destination connection. */
  function Releases(cs: seq<DriverCall>): nat {
    if cs == [] then 0 else Releases(cs[..|cs| - 1]) + (if cs[|cs| - 1] == Disconnect(Destination) then 1 else 0)
  }

  lemma ReleasesSnoc(cs: seq<DriverCall>, c: DriverCall)
    ensures Releases(cs + [c]) == Releases(cs) + (if c == Disconnect(Destination) then 1 else 0)
  {
    assert (cs + [c])[..|cs|] == cs;
  }

  /** The one case in which part two releases its connection twice. */
  predicate ReleasedTwice(flag: JsValue, r: TableReplies) {
    r.existence.Ok? && Decide(flag, r.existence.value) == RebuildTable && r.drop.Failed?
  }

  lemma ExistsReleases(prior: seq<DriverCall>, s: Scope, createTblString: string, r: TableReplies)
    ensures Releases(ExistsCalls(prior, s, createTblString, r))
            == Releases(prior) + (if ExistsEnd(s.destination.overwriteDestTbl, r).Pending? then 0
                                  else if ReleasedTwice(s.destination.overwriteDestTbl, r) then 2 else 1)
  {
    var drop := Run(Destination, DropCascade(Text(s.destination.tblName)), []);
    var create := Run(Destination, Prepared(createTblString), []);
    match r.existence
    case Err(_) =>
      ReleasesSnoc(prior, Disconnect(Destination));
    case Ok(answer) =>
      match Decide(s.destination.overwriteDestTbl, answer) {
        case CreateTable =>
          ReleasesSnoc(prior, create);
          ReleasesSnoc(prior + [create], Disconnect(Destination));
        case RebuildTable =>
          ReleasesSnoc(prior, drop);
          ReleasesSnoc(prior + [drop], create);
          var sent := prior + [drop] + [create];
          if r.drop.Failed? {
            ReleasesSnoc(sent, Disconnect(Destination));
            ReleasesSnoc(sent + [Disconnect(Destination)], Disconnect(Destination));
          } else {
            assert sent + [] == sent;
            ReleasesSnoc(sent, Disconnect(Destination));
          }
        case KeepTable =>
          ReleasesSnoc(prior, Disconnect(Destination));
        case NoDecision =>
      }
  }

  /**
   * What an existence answer sends: an absent table is created; a present one is, under
   * `'yes'`, dropped before it is re-created and, under `'no'`, sent no statement at all;
   * any other answer sends nothing further.
   */
  lemma ExistsDispatch(prior: seq<DriverCall>, s: Scope, createTblString: string, r: TableReplies)
    requires r.existence.Ok?
    ensures var sent := ExistsCalls(prior, s, createTblString, r);
            var plan := Decide(s.destination.overwriteDestTbl, r.existence.value);
            var create := Run(Destination, Prepared(createTblString), []);
            var drop := Run(Destination, DropCascade(Text(s.destination.tblName)), []);
            && prior <= sent
            && (plan == CreateTable ==> sent[|prior|..] == [create, Disconnect(Destination)])
            && (plan == RebuildTable ==>
                  && |sent| >= |prior| + 3 && sent[|prior|] == drop && sent[|prior| + 1] == create
                  && forall i :: |prior| + 2 <= i < |sent| ==> sent[i] == Disconnect(Destination))
            && (plan == KeepTable ==> sent[|prior|..] == [Disconnect(Destination)])
            && (plan == NoDecision ==> sent == prior)
  {
  }

  /**
   * Once connected, part two releases the destination connection exactly when its
   * promise settles, and once, except after a failed drop, when it releases it twice.
   */
  lemma TableReleasesWhenSettled(prior: seq<DriverCall>, s: Scope, createTblString: string, r: TableReplies)
    requires r.connect.Done?
    ensures Releases(TableCalls(prior, s, createTblString, r))
            == Releases(prior) + (if TableEnd(s.destination.overwriteDestTbl, r).Pending? then 0
                                  else if ReleasedTwice(s.destination.overwriteDestTbl, r) then 2 else 1)
  {
    ReleasesSnoc(prior, Connect(Destination));
    if Decisive(s.destination.overwriteDestTbl) {
      var check := Run(Destination, ExistsCheck(Text(s.destination.tblName)), []);
      ReleasesSnoc(prior + [Connect(Destination)], check);
      ExistsReleases(prior + [Connect(Destination)] + [check], s, createTblString, r);
    }
  }
}
