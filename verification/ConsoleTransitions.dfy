/** Every operation of the console store as a function on the table: guards, new row, outcome. */
module ConsoleTransitions {
  import opened Basics
  import opened ConsoleTriggers

  type Table = map<WorkflowId, Workflow>

  /** The operation's own clock reading, then the readings of its first and second row fetch. */
  datatype Clock = Clock(now: Time, fetch: Time, refetch: Time)

  datatype Retention = Retention(ordinary: nat, receipt: nat)

  datatype Outcome = Done(row: Workflow) | NotFound | Conflict | Rejected | Count(n: nat)

  datatype Op =
    | Create(id: WorkflowId, user: User, schema: Schema, text: string, key: Key)
    | BeginExtraction(id: WorkflowId, user: User, expected: Option<nat>)
    | ReviseSource(id: WorkflowId, user: User, text: string, schema: Schema, expected: Option<nat>)
    | FinishExtraction(id: WorkflowId, user: User, proposal: Option<Proposal>, errors: seq<string>)
    | FailExtraction(id: WorkflowId, user: User, note: Note)
    | Freeze(id: WorkflowId, user: User, input: CaptureInput, expected: Option<nat>)
    | BeginRetry(id: WorkflowId, user: User, expected: Option<nat>)
    | RecordResponse(id: WorkflowId, user: User, receipt: PredictionId)
    | RecordFailure(id: WorkflowId, user: User, verdict: WorkflowState, note: Note)
    | Cancel(id: WorkflowId, user: User, expected: Option<nat>)

  predicate VersionFits(w: Workflow, expected: Option<nat>) {
    expected.Some? ==> w.version == expected.value
  }

  predicate Unexpired(w: Workflow, t: Time) {
    w.expires.Some? ==> t < w.expires.value
  }

  /** `finish_extraction` and `fail_extraction` fetch without the expiry test. */
  predicate IgnoresExpiry(op: Op) {
    op.FinishExtraction? || op.FailExtraction?
  }

  function ExpectedVersion(op: Op): Option<nat> {
    match op
    case BeginExtraction(_, _, v) => v
    case ReviseSource(_, _, _, _, v) => v
    case Freeze(_, _, _, v) => v
    case BeginRetry(_, _, v) => v
    case Cancel(_, _, v) => v
    case _ => None
  }

  /** The Python guards, past the fetch. */
  predicate Guard(op: Op, w: Workflow) {
    && VersionFits(w, ExpectedVersion(op))
    && match op
       case Create(_, _, _, _, _) => false
       case BeginExtraction(_, _, _) => w.state == Editing
       case ReviseSource(_, _, _, schema, _) => w.state == Editing && schema == w.schema
       case FinishExtraction(_, _, _, _) => w.state == Extracting
       case FailExtraction(_, _, _) => w.state == Extracting
       case Freeze(_, _, input, _) =>
         w.state == Reviewing && input.schema == w.schema && w.proposal.Some?
             && input.schemaHash == w.proposal.value.schemaHash
       case BeginRetry(_, _, _) => w.state == Uncertain || w.state == RetryableFailure
       case RecordResponse(_, _, _) => w.state == Submitting
       case RecordFailure(_, _, _, _) => w.state == Submitting
       case Cancel(_, _, _) => w.state == Editing || w.state == Reviewing
  }

  function Touch(w: Workflow, now: Time): Workflow {
    w.(updated := now, version := w.version + 1)
  }

  /** The rows an operation writes, one per UPDATE statement. */
  function Writes(op: Op, w: Workflow, now: Time, keep: Retention): seq<Workflow>
    requires !op.Create?
  {
    match op
    case BeginExtraction(_, _, _) => [Touch(w, now).(state := Extracting, error := None)]
    case ReviseSource(_, _, text, _, _) =>
      [Touch(w, now).(source := Some(text), proposal := None, error := None, expires := Some(now + keep.ordinary))]
    case FinishExtraction(_, _, proposal, errors) =>
      if proposal.Some?
          then [Touch(w, now).(state := Reviewing, proposal := proposal, error := None,
          expires := Some(now + keep.ordinary))]
      else [Touch(w, now).(state := Editing, proposal := None, error := Some(Note("extraction_unable", errors)),
          expires := Some(now + keep.ordinary))]
    case FailExtraction(_, _, note) =>
      [Touch(w, now).(state := Editing, proposal := None, error := Some(note), expires := Some(now + keep.ordinary))]
    case Freeze(_, _, input, _) =>
      var frozen := Touch(w, now).(state := Frozen, frozen := Some(FrozenRequest(w.key, input)), expires := None,
          error := None);
      [frozen, Touch(frozen, now).(state := Submitting)]
    case BeginRetry(_, _, _) => [Touch(w, now).(state := Submitting, error := None, expires := None)]
    case RecordResponse(_, _, id) =>
      [Touch(w, now).(state := Committed, receipt := Some(id), error := None, expires := Some(now + keep.receipt))]
    case RecordFailure(_, _, verdict, note) =>
      [Touch(w, now).(state := verdict, error := Some(note),
                      expires := if verdict == TerminalFailure then Some(now + keep.ordinary) else None)]
    case Cancel(_, _, _) =>
      [Touch(w, now).(state := Cancelled, source := None, proposal := None, error := None,
          expires := Some(now + keep.ordinary))]
  }

  predicate FailureState(s: WorkflowState) {
    s in {Uncertain, RetryableFailure, TerminalFailure}
  }

  function Last(s: seq<Workflow>): Workflow
    requires s != []
  {
    s[|s| - 1]
  }

  function Fresh(op: Op, now: Time, keep: Retention): Workflow
    requires op.Create?
  {
    Workflow(op.user, op.schema, op.key, now, Editing, Some(op.text), None, None, None, None, now,
        Some(now + keep.ordinary), 0)
  }

  predicate KeyTaken(rows: Table, key: Key) {
    exists id :: id in rows && rows[id].key == key
  }

  /** INSERT: both keys are free and `workflows_insert_starts_editing` lets the row in. */
  predicate InsertAccepted(rows: Table, id: WorkflowId, n: Workflow) {
    id !in rows && !KeyTaken(rows, n.key) && InsertStartsEditing(n)
  }

  function CreateWorkflow(rows: Table, op: Op, t: Clock, keep: Retention): (Table, Outcome)
    requires op.Create?
  {
    var w := Fresh(op, t.now, keep);
    if !InsertAccepted(rows, op.id, w) then (rows, Rejected)
    else if Unexpired(w, t.fetch) then (rows[op.id := w], Done(w)) else (rows, NotFound)
  }

  /** One transaction of the store; every exceptional exit rolls it back. */
  function Apply(rows: Table, op: Op, t: Clock, keep: Retention): (Table, Outcome) {
    if op.Create? then CreateWorkflow(rows, op, t, keep)
    else if op.RecordFailure? && !FailureState(op.verdict) then (rows, Rejected)
    else if op.id !in rows || rows[op.id].user != op.user then (rows, NotFound)
    else
      var w := rows[op.id];
      if !IgnoresExpiry(op) && !Unexpired(w, t.fetch) then (rows, NotFound)
      else if op.Freeze? && w.state == Committed then (rows, Done(w))
      else if !Guard(op, w) then (rows, Conflict)
      else
        var n := Last(Writes(op, w, t.now, keep));
        if Unexpired(n, t.refetch) then (rows[op.id := n], Done(n)) else (rows, NotFound)
  }

  const REPLAY_NOTE := Note("console_restarted", ["capture outcome requires exact replay"])
  const REEXTRACT_NOTE := Note("console_restarted", ["extraction may be started again"])

  function Abandoned(w: Workflow, now: Time, keep: Retention): Workflow {
    if w.state == Submitting then
      Touch(w, now).(state := Uncertain, error := Some(REPLAY_NOTE), expires := None)
    else if w.state == Extracting then
      Touch(w, now).(state := Editing, error := Some(REEXTRACT_NOTE), expires := Some(now + keep.ordinary))
    else w
  }

  /** `recover_abandoned_workflows` */
  function RecoverAbandoned(rows: Table, now: Time, keep: Retention): Table {
    map id | id in rows :: Abandoned(rows[id], now, keep)
  }

  function InState(rows: Table, state: WorkflowState): set<WorkflowId> {
    set id | id in rows && rows[id].state == state
  }

  /** Recovery part of the way: the rows of `todo` are still to be looked at. */
  function RecoverPart(rows: Table, todo: set<WorkflowId>, now: Time, keep: Retention): Table {
    map id | id in rows :: if id in todo then rows[id] else Abandoned(rows[id], now, keep)
  }

  lemma RecoverNoneYet(rows: Table, now: Time, keep: Retention)
    ensures RecoverPart(rows, rows.Keys, now, keep) == rows
            && RecoverPart(rows, {}, now, keep) == RecoverAbandoned(rows, now, keep)
  {
  }

  lemma RecoverOneMore(rows: Table, todo: set<WorkflowId>, id: WorkflowId, now: Time, keep: Retention)
    requires id in todo && todo <= rows.Keys
    ensures id in RecoverPart(rows, todo, now, keep) && RecoverPart(rows, todo, now, keep)[id] == rows[id]
    ensures RecoverPart(rows, todo, now, keep)[id := Abandoned(rows[id], now, keep)]
            == RecoverPart(rows, todo - {id}, now, keep)
  {
  }

  predicate Disposable(w: Workflow, now: Time) {
    w.expires.Some? && w.expires.value <= now && DisposableState(w.state)
  }

  /** `cleanup_expired` */
  function CleanupExpired(rows: Table, now: Time): Table {
    map id | id in rows && !Disposable(rows[id], now) :: rows[id]
  }

  function Expired(rows: Table, now: Time): set<WorkflowId> {
    set id | id in rows && Disposable(rows[id], now)
  }

  lemma CleanupCounts(rows: Table, now: Time)
    ensures |rows| == |CleanupExpired(rows, now)| + |Expired(rows, now)|
  {
    var kept := CleanupExpired(rows, now).Keys;
    assert rows.Keys == kept + Expired(rows, now);
    assert |rows.Keys| == |rows| && |kept| == |CleanupExpired(rows, now)|;
  }

  // ---------------------------------------------------------------- the triggers accept every write

  ghost predicate Chained(o: Workflow, writes: seq<Workflow>) {
    && (|writes| > 0 ==> UpdateAccepted(o, writes[0]))
    && forall i :: 0 < i < |writes| ==> UpdateAccepted(writes[i - 1], writes[i])
  }

  /**
   A new workflow is refused only for a key already in use: the insert trigger accepts what
   `create_workflow` writes.
   */
  lemma CreateAccepted(rows: Table, op: Op, now: Time, keep: Retention)
    requires op.Create?
    ensures InsertAccepted(rows, op.id, Fresh(op, now, keep)) <==> op.id !in rows && !KeyTaken(rows, op.key)
    ensures RowOk(Fresh(op, now, keep))
  {
  }

  /** Past the guards, every statement is accepted, every intermediate row is sound, identity is kept. */
  lemma WritesAccepted(op: Op, w: Workflow, now: Time, keep: Retention)
    requires !op.Create? && RowOk(w) && Guard(op, w) && (op.RecordFailure? ==> FailureState(op.verdict))
    ensures Chained(w, Writes(op, w, now, keep))
    ensures forall i :: 0 <= i < |Writes(op, w, now, keep)| ==> RowOk(Writes(op, w, now, keep)[i])
    ensures Last(Writes(op, w, now, keep)).version > w.version
  {
  }

  lemma RecoveryAccepted(w: Workflow, now: Time, keep: Retention)
    requires RowOk(w)
    ensures Abandoned(w, now, keep) != w ==> UpdateAccepted(w, Abandoned(w, now, keep))
    ensures RowOk(Abandoned(w, now, keep))
    ensures Abandoned(w, now, keep).frozen == w.frozen
  {
  }

  ghost predicate TableOk(rows: Table) {
    && (forall id :: id in rows ==> RowOk(rows[id]))
    && (forall i, j :: i in rows && j in rows && rows[i].key == rows[j].key ==> i == j)
  }

  lemma ApplyKeepsTable(rows: Table, op: Op, t: Clock, keep: Retention)
    requires TableOk(rows)
    ensures TableOk(Apply(rows, op, t, keep).0)
  {
    if !op.Create? && op.id in rows && Guard(op, rows[op.id]) && (op.RecordFailure? ==> FailureState(op.verdict)) {
      WritesAccepted(op, rows[op.id], t.now, keep);
    }
  }

  lemma BulkKeepsTable(rows: Table, now: Time, keep: Retention)
    requires TableOk(rows)
    ensures TableOk(RecoverAbandoned(rows, now, keep)) && TableOk(CleanupExpired(rows, now))
  {
    RecoveryKeepsTable(rows, now, keep);
  }

  lemma RecoveryKeepsTable(rows: Table, now: Time, keep: Retention)
    requires TableOk(rows)
    ensures TableOk(RecoverAbandoned(rows, now, keep))
  {
    forall id | id in rows ensures RowOk(Abandoned(rows[id], now, keep)) { RecoveryAccepted(rows[id], now, keep); }
  }

  /** Cleanup deletes only rows the delete trigger releases, and never one awaiting reconciliation. */
  lemma CleanupAccepted(rows: Table, now: Time)
    requires TableOk(rows)
    ensures forall id :: id in rows && id !in CleanupExpired(rows, now) ==>
              DeleteAccepted(rows[id]) && !ReconciliationState(rows[id].state)
    ensures forall id :: id in CleanupExpired(rows, now) ==> CleanupExpired(rows, now)[id] == rows[id]
  {
  }

  /** No operation deletes a row, changes its identity, or loses a frozen request or a receipt. */
  lemma ApplyPreserves(rows: Table, op: Op, t: Clock, keep: Retention, id: WorkflowId)
    requires TableOk(rows) && id in rows
    ensures var rows' := Apply(rows, op, t, keep).0;
            && id in rows'
            && rows'[id].key == rows[id].key && rows'[id].user == rows[id].user
            && rows'[id].schema == rows[id].schema && rows'[id].created == rows[id].created
            && (rows[id].frozen.Some? ==> rows'[id].frozen == rows[id].frozen)
            && (rows[id].receipt.Some? ==> rows'[id].receipt == rows[id].receipt)
            && rows'[id].version >= rows[id].version
            && (rows'[id] != rows[id] ==> rows'[id].version > rows[id].version)
  {
    if !op.Create? && op.id in rows && Guard(op, rows[op.id]) && (op.RecordFailure? ==> FailureState(op.verdict)) {
      WritesAccepted(op, rows[op.id], t.now, keep);
    }
  }
}
