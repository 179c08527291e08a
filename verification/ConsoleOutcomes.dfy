/**
 What the console operations achieve: the state diagram, what each operation stores, when it
 succeeds and how it fails, and what the triggers promise whatever code does the updates.
 */
module ConsoleOutcomes {
  import opened Basics
  import opened ConsoleTriggers
  import opened ConsoleTransitions

  // ---------------------------------------------------------------- success and failure

  /** The diagram: the state an operation starts from and the one it leads to. */
  function Leads(op: Op, from: WorkflowState): Option<WorkflowState> {
    match (op, from)
    case (BeginExtraction(_, _, _), Editing) => Some(Extracting)
    case (ReviseSource(_, _, _, _, _), Editing) => Some(Editing)
    case (FinishExtraction(_, _, p, _), Extracting) => Some(if p.Some? then Reviewing else Editing)
    case (FailExtraction(_, _, _), Extracting) => Some(Editing)
    case (Freeze(_, _, _, _), Reviewing) => Some(Submitting)
    case (BeginRetry(_, _, _), Uncertain) => Some(Submitting)
    case (BeginRetry(_, _, _), RetryableFailure) => Some(Submitting)
    case (RecordResponse(_, _, _), Submitting) => Some(Committed)
    case (RecordFailure(_, _, verdict, _), Submitting) => Some(verdict)
    case (Cancel(_, _, _), Editing) => Some(Cancelled)
    case (Cancel(_, _, _), Reviewing) => Some(Cancelled)
    case _ => None
  }

  /** A row is visible to its owner until it expires; extraction results do not look at the expiry. */
  predicate Visible(rows: Table, op: Op, t: Time)
    requires !op.Create?
  {
    && op.id in rows && rows[op.id].user == op.user
    && (op.FinishExtraction? || op.FailExtraction? || rows[op.id].expires.None? || t < rows[op.id].expires.value)
  }

  /** The schema stays the workflow's own, and a freeze confirms the proposal that was reviewed. */
  predicate Agrees(op: Op, w: Workflow) {
    match op
    case ReviseSource(_, _, _, schema, _) => schema == w.schema
    case Freeze(_, _, input, _) =>
      input.schema == w.schema && w.proposal.Some? && w.proposal.value.schemaHash == input.schemaHash
    case _ => true
  }

  /** The caller named no version, or the row's own. */
  predicate NamesVersion(op: Op, w: Workflow) {
    match op
    case BeginExtraction(_, _, Some(v)) => v == w.version
    case ReviseSource(_, _, _, _, Some(v)) => v == w.version
    case Freeze(_, _, _, Some(v)) => v == w.version
    case BeginRetry(_, _, Some(v)) => v == w.version
    case Cancel(_, _, Some(v)) => v == w.version
    case _ => true
  }

  /** How long a row lives, by the state it is in: open requests for ever. */
  function ExpiryOf(state: WorkflowState, o: Workflow, now: Time, keep: Retention): Option<Time> {
    match state
    case Frozen | Submitting | Uncertain | RetryableFailure => None
    case Committed => Some(now + keep.receipt)
    case Extracting => o.expires
    case _ => Some(now + keep.ordinary)
  }

  predicate Permitted(rows: Table, op: Op, t: Clock)
    requires !op.Create?
  {
    && (op.RecordFailure? ==> op.verdict in {Uncertain, RetryableFailure, TerminalFailure})
    && Visible(rows, op, t.fetch)
    && Leads(op, rows[op.id].state).Some? && Agrees(op, rows[op.id]) && NamesVersion(op, rows[op.id])
  }

  /** The row an operation leaves is still there when it is fetched for the answer. */
  predicate Lasts(rows: Table, op: Op, t: Clock, keep: Retention)
    requires !op.Create? && op.id in rows && Leads(op, rows[op.id].state).Some?
  {
    var e := ExpiryOf(Leads(op, rows[op.id].state).value, rows[op.id], t.now, keep);
    e.None? || t.refetch < e.value
  }

  /** Confirming a committed workflow again answers its row. */
  predicate Repeats(rows: Table, op: Op, t: Clock) {
    op.Freeze? && Visible(rows, op, t.fetch) && rows[op.id].state == Committed
  }

  lemma GuardIsTheDiagram(op: Op, w: Workflow)
    requires !op.Create?
    ensures Guard(op, w) <==> Leads(op, w.state).Some? && Agrees(op, w) && NamesVersion(op, w)
  {
  }

  lemma LastsMeans(rows: Table, op: Op, t: Clock, keep: Retention)
    requires !op.Create? && op.id in rows && Leads(op, rows[op.id].state).Some? && RowOk(rows[op.id])
    requires op.RecordFailure? ==> FailureState(op.verdict)
    ensures Unexpired(Last(Writes(op, rows[op.id], t.now, keep)), t.refetch) <==> Lasts(rows, op, t, keep)
  {
  }

  /** An operation succeeds exactly when it is permitted and the new row outlives the answer. */
  lemma SucceedsExactly(rows: Table, op: Op, t: Clock, keep: Retention)
    requires TableOk(rows) && !op.Create?
    ensures Apply(rows, op, t, keep).1.Done? <==>
              Repeats(rows, op, t) || (Permitted(rows, op, t) && Lasts(rows, op, t, keep))
    ensures !Apply(rows, op, t, keep).1.Done? || Repeats(rows, op, t) ==> Apply(rows, op, t, keep).0 == rows
  {
    if op.id in rows {
      GuardIsTheDiagram(op, rows[op.id]);
      if Permitted(rows, op, t) { LastsMeans(rows, op, t, keep); }
    }
  }

  /** A visible row in the wrong state, schema or version is a conflict; an invisible one is not found. */
  lemma FailsExactly(rows: Table, op: Op, t: Clock, keep: Retention)
    requires TableOk(rows) && !op.Create?
    ensures var o := Apply(rows, op, t, keep).1;
            var lawful := op.RecordFailure? ==> op.verdict in {Uncertain, RetryableFailure, TerminalFailure};
            && (o.Rejected? <==> !lawful)
            && (o.Conflict? <==>
                  lawful && Visible(rows, op, t.fetch) && !Repeats(rows, op, t) && !Permitted(rows, op, t))
            && (o.NotFound? <==>
                  lawful && !Repeats(rows, op, t)
                  && (Visible(rows, op, t.fetch) ==> Permitted(rows, op, t) && !Lasts(rows, op, t, keep)))
  {
    if op.id in rows {
      GuardIsTheDiagram(op, rows[op.id]);
      if Permitted(rows, op, t) { LastsMeans(rows, op, t, keep); }
    }
  }

  // ---------------------------------------------------------------- what is stored

  /**
   A successful operation moves the row along the diagram, ages its version, and sets its lifetime by
   the new state. The text changes by revision alone, the proposal by extraction, the request by the
   freeze and the receipt by the backend's answer; a note stands only where the operation records one.
   */
  predicate Stored(op: Op, o: Workflow, n: Workflow, now: Time, keep: Retention)
    requires !op.Create? && Leads(op, o.state).Some?
  {
    && n.user == o.user && n.schema == o.schema && n.key == o.key && n.created == o.created
    && n.state == Leads(op, o.state).value
    && n.updated == now
    && n.version == o.version + (if op.Freeze? then 2 else 1)
    && n.expires == ExpiryOf(n.state, o, now, keep)
    && n.source == (if op.ReviseSource? then Some(op.text) else if n.state == Cancelled then None else o.source)
    && n.proposal == (if op.FinishExtraction? then op.proposal
                      else if op.BeginExtraction? || n.frozen.Some? then o.proposal else None)
    && n.frozen == (if op.Freeze? then Some(FrozenRequest(o.key, op.input)) else o.frozen)
    && n.receipt == (if op.RecordResponse? then Some(op.receipt) else o.receipt)
    && n.error == (match op
                   case FailExtraction(_, _, note) => Some(note)
                   case RecordFailure(_, _, _, note) => Some(note)
                   case FinishExtraction(_, _, None, errors) => Some(Note("extraction_unable", errors))
                   case _ => None)
  }

  lemma StoresExactly(rows: Table, op: Op, t: Clock, keep: Retention)
    requires TableOk(rows) && !op.Create? && Permitted(rows, op, t) && Lasts(rows, op, t, keep)
    ensures var (rows', o) := Apply(rows, op, t, keep);
            && o.Done? && rows' == rows[op.id := o.row]
            && Stored(op, rows[op.id], o.row, t.now, keep)
  {
    assert RowOk(rows[op.id]);
  }

  /** A new workflow is stored under a new identifier and key, and holds the author's text and nothing else. */
  lemma CreatesExactly(rows: Table, op: Op, t: Clock, keep: Retention)
    requires op.Create?
    ensures var (rows', o) := Apply(rows, op, t, keep);
            && (o.Done? <==> op.id !in rows && (forall id :: id in rows ==> rows[id].key != op.key)
                             && t.fetch < t.now + keep.ordinary)
            && (o.Rejected? <==> op.id in rows || exists id :: id in rows && rows[id].key == op.key)
            && (!o.Done? ==> rows' == rows)
            && (o.Done? ==>
                  && rows' == rows[op.id := o.row]
                  && o.row.user == op.user && o.row.schema == op.schema && o.row.key == op.key
                  && o.row.source == Some(op.text) && o.row.state == Editing && o.row.version == 0
                  && o.row.created == t.now && o.row.updated == t.now && o.row.expires == Some(t.now + keep.ordinary)
                  && o.row.proposal.None? && o.row.frozen.None? && o.row.receipt.None? && o.row.error.None?)
  {
  }

  // ---------------------------------------------------------------- restart and cleanup

  /** A restart leaves nothing in flight and touches nothing that was not. */
  lemma RestartLeavesNothingInFlight(rows: Table, now: Time, keep: Retention, id: WorkflowId)
    requires TableOk(rows)
    ensures RecoverAbandoned(rows, now, keep).Keys == rows.Keys
    ensures id in rows ==>
              var o, n := rows[id], RecoverAbandoned(rows, now, keep)[id];
              && n.state == (if o.state == Submitting then Uncertain else if o.state == Extracting then Editing
                             else o.state)
              && (n.state == o.state ==> n == o)
              && n.source == o.source && n.proposal == o.proposal && n.frozen == o.frozen && n.receipt == o.receipt
              && (n.state != o.state ==>
                    && n.version == o.version + 1 && n.updated == now && n.expires == ExpiryOf(n.state, o, now, keep)
                    && n.error.Some? && n.error.value.code == "console_restarted")
  {
  }

  /** A second restart finds nothing to do. */
  lemma RestartTwiceIsOnce(rows: Table, now: Time, later: Time, keep: Retention)
    ensures var once := RecoverAbandoned(rows, now, keep); RecoverAbandoned(once, later, keep) == once
  {
    var once := RecoverAbandoned(rows, now, keep);
    var twice := RecoverAbandoned(once, later, keep);
    assert twice.Keys == once.Keys;
    forall id | id in once ensures twice[id] == once[id] { assert once[id] == Abandoned(rows[id], now, keep); }
  }

  /** Cleanup removes exactly the expired rows nobody has to reconcile, and keeps the others as they are. */
  lemma CleanupIsExact(rows: Table, now: Time, id: WorkflowId)
    requires TableOk(rows)
    ensures id in CleanupExpired(rows, now) <==>
              id in rows && (rows[id].state in {Extracting, Frozen, Submitting, Uncertain, RetryableFailure}
                             || rows[id].expires.None? || now < rows[id].expires.value)
    ensures id in CleanupExpired(rows, now) ==> CleanupExpired(rows, now)[id] == rows[id]
  {
    if id in rows {
      var s := rows[id].state;
      assert DisposableState(s) <==> s !in {Extracting, Frozen, Submitting, Uncertain, RetryableFailure};
    }
  }

  // ---------------------------------------------------------------- the triggers alone

  /** The life of one row: inserted, then replaced by updates the triggers accept, whoever issues them. */
  ghost predicate Life(h: seq<Workflow>) {
    && h != [] && InsertStartsEditing(h[0])
    && forall i :: 0 < i < |h| ==> UpdateAccepted(h[i - 1], h[i])
  }

  predicate Final(s: WorkflowState) {
    s in {TerminalFailure, Committed, Cancelled}
  }

  /** The row at which the request was frozen. */
  ghost predicate FrozenAt(h: seq<Workflow>, k: int, r: FrozenRequest) {
    0 < k < |h| && h[k - 1].state == Reviewing && h[k].state == Frozen && h[k].frozen == Some(r)
  }

  ghost predicate CommittedAt(h: seq<Workflow>, k: int, receipt: PredictionId) {
    0 < k < |h| && h[k - 1].state == Submitting && h[k].state == Committed && h[k].receipt == Some(receipt)
  }

  /** At every point the request is there exactly in the frozen states, and each mark has its origin. */
  lemma {:induction false} LifeSoFar(h: seq<Workflow>, j: nat)
    requires Life(h) && j < |h|
    ensures h[j].version == j
    ensures h[j].frozen.Some? <==> FrozenState(h[j].state)
    ensures h[j].receipt.Some? <==> h[j].state == Committed
    ensures h[j].frozen.Some? ==> exists k :: k <= j && FrozenAt(h, k, h[j].frozen.value)
    ensures h[j].receipt.Some? ==> exists k :: k <= j && CommittedAt(h, k, h[j].receipt.value)
  {
    if j > 0 {
      LifeSoFar(h, j - 1);
      assert UpdateAccepted(h[j - 1], h[j]);
      if h[j - 1].frozen.None? && h[j].frozen.Some? { assert FrozenAt(h, j, h[j].frozen.value); }
      if h[j - 1].receipt.None? && h[j].receipt.Some? { assert CommittedAt(h, j, h[j].receipt.value); }
    }
  }

  /**
   Whatever code updates the table, the triggers alone keep a row's identity, its request once frozen
   and its receipt once stored; final states are final, and a frozen row is never edited again.
   */
  lemma {:induction false} TriggersKeepThePromises(h: seq<Workflow>, i: nat, j: nat)
    requires Life(h) && i <= j < |h|
    ensures h[j].user == h[i].user && h[j].schema == h[i].schema && h[j].key == h[i].key
    ensures h[j].created == h[i].created
    ensures h[i].frozen.Some? ==> h[j].frozen == h[i].frozen && FrozenState(h[j].state)
    ensures h[i].receipt.Some? ==> h[j].receipt == h[i].receipt
    ensures Final(h[i].state) ==> h[j].state == h[i].state
    ensures h[i] == h[j] ==> i == j
    decreases j - i
  {
    LifeSoFar(h, i);
    LifeSoFar(h, j);
    if i < j {
      TriggersKeepThePromises(h, i, j - 1);
      assert UpdateAccepted(h[j - 1], h[j]);
    }
  }
}
