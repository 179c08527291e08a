/** The console store as an object: each method fetches, checks its guards and updates under the triggers. */
module ConsoleStateStoreModel {
  import opened Basics
  import opened ConsoleTriggers
  import opened ConsoleTransitions

  class ConsoleStateStore {
    var rows: Table
    const keep: Retention

    ghost predicate Valid()
      reads this
    {
      TableOk(rows)
    }

    constructor (keep: Retention)
      ensures Valid() && rows == map[] && this.keep == keep
    {
      rows, this.keep := map[], keep;
    }

    /** `_get_row` */
    method Fetch(id: WorkflowId, user: User, t: Time, rejectExpired: bool) returns (w: Option<Workflow>)
      ensures w.Some? <==> id in rows && rows[id].user == user && (rejectExpired ==> Unexpired(rows[id], t))
      ensures w.Some? ==> w.value == rows[id]
    {
      if id !in rows || rows[id].user != user { return None; }
      if rejectExpired && rows[id].expires.Some? && rows[id].expires.value <= t { return None; }
      return Some(rows[id]);
    }

    /** `_update`: the triggers may reject the statement. */
    method Update(id: WorkflowId, n: Workflow) returns (accepted: bool)
      requires id in rows
      modifies this`rows
      ensures accepted <==> UpdateAccepted(old(rows)[id], n)
      ensures rows == if accepted then old(rows)[id := n] else old(rows)
    {
      accepted := UpdateAccepted(rows[id], n);
      if accepted { rows := rows[id := n]; }
    }

    /** `INSERT INTO workflows`: a key in use or the insert trigger may reject the row. */
    method Insert(id: WorkflowId, n: Workflow) returns (accepted: bool)
      modifies this`rows
      ensures accepted <==> InsertAccepted(old(rows), id, n)
      ensures rows == if accepted then old(rows)[id := n] else old(rows)
    {
      accepted := InsertAccepted(rows, id, n);
      if accepted { rows := rows[id := n]; }
    }

    /** One UPDATE, the second fetch, and the rollback of every exceptional exit. */
    method Finish(ghost op: Op, id: WorkflowId, n: Workflow, t: Clock) returns (o: Outcome)
      requires Valid() && !op.Create? && !op.Freeze? && op.id == id && id in rows && op.user == rows[id].user
      requires Guard(op, rows[id]) && (op.RecordFailure? ==> FailureState(op.verdict))
      requires Writes(op, rows[id], t.now, keep) == [n]
      requires IgnoresExpiry(op) || Unexpired(rows[id], t.fetch)
      modifies this`rows
      ensures Valid() && (rows, o) == Apply(old(rows), op, t, keep)
    {
      ApplyKeepsTable(rows, op, t, keep);
      WritesAccepted(op, rows[id], t.now, keep);
      var before := rows;
      var user := rows[id].user;
      var accepted := Update(id, n);
      assert accepted;
      var w := Fetch(id, user, t.refetch, true);
      if w.None? { rows := before; return NotFound; }
      return Done(w.value);
    }

    method Create(id: WorkflowId, user: User, schema: Schema, text: string, key: Key, t: Clock) returns (o: Outcome)
      requires Valid()
      modifies this`rows
      ensures Valid() && (rows, o) == Apply(old(rows), Op.Create(id, user, schema, text, key), t, keep)
    {
      ghost var op := Op.Create(id, user, schema, text, key);
      ApplyKeepsTable(rows, op, t, keep);
      CreateAccepted(rows, op, t.now, keep);
      var before := rows;
      var row := Workflow(user, schema, key, t.now, Editing, Some(text), None, None, None, None, t.now,
          Some(t.now + keep.ordinary), 0);
      var accepted := Insert(id, row);
      assert accepted <==> id !in before && !KeyTaken(before, key);
      if !accepted { return Rejected; }
      var w := Fetch(id, user, t.fetch, true);
      if w.None? { rows := before; return NotFound; }
      return Done(w.value);
    }

    method BeginExtraction(id: WorkflowId, user: User, expected: Option<nat>, t: Clock) returns (o: Outcome)
      requires Valid()
      modifies this`rows
      ensures Valid() && (rows, o) == Apply(old(rows), Op.BeginExtraction(id, user, expected), t, keep)
    {
      var w := Fetch(id, user, t.fetch, true);
      if w.None? { return NotFound; }
      if w.value.state != Editing || !VersionFits(w.value, expected) { return Conflict; }
      o := Finish(Op.BeginExtraction(id, user, expected), id,
                  w.value.(state := Extracting, error := None, updated := t.now, version := w.value.version + 1), t);
    }

    method ReviseSource(id: WorkflowId, user: User, text: string, schema: Schema, expected: Option<nat>, t: Clock)
        returns (o: Outcome)
      requires Valid()
      modifies this`rows
      ensures Valid() && (rows, o) == Apply(old(rows), Op.ReviseSource(id, user, text, schema, expected), t, keep)
    {
      var w := Fetch(id, user, t.fetch, true);
      if w.None? { return NotFound; }
      if w.value.state != Editing || !VersionFits(w.value, expected) || schema != w.value.schema { return Conflict; }
      o := Finish(Op.ReviseSource(id, user, text, schema, expected), id,
                  w.value.(source := Some(text), proposal := None, error := None, updated := t.now,
                           expires := Some(t.now + keep.ordinary), version := w.value.version + 1), t);
    }

    method FinishExtraction(id: WorkflowId, user: User, proposal: Option<Proposal>, errors: seq<string>, t: Clock)
        returns (o: Outcome)
      requires Valid()
      modifies this`rows
      ensures Valid() && (rows, o) == Apply(old(rows), Op.FinishExtraction(id, user, proposal, errors), t, keep)
    {
      var w := Fetch(id, user, t.fetch, false);
      if w.None? { return NotFound; }
      if w.value.state != Extracting { return Conflict; }
      var n := w.value.(updated := t.now, expires := Some(t.now + keep.ordinary), version := w.value.version + 1);
      if proposal.Some? {
        n := n.(state := Reviewing, proposal := proposal, error := None);
      } else {
        n := n.(state := Editing, proposal := None, error := Some(Note("extraction_unable", errors)));
      }
      o := Finish(Op.FinishExtraction(id, user, proposal, errors), id, n, t);
    }

    method FailExtraction(id: WorkflowId, user: User, note: Note, t: Clock) returns (o: Outcome)
      requires Valid()
      modifies this`rows
      ensures Valid() && (rows, o) == Apply(old(rows), Op.FailExtraction(id, user, note), t, keep)
    {
      var w := Fetch(id, user, t.fetch, false);
      if w.None? { return NotFound; }
      if w.value.state != Extracting { return Conflict; }
      o := Finish(Op.FailExtraction(id, user, note), id,
                  w.value.(state := Editing, proposal := None, error := Some(note), updated := t.now,
                           expires := Some(t.now + keep.ordinary), version := w.value.version + 1), t);
    }

    /** Freezes the first request and enters `submitting` in one transaction: two UPDATEs. */
    method FreezeAndBeginSubmission(id: WorkflowId, user: User, input: CaptureInput, expected: Option<nat>, t: Clock)
        returns (o: Outcome)
      requires Valid()
      modifies this`rows
      ensures Valid() && (rows, o) == Apply(old(rows), Freeze(id, user, input, expected), t, keep)
    {
      ghost var op := Freeze(id, user, input, expected);
      ApplyKeepsTable(rows, op, t, keep);
      var w := Fetch(id, user, t.fetch, true);
      if w.None? { return NotFound; }
      if w.value.state == Committed { return Done(w.value); }
      if w.value.state != Reviewing || !VersionFits(w.value, expected) { return Conflict; }
      if input.schema != w.value.schema || w.value.proposal.None?
          || input.schemaHash != w.value.proposal.value.schemaHash { return Conflict; }
      WritesAccepted(op, rows[id], t.now, keep);
      ghost var writes := Writes(op, rows[id], t.now, keep);
      assert UpdateAccepted(writes[0], writes[1]);
      var before := rows;
      var frozen := w.value.(state := Frozen, frozen := Some(FrozenRequest(w.value.key, input)), expires := None,
          error := None,
                             updated := t.now, version := w.value.version + 1);
      var accepted := Update(id, frozen);
      assert accepted;
      accepted := Update(id, frozen.(state := Submitting, updated := t.now, version := frozen.version + 1));
      assert accepted;
      assert rows == before[id := writes[1]];
      w := Fetch(id, user, t.refetch, true);
      assert w.Some?;
      return Done(w.value);
    }

    method BeginRetry(id: WorkflowId, user: User, expected: Option<nat>, t: Clock) returns (o: Outcome)
      requires Valid()
      modifies this`rows
      ensures Valid() && (rows, o) == Apply(old(rows), Op.BeginRetry(id, user, expected), t, keep)
    {
      var w := Fetch(id, user, t.fetch, true);
      if w.None? { return NotFound; }
      if (w.value.state != Uncertain && w.value.state != RetryableFailure)
          || !VersionFits(w.value, expected) { return Conflict; }
      o := Finish(Op.BeginRetry(id, user, expected), id,
                  w.value.(state := Submitting, error := None, expires := None, updated := t.now,
                      version := w.value.version + 1), t);
    }

    method RecordCaptureResponse(id: WorkflowId, user: User, receipt: PredictionId, t: Clock) returns (o: Outcome)
      requires Valid()
      modifies this`rows
      ensures Valid() && (rows, o) == Apply(old(rows), RecordResponse(id, user, receipt), t, keep)
    {
      var w := Fetch(id, user, t.fetch, true);
      if w.None? { return NotFound; }
      if w.value.state != Submitting { return Conflict; }
      o := Finish(RecordResponse(id, user, receipt), id,
                  w.value.(state := Committed, receipt := Some(receipt), error := None, updated := t.now,
                           expires := Some(t.now + keep.receipt), version := w.value.version + 1), t);
    }

    method RecordCaptureFailure(id: WorkflowId, user: User, verdict: WorkflowState, note: Note, t: Clock)
        returns (o: Outcome)
      requires Valid()
      modifies this`rows
      ensures Valid() && (rows, o) == Apply(old(rows), RecordFailure(id, user, verdict, note), t, keep)
    {
      if verdict !in {Uncertain, RetryableFailure, TerminalFailure} { return Rejected; }
      var w := Fetch(id, user, t.fetch, true);
      if w.None? { return NotFound; }
      if w.value.state != Submitting { return Conflict; }
      o := Finish(RecordFailure(id, user, verdict, note), id,
                  w.value.(state := verdict, error := Some(note), updated := t.now,
                           expires := if verdict == TerminalFailure then Some(t.now + keep.ordinary) else None,
                           version := w.value.version + 1), t);
    }

    method CancelWorkflow(id: WorkflowId, user: User, expected: Option<nat>, t: Clock) returns (o: Outcome)
      requires Valid()
      modifies this`rows
      ensures Valid() && (rows, o) == Apply(old(rows), Cancel(id, user, expected), t, keep)
    {
      var w := Fetch(id, user, t.fetch, true);
      if w.None? { return NotFound; }
      if (w.value.state != Editing && w.value.state != Reviewing)
          || !VersionFits(w.value, expected) { return Conflict; }
      o := Finish(Cancel(id, user, expected), id,
                  w.value.(state := Cancelled, source := None, proposal := None, error := None, updated := t.now,
                           expires := Some(t.now + keep.ordinary), version := w.value.version + 1), t);
    }

    /** `recover_abandoned_workflows`: two bulk updates, each checked by the triggers row by row. */
    method RecoverAbandonedWorkflows(now: Time) returns (submitting: nat, extracting: nat)
      requires Valid()
      modifies this`rows
      ensures Valid() && rows == RecoverAbandoned(old(rows), now, keep)
      ensures submitting == |InState(old(rows), Submitting)| && extracting == |InState(old(rows), Extracting)|
    {
      submitting, extracting := |InState(rows, Submitting)|, |InState(rows, Extracting)|;
      BulkKeepsTable(rows, now, keep);
      RecoverEach(now);
    }

    method RecoverEach(now: Time)
      requires Valid()
      modifies this`rows
      ensures rows == RecoverAbandoned(old(rows), now, keep)
    {
      var todo := rows.Keys;
      RecoverNoneYet(rows, now, keep);
      while todo != {}
        invariant todo <= old(rows).Keys && rows == RecoverPart(old(rows), todo, now, keep)
        decreases |todo|
      {
        var id :| id in todo;
        RecoverOneMore(old(rows), todo, id, now, keep);
        RecoverOne(id, now);
        todo := todo - {id};
      }
    }

    method RecoverOne(id: WorkflowId, now: Time)
      requires id in rows && RowOk(rows[id])
      modifies this`rows
      ensures rows == old(rows)[id := Abandoned(old(rows)[id], now, keep)]
    {
      var w := rows[id];
      RecoveryAccepted(w, now, keep);
      if w.state == Submitting {
        var accepted := Update(id, w.(state := Uncertain, error := Some(REPLAY_NOTE), updated := now, expires := None,
            version := w.version + 1));
        assert accepted;
      } else if w.state == Extracting {
        var accepted := Update(id, w.(state := Editing, error := Some(REEXTRACT_NOTE), updated := now,
                                      expires := Some(now + keep.ordinary), version := w.version + 1));
        assert accepted;
      } else {
        assert rows == rows[id := w];
      }
    }

    /** `cleanup_expired` */
    method Cleanup(now: Time) returns (removed: nat)
      requires Valid()
      modifies this`rows
      ensures Valid() && rows == CleanupExpired(old(rows), now) && removed == |old(rows)| - |rows|
    {
      BulkKeepsTable(rows, now, keep);
      CleanupCounts(rows, now);
      removed := |Expired(rows, now)|;
      rows := map id | id in rows && !(rows[id].expires.Some? && rows[id].expires.value <= now
          && DisposableState(rows[id].state)) :: rows[id];
    }
  }
}
