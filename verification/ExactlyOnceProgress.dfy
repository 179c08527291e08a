/**
 What an attempt must achieve: which row an answer leaves behind, and that confirming or retrying a
 workflow can always be brought to its receipt.
 */
module ExactlyOnceProgress {
  import opened Basics
  import opened ConsoleTriggers
  import opened ConsoleTransitions
  import opened ExactlyOnce
  import B = LedgerBook

  /** The attempt's thread is there and its workflow is still the user's submitting row. */
  predicate Awaits(s: System, c: nat) {
    && c in s.attempts && s.attempts[c].waiting
    && s.attempts[c].workflow in s.rows
    && s.rows[s.attempts[c].workflow].user == s.attempts[c].user
    && s.rows[s.attempts[c].workflow].state == Submitting
  }

  /** A receipt that arrives in time commits the row; one that arrives too late is left to a replay. */
  lemma ReceiptCommitsTheRow(s: System, c: nat, t: Clock, t2: Clock, keep: Retention, pid: PredictionId,
      created: bool)
    requires Inv(s) && Awaits(s, c) && s.attempts[c].answer == Some(B.Receipt(pid, created))
    ensures Enabled(s, Deliver(c, t, t2))
    ensures var a := s.attempts[c];
            var w := s.rows[a.workflow];
            var s' := Do(s, Deliver(c, t, t2), keep);
            && s'.book == s.book && s'.first == s.first && s'.used == s.used
            && (t.refetch < t.now + keep.receipt ==>
                  && s'.rows == s.rows[a.workflow := w.(state := Committed, receipt := Some(pid), error := None,
                       expires := Some(t.now + keep.receipt), updated := t.now, version := w.version + 1)]
                  && s'.attempts == s.attempts[c := a.(waiting := false, verdict := Some(Committed))])
            && (t.refetch >= t.now + keep.receipt ==>
                  && s'.rows == s.rows[a.workflow := w.(state := WorkflowState.Uncertain,
                       error := Some(Note("console_internal_error", ["capture outcome requires exact replay"])),
                       expires := None, updated := t2.now, version := w.version + 1)]
                  && s'.attempts == s.attempts[c := a.(waiting := false, verdict := Some(WorkflowState.Uncertain))])
  {
    assert RowOk(s.rows[s.attempts[c].workflow]);
  }

  /** The state a backend error must leave, read off its code. */
  function StateAfter(code: string): WorkflowState {
    if code in ["invalid_request", "schema_not_found", "invalid_forecast", "fresh_window_conflict",
                "idempotency_conflict", "integrity_error"] then TerminalFailure
    else if code in ["snapshot_unavailable", "unauthorized"] then RetryableFailure
    else WorkflowState.Uncertain
  }

  lemma VerdictIsByCode(code: B.ErrorCode)
    ensures FailureVerdict(B.DispositionOf(code)) == StateAfter(B.CodeText(code))
  {
    assert "snapshot_unavailable"[0] == 's' && "snapshot_unavailable"[1] == 'n' && "unauthorized"[0] == 'u';
    assert "schema_not_found"[1] == 'c' && "internal_error"[2] == 't' && "internal_error"[3] == 'e';
    assert "invalid_request"[2] == 'v' && "invalid_forecast"[2] == 'v' && "idempotency_conflict"[1] == 'd';
    assert "integrity_error"[3] == 'e' && "integrity_error"[5] == 'r' && "internal_error"[5] == 'n';
    assert "fresh_window_conflict"[0] == 'f';
  }

  /** A backend error leaves exactly its own state, with the backend's code as the note. */
  lemma ErrorDecidesTheRow(s: System, c: nat, t: Clock, t2: Clock, keep: Retention, code: B.ErrorCode)
    requires Inv(s) && Awaits(s, c) && s.attempts[c].answer == Some(B.Failed(code))
    requires StateAfter(B.CodeText(code)) == TerminalFailure ==> t.refetch < t.now + keep.ordinary
    ensures Enabled(s, Deliver(c, t, t2))
    ensures var a := s.attempts[c];
            var w := s.rows[a.workflow];
            var state := StateAfter(B.CodeText(code));
            Do(s, Deliver(c, t, t2), keep)
            == s.(rows := s.rows[a.workflow := w.(state := state, error := Some(Note(B.CodeText(code), [])),
                    expires := if state == TerminalFailure then Some(t.now + keep.ordinary) else None,
                    updated := t.now, version := w.version + 1)],
                  attempts := s.attempts[c := a.(waiting := false, verdict := Some(state))])
  {
    VerdictIsByCode(code);
    assert RowOk(s.rows[s.attempts[c].workflow]);
  }

  /** A lost answer leaves the row uncertain. */
  lemma LostAnswerIsUncertain(s: System, c: nat, t: Clock, keep: Retention)
    requires Inv(s) && Awaits(s, c)
    ensures Enabled(s, GiveUp(c, t))
    ensures var a := s.attempts[c];
            var w := s.rows[a.workflow];
            Do(s, GiveUp(c, t), keep)
            == s.(rows := s.rows[a.workflow := w.(state := WorkflowState.Uncertain,
                    error := Some(Note("backend_response_unverified", ["capture outcome requires exact replay"])),
                    expires := None, updated := t.now, version := w.version + 1)],
                  attempts := s.attempts[c := a.(waiting := false, verdict := Some(WorkflowState.Uncertain))])
  {
    assert RowOk(s.rows[s.attempts[c].workflow]);
  }

  lemma OnlySubmittingRowsAreDecided(rows: Table, op: Op, t: Clock, keep: Retention)
    requires op.RecordResponse? || op.RecordFailure?
    requires !(op.id in rows && rows[op.id].user == op.user && rows[op.id].state == Submitting)
    ensures Apply(rows, op, t, keep).0 == rows && !Apply(rows, op, t, keep).1.Done?
  {
  }

  /** An answer for a row that is no longer the user's submitting row changes no row. */
  lemma LateAnswerIsIgnored(s: System, c: nat, t: Clock, t2: Clock, keep: Retention)
    requires Inv(s) && Enabled(s, Deliver(c, t, t2)) && !Awaits(s, c)
    ensures Do(s, Deliver(c, t, t2), keep)
            == s.(attempts := s.attempts[c := s.attempts[c].(waiting := false, verdict := None)])
  {
    var a := s.attempts[c];
    match a.answer.value
    case Failed(code) =>
      var verdict := FailureVerdict(B.DispositionOf(code));
      OnlySubmittingRowsAreDecided(s.rows, RecordFailure(a.workflow, a.user, verdict, RefusalNote(code)), t, keep);
    case Receipt(pid, _) =>
      OnlySubmittingRowsAreDecided(s.rows, RecordResponse(a.workflow, a.user, pid), t, keep);
      var op := RecordFailure(a.workflow, a.user, WorkflowState.Uncertain, INTERNAL);
      OnlySubmittingRowsAreDecided(s.rows, op, t2, keep);
  }

  // ---------------------------------------------------------------- a run to the receipt

  /** Confirming a reviewed workflow, or retrying one whose last attempt left it open. */
  predicate MaySubmit(w: Workflow, op: Op, now: Time) {
    && op.user == w.user
    && match op
       case Freeze(_, _, input, expected) =>
         && w.state == Reviewing && (w.expires.Some? ==> now < w.expires.value)
         && input.schema == w.schema && w.proposal.Some? && input.schemaHash == w.proposal.value.schemaHash
         && (expected.Some? ==> expected.value == w.version)
       case BeginRetry(_, _, expected) =>
         && w.state in {WorkflowState.Uncertain, RetryableFailure}
         && (expected.Some? ==> expected.value == w.version)
       case _ => false
  }

  function RequestOf(w: Workflow, op: Op): Option<FrozenRequest> {
    if op.Freeze? then Some(FrozenRequest(w.key, op.input)) else w.frozen
  }

  /** A submission within its guards opens an attempt that carries the row's key and the reviewed input. */
  lemma SubmissionOpens(s: System, op: Op, now: Time, c: nat, keep: Retention)
    requires Inv(s) && c !in s.attempts && !op.Create? && op.id in s.rows && MaySubmit(s.rows[op.id], op, now)
    ensures var s' := Do(s, Submit(op, Clock(now, now, now), c), keep);
            var w := s.rows[op.id];
            && Enabled(s, Submit(op, Clock(now, now, now), c))
            && RequestOf(w, op).Some?
            && s'.attempts == s.attempts[c := Attempt(op.id, op.user, RequestOf(w, op).value, true, false, false, None,
                 None, None)]
            && s'.rows == s.rows[op.id := w.(state := Submitting, frozen := RequestOf(w, op), error := None,
                 expires := None, updated := now, version := s'.rows[op.id].version)]
            && s'.book == s.book && s'.used == s.used
  {
    assert RowOk(s.rows[op.id]);
  }

  /** The backend's honest answer: the prediction the key is bound to, or the new one. */
  function Honest(b: B.Book, r: FrozenRequest, pid: PredictionId): (B.Answer, B.Book) {
    if r.key in b.keys then (B.Receipt(b.keys[r.key].id, false), b)
    else (B.Receipt(pid, true), B.Posted(b, Wire(r, pid, [], [])))
  }

  predicate Answerable(b: B.Book, r: FrozenRequest, pid: PredictionId) {
    if r.key in b.keys then b.keys[r.key].payload == r.input.payload else pid !in b.rows
  }

  lemma HonestMeetsSpec(b: B.Book, r: FrozenRequest, pid: PredictionId)
    requires BookOk(b) && Answerable(b, r, pid)
    ensures B.CallSpec(b, Honest(b, r, pid).1, Wire(r, pid, [], []), Honest(b, r, pid).0)
  {
    if r.key !in b.keys { assert pid in Honest(b, r, pid).1.rows; }
  }

  lemma RunOfOne(s: System, steps: seq<Step>, keep: Retention)
    requires |steps| == 1 && Enabled(s, steps[0])
    ensures Legal(s, steps, keep) && Exec(s, steps, keep) == Do(s, steps[0], keep)
  {
    var s1 := Do(s, steps[0], keep);
    assert steps[1..] == [] && Legal(s1, [], keep) && Exec(s1, [], keep) == s1;
  }

  lemma RunOfTwo(s: System, steps: seq<Step>, keep: Retention)
    requires |steps| == 2 && Enabled(s, steps[0]) && Enabled(Do(s, steps[0], keep), steps[1])
    ensures Legal(s, steps, keep) && Exec(s, steps, keep) == Do(Do(s, steps[0], keep), steps[1], keep)
  {
    var s1, last := Do(s, steps[0], keep), steps[1..];
    RunOfOne(s1, last, keep);
  }

  lemma {:induction false} RunsChain(s: System, first: seq<Step>, second: seq<Step>, keep: Retention)
    requires Legal(s, first, keep) && Legal(Exec(s, first, keep), second, keep)
    ensures Legal(s, first + second, keep)
    ensures Exec(s, first + second, keep) == Exec(Exec(s, first, keep), second, keep)
    decreases |first|
  {
    if first == [] {
      assert first + second == second;
    } else {
      RunsChain(Do(s, first[0], keep), first[1..], second, keep);
      assert (first + second)[1..] == first[1..] + second;
    }
  }

  lemma ServedAnswer(s: System, serve: Step, keep: Retention)
    requires Inv(s) && serve.Serve? && Awaits(s, serve.c) && Enabled(s, serve)
    ensures var s' := Do(s, serve, keep);
            && Inv(s') && s'.rows == s.rows && s'.book == serve.book
            && Awaits(s', serve.c) && s'.attempts[serve.c].answer == Some(serve.answer)
            && s'.attempts[serve.c].workflow == s.attempts[serve.c].workflow
  {
    ServeKeeps(s, serve, keep);
  }

  /** A receipt the backend gives, whatever it is, ends in the committed row when it is delivered in time. */
  lemma AnsweredRequestCommits(s: System, serve: Step, t: Clock, keep: Retention)
    requires Inv(s) && serve.Serve? && Awaits(s, serve.c) && Enabled(s, serve) && serve.answer.Receipt?
    requires t.refetch < t.now + keep.receipt
    ensures var c := serve.c;
            var w := s.rows[s.attempts[c].workflow];
            var s1 := Do(s, serve, keep);
            && Enabled(s1, Deliver(c, t, t))
            && Do(s1, Deliver(c, t, t), keep).book == serve.book
            && Do(s1, Deliver(c, t, t), keep).rows == s.rows[s.attempts[c].workflow := w.(state := Committed,
                 receipt := Some(serve.answer.id), error := None, expires := Some(t.now + keep.receipt),
                 updated := t.now, version := w.version + 1)]
  {
    ServedAnswer(s, serve, keep);
    ReceiptCommitsTheRow(Do(s, serve, keep), serve.c, t, t, keep, serve.answer.id, serve.answer.created);
  }

  /** The workflow's request is on the wire, and nothing else has changed. */
  ghost predicate OnTheWire(s: System, s': System, op: Op, c: nat)
    requires !op.Create?
  {
    && op.id in s.rows && Inv(s') && Awaits(s', c)
    && s'.attempts[c].sent && !s'.attempts[c].served && s'.book == s.book
    && s'.attempts[c].workflow == op.id && Some(s'.attempts[c].request) == RequestOf(s.rows[op.id], op)
    && s'.rows[op.id].frozen == RequestOf(s.rows[op.id], op)
    && s'.rows == s.rows[op.id := s'.rows[op.id]]
  }

  lemma SubmissionIsSent(s: System, op: Op, now: Time, c: nat, keep: Retention) returns (steps: seq<Step>)
    requires Inv(s) && c !in s.attempts && !op.Create? && op.id in s.rows && MaySubmit(s.rows[op.id], op, now)
    ensures Legal(s, steps, keep) && OnTheWire(s, Exec(s, steps, keep), op, c)
  {
    steps := [Submit(op, Clock(now, now, now), c), Send(c)];
    SubmissionOpens(s, op, now, c, keep);
    OpenedKeeps(s, op, Clock(now, now, now), c, keep);
    StepKeepsInv(Do(s, steps[0], keep), steps[1], keep);
    RunOfTwo(s, steps, keep);
  }

  /**
   The row is committed with its own request and the prediction its key is bound to; nothing was posted
   if the key was bound before, and no other row changed.
   */
  ghost predicate CommittedBy(s: System, s': System, id: WorkflowId, r: FrozenRequest, pid: PredictionId) {
    && id in s'.rows && s'.rows[id].state == Committed && s'.rows[id].frozen == Some(r)
    && r.key in s'.book.keys && s'.book.keys[r.key].payload == r.input.payload
    && s'.rows[id].receipt == Some(s'.book.keys[r.key].id)
    && (r.key in s.book.keys ==> s'.book == s.book)
    && (r.key !in s.book.keys ==> s'.rows[id].receipt == Some(pid))
    && forall other :: other in s.rows && other != id ==> other in s'.rows && s'.rows[other] == s.rows[other]
  }

  lemma SentRequestCommits(s: System, s1: System, op: Op, now: Time, c: nat, pid: PredictionId, keep: Retention)
      returns (steps: seq<Step>)
    requires !op.Create? && OnTheWire(s, s1, op, c) && keep.receipt > 0
    requires Answerable(s.book, s1.attempts[c].request, pid)
    ensures Legal(s1, steps, keep) && CommittedBy(s, Exec(s1, steps, keep), op.id, s1.attempts[c].request, pid)
  {
    var t := Clock(now, now, now);
    var r := s1.attempts[c].request;
    var (answer, book) := Honest(s.book, r, pid);
    var serve, deliver := Serve(c, pid, [], [], answer, book), Deliver(c, t, t);
    HonestMeetsSpec(s.book, r, pid);
    AnsweredRequestCommits(s1, serve, t, keep);
    steps := [serve, deliver];
    RunOfTwo(s1, steps, keep);
  }

  /**
   From any sound state, confirming a reviewed workflow or retrying an open one has a run to the
   committed row, whether its key is new or was bound by an earlier attempt of which no answer arrived.
   */
  lemma SubmissionCanCommit(s: System, op: Op, now: Time, c: nat, pid: PredictionId, keep: Retention)
      returns (steps: seq<Step>)
    requires Inv(s) && c !in s.attempts && !op.Create? && op.id in s.rows && MaySubmit(s.rows[op.id], op, now)
    requires RequestOf(s.rows[op.id], op).Some? ==> Answerable(s.book, RequestOf(s.rows[op.id], op).value, pid)
    requires keep.receipt > 0
    ensures Legal(s, steps, keep) && RequestOf(s.rows[op.id], op).Some?
    ensures CommittedBy(s, Exec(s, steps, keep), op.id, RequestOf(s.rows[op.id], op).value, pid)
  {
    var first := SubmissionIsSent(s, op, now, c, keep);
    var second := SentRequestCommits(s, Exec(s, first, keep), op, now, c, pid, keep);
    RunsChain(s, first, second, keep);
    steps := first + second;
  }

  /**
   A crash ends every attempt, and the restart after it leaves no row in flight: a submitting row
   waits as uncertain with the same request, so that a retry may replay it.
   */
  lemma CrashIsRecoverable(s: System, now: Time, keep: Retention, id: WorkflowId)
    requires Inv(s) && id in s.rows && s.rows[id].state == Submitting
    ensures Legal(s, [CrashConsole, Restart(now)], keep)
    ensures var s' := Exec(s, [CrashConsole, Restart(now)], keep);
            && Inv(s') && s'.book == s.book && id in s'.rows
            && s'.rows[id].state == WorkflowState.Uncertain && s'.rows[id].frozen == s.rows[id].frozen
            && (forall c :: c in s'.attempts ==> !s'.attempts[c].waiting)
            && MaySubmit(s'.rows[id], BeginRetry(id, s.rows[id].user, None), now)
  {
    var steps := [CrashConsole, Restart(now)];
    StepKeepsInv(s, steps[0], keep);
    StepKeepsInv(Do(s, steps[0], keep), steps[1], keep);
    RunOfTwo(s, steps, keep);
  }
}
