/**
 The console, a lossy link and the idempotent backend together. Requests may be served late or
 never, answers may be lost, the console may crash and restart, and other clients capture too.
 */
module ExactlyOnce {
  import opened Basics
  import opened ConsoleTriggers
  import opened ConsoleTransitions
  import B = LedgerBook
  import VaultDisk

  /** One `_submit`: the thread that waits, the request on the wire, and what became of them. */
  datatype Attempt = Attempt(
    workflow: WorkflowId, user: User, request: FrozenRequest,
    waiting: bool,                      // the console thread is still there
    sent: bool, served: bool,           // the request reached the wire / was handled by the backend
    answer: Option<B.Answer>,
    posted: Option<PredictionId>,       // the prediction this attempt itself committed
    verdict: Option<WorkflowState>)     // what this attempt recorded in the store

  datatype System = System(
    rows: Table, used: set<WorkflowId>, first: map<WorkflowId, FrozenRequest>,
    attempts: map<nat, Attempt>, book: B.Book)

  const EMPTY := System(map[], {}, map[], map[], B.EMPTY_BOOK)

  datatype Step =
    | Operate(op: Op, t: Clock)
    | Submit(op: Op, t: Clock, c: nat)                 // confirm or retry: opens an attempt
    | Send(c: nat)
    | Serve(c: nat, id: PredictionId, record: VaultDisk.Bytes, snapshot: VaultDisk.Bytes, answer: B.Answer,
        book: B.Book)
    | Deliver(c: nat, t: Clock, t2: Clock)
    | GiveUp(c: nat, t: Clock)                         // transport failure, timeout, unreadable answer
    | CrashConsole
    | Restart(now: Time)
    | Cleanup(now: Time)
    | OtherCapture(call: B.Call, answer: B.Answer, book: B.Book)

  function Wire(r: FrozenRequest, id: PredictionId, record: VaultDisk.Bytes, snapshot: VaultDisk.Bytes): B.Call {
    B.Submit(id, record, snapshot, Some((r.key, r.input.payload)))
  }

  /** `_failure_state` */
  function FailureVerdict(d: B.Disposition): WorkflowState {
    match d
    case Terminal => TerminalFailure
    case Retryable => RetryableFailure
    case Uncertain => WorkflowState.Uncertain
  }

  const LOST := Note("backend_response_unverified", ["capture outcome requires exact replay"])
  const INTERNAL := Note("console_internal_error", ["capture outcome requires exact replay"])

  function RefusalNote(code: B.ErrorCode): Note {
    Note(B.CodeText(code), [])
  }

  predicate PlainOp(op: Op) {
    !op.Freeze? && !op.BeginRetry? && !op.RecordResponse? && !op.RecordFailure?
  }

  predicate Enabled(s: System, step: Step) {
    match step
    case Operate(op, _) => PlainOp(op) && (op.Create? ==> op.id !in s.used)
    case Submit(op, _, c) => (op.Freeze? || op.BeginRetry?) && c !in s.attempts
    case Send(c) => c in s.attempts && s.attempts[c].waiting && !s.attempts[c].sent
    case Serve(c, id, record, snapshot, answer, book) =>
      c in s.attempts && s.attempts[c].sent && !s.attempts[c].served
      && B.CallSpec(s.book, book, Wire(s.attempts[c].request, id, record, snapshot), answer)
    case Deliver(c, _, _) =>
      c in s.attempts && s.attempts[c].waiting && s.attempts[c].answer.Some? && !s.attempts[c].answer.value.NoAnswer?
    case GiveUp(c, _) => c in s.attempts && s.attempts[c].waiting
    case Restart(_) => forall c :: c in s.attempts ==> !s.attempts[c].waiting
    case OtherCapture(call, answer, book) => B.CallSpec(s.book, book, call, answer)
    case _ => true
  }

  function Opened(s: System, op: Op, t: Clock, keep: Retention, c: nat): System
    requires op.Freeze? || op.BeginRetry?
  {
    var (rows, o) := Apply(s.rows, op, t, keep);
    if o.Done? && o.row.state == Submitting && o.row.frozen.Some? then
      var r := o.row.frozen.value;
      s.(rows := rows,
         first := if op.id in s.first then s.first else s.first[op.id := r],
         attempts := s.attempts[c := Attempt(op.id, op.user, r, true, false, false, None, None, None)])
    else s.(rows := rows)
  }

  /** Records an attempt's outcome and ends its thread. */
  function Recorded(s: System, c: nat, verdict: WorkflowState, note: Note, t: Clock, keep: Retention): System
    requires c in s.attempts
  {
    var a := s.attempts[c];
    var (rows, o) := Apply(s.rows, RecordFailure(a.workflow, a.user, verdict, note), t, keep);
    s.(rows := rows,
        attempts := s.attempts[c := a.(waiting := false, verdict := if o.Done? then Some(verdict) else None)])
  }

  /** `_submit` after the answer: store the receipt, or classify the failure. */
  function Delivered(s: System, c: nat, t: Clock, t2: Clock, keep: Retention): System
    requires c in s.attempts && s.attempts[c].answer.Some?
  {
    var a := s.attempts[c];
    match a.answer.value
    case Receipt(id, _) =>
      var (rows, o) := Apply(s.rows, RecordResponse(a.workflow, a.user, id), t, keep);
      if o.Done? then s.(rows := rows, attempts := s.attempts[c := a.(waiting := false, verdict := Some(Committed))])
      else Recorded(s, c, WorkflowState.Uncertain, INTERNAL, t2, keep)
    case Failed(code) => Recorded(s, c, FailureVerdict(B.DispositionOf(code)), RefusalNote(code), t, keep)
    case NoAnswer => s
  }

  function Do(s: System, step: Step, keep: Retention): System
    requires Enabled(s, step)
  {
    match step
    case Operate(op, t) => s.(rows := Apply(s.rows, op, t, keep).0, used := if op.Create?
        then s.used + {op.id} else s.used)
    case Submit(op, t, c) => Opened(s, op, t, keep, c)
    case Send(c) => s.(attempts := s.attempts[c := s.attempts[c].(sent := true)])
    case Serve(c, id, record, snapshot, answer, book) =>
      s.(book := book,
         attempts := s.attempts[c := s.attempts[c].(served := true, answer := Some(answer),
             posted := if book != s.book then Some(id) else None)])
    case Deliver(c, t, t2) => Delivered(s, c, t, t2, keep)
    case GiveUp(c, t) => Recorded(s, c, WorkflowState.Uncertain, LOST, t, keep)
    case CrashConsole => s.(attempts := map c | c in s.attempts :: s.attempts[c].(waiting := false))
    case Restart(now) => s.(rows := RecoverAbandoned(s.rows, now, keep))
    case Cleanup(now) => s.(rows := CleanupExpired(s.rows, now))
    case OtherCapture(_, _, book) => s.(book := book)
  }

  predicate Legal(s: System, steps: seq<Step>, keep: Retention)
    decreases |steps|
  {
    steps == [] || (Enabled(s, steps[0]) && Legal(Do(s, steps[0], keep), steps[1..], keep))
  }

  function Exec(s: System, steps: seq<Step>, keep: Retention): System
    requires Legal(s, steps, keep)
    decreases |steps|
  {
    if steps == [] then s else Exec(Do(s, steps[0], keep), steps[1..], keep)
  }

  // ---------------------------------------------------------------- invariant

  predicate Bound(b: B.Book, r: FrozenRequest, id: PredictionId) {
    r.key in b.keys && b.keys[r.key] == B.Binding(r.input.payload, id)
  }

  ghost predicate BookOk(b: B.Book) {
    forall k :: k in b.keys ==> B.IsCommitted(b, b.keys[k].id)
  }

  ghost predicate RowLinked(s: System, id: WorkflowId)
    requires id in s.rows
  {
    var w := s.rows[id];
    && id in s.used
    && (w.frozen.Some? <==> id in s.first)
    && (w.frozen.Some? ==> s.first[id] == w.frozen.value)
    && (w.receipt.Some? ==> w.frozen.Some? && Bound(s.book, w.frozen.value, w.receipt.value))
  }

  ghost predicate AttemptOk(s: System, a: Attempt) {
    && a.workflow in s.used
    && a.workflow in s.first && s.first[a.workflow] == a.request
    && (!a.served ==> a.answer.None? && a.posted.None?)
    && (a.answer.Some? && a.answer.value.Receipt? ==> Bound(s.book, a.request, a.answer.value.id))
    && (a.posted.Some? ==> Bound(s.book, a.request, a.posted.value))
    && (a.answer.Some? && a.answer.value.Failed? && B.DispositionOf(a.answer.value.code) != B.Uncertain ==>
          a.posted.None?)
    && (a.verdict.Some? && a.verdict.value in {TerminalFailure, RetryableFailure} ==> a.served && a.posted.None?)
  }

  ghost predicate OnePosts(s: System) {
    forall c1, c2 ::
      (&& c1 in s.attempts && c2 in s.attempts
       && s.attempts[c1].posted.Some? && s.attempts[c2].posted.Some?
       && s.attempts[c1].request.key == s.attempts[c2].request.key) ==> c1 == c2
  }

  ghost predicate Inv(s: System) {
    && TableOk(s.rows) && BookOk(s.book) && OnePosts(s)
    && (forall id :: id in s.rows ==> RowLinked(s, id))
    && (forall c :: c in s.attempts ==> AttemptOk(s, s.attempts[c]))
    && (forall id :: id in s.first ==> id in s.used)
  }

  // ---------------------------------------------------------------- preservation

  lemma SpecGrowsBook(b: B.Book, b': B.Book, c: B.Call, a: B.Answer)
    requires B.CallSpec(b, b', c, a) && BookOk(b)
    ensures BookOk(b')
    ensures forall k :: k in b.keys ==> k in b'.keys && b'.keys[k] == b.keys[k]
  {
  }

  /** Store updates that keep each row's frozen request and receipt keep the links. */
  lemma RowsKeepInv(s: System, rows: Table)
    requires Inv(s) && TableOk(rows)
    requires forall id :: id in rows ==> id in s.used && (id in s.rows ==>
               rows[id].receipt == s.rows[id].receipt && rows[id].frozen == s.rows[id].frozen)
    requires forall id :: id in rows && id !in s.rows ==>
               rows[id].frozen.None? && rows[id].receipt.None? && id !in s.first
    ensures Inv(s.(rows := rows))
  {
    var s' := s.(rows := rows);
    forall id | id in rows ensures RowLinked(s', id) {
      if id in s.rows { assert RowLinked(s, id); }
    }
    forall c | c in s'.attempts ensures AttemptOk(s', s'.attempts[c]) { assert AttemptOk(s, s.attempts[c]); }
  }

  lemma PlainKeeps(s: System, op: Op, t: Clock, keep: Retention)
    requires Inv(s) && Enabled(s, Operate(op, t))
    ensures Inv(Do(s, Operate(op, t), keep))
  {
    var rows := Apply(s.rows, op, t, keep).0;
    ApplyKeepsTable(s.rows, op, t, keep);
    var used := if op.Create? then s.used + {op.id} else s.used;
    var s1 := s.(used := used);
    assert Inv(s1) by {
      forall id | id in s1.rows ensures RowLinked(s1, id) { assert RowLinked(s, id); }
      forall c | c in s1.attempts ensures AttemptOk(s1, s1.attempts[c]) { assert AttemptOk(s, s.attempts[c]); }
    }
    forall id | id in rows && id in s.rows ensures rows[id].receipt == s.rows[id].receipt
        && rows[id].frozen == s.rows[id].frozen {
      PlainKeepsFrozen(s.rows, op, t, keep, id);
    }
    forall id | id in rows ensures id in used { if id in s.rows { assert RowLinked(s, id); } }
    RowsKeepInv(s1, rows);
  }

  lemma PlainKeepsFrozen(rows: Table, op: Op, t: Clock, keep: Retention, id: WorkflowId)
    requires TableOk(rows) && PlainOp(op) && id in rows
    ensures id in Apply(rows, op, t, keep).0
    ensures Apply(rows, op, t, keep).0[id].frozen == rows[id].frozen
            && Apply(rows, op, t, keep).0[id].receipt == rows[id].receipt
  {
    ApplyPreserves(rows, op, t, keep, id);
    ApplyKeepsTable(rows, op, t, keep);
  }

  lemma FailureKeepsFrozen(rows: Table, op: Op, t: Clock, keep: Retention, id: WorkflowId)
    requires TableOk(rows) && op.RecordFailure? && id in rows
    ensures id in Apply(rows, op, t, keep).0
    ensures Apply(rows, op, t, keep).0[id].frozen == rows[id].frozen
            && Apply(rows, op, t, keep).0[id].receipt == rows[id].receipt
    ensures Apply(rows, op, t, keep).0.Keys == rows.Keys
  {
    ApplyPreserves(rows, op, t, keep, id);
    ApplyKeepsTable(rows, op, t, keep);
  }

  lemma FailureRowsKeep(s: System, op: Op, t: Clock, keep: Retention)
    requires Inv(s) && op.RecordFailure?
    ensures Inv(s.(rows := Apply(s.rows, op, t, keep).0))
  {
    var rows := Apply(s.rows, op, t, keep).0;
    ApplyKeepsTable(s.rows, op, t, keep);
    forall id | id in rows ensures id in s.rows && id in s.used && rows[id].receipt == s.rows[id].receipt
        && rows[id].frozen == s.rows[id].frozen {
      assert id in s.rows;
      assert RowLinked(s, id);
      FailureKeepsFrozen(s.rows, op, t, keep, id);
    }
    RowsKeepInv(s, rows);
  }

  lemma RecordedKeeps(s: System, c: nat, verdict: WorkflowState, note: Note, t: Clock, keep: Retention)
    requires Inv(s) && c in s.attempts && verdict != Committed
    requires verdict in {TerminalFailure, RetryableFailure} ==> s.attempts[c].served && s.attempts[c].posted.None?
    ensures Inv(Recorded(s, c, verdict, note, t, keep))
  {
    var a := s.attempts[c];
    var op := RecordFailure(a.workflow, a.user, verdict, note);
    var rows := Apply(s.rows, op, t, keep).0;
    FailureRowsKeep(s, op, t, keep);
    var s' := Recorded(s, c, verdict, note, t, keep);
    forall d | d in s'.attempts ensures AttemptOk(s', s'.attempts[d]) { assert AttemptOk(s, s.attempts[d]); }
    forall id | id in s'.rows ensures RowLinked(s', id) { assert RowLinked(s.(rows := rows), id); }
  }

  /** A submission touches one row: it opens an attempt with the row's frozen request, or changes nothing. */
  lemma SubmissionFacts(rows: Table, op: Op, t: Clock, keep: Retention)
    requires TableOk(rows) && (op.Freeze? || op.BeginRetry?)
    ensures var (rows', o) := Apply(rows, op, t, keep);
            if o.Done? && o.row.state == Submitting && o.row.frozen.Some? then
              && op.id in rows && rows' == rows[op.id := o.row] && o.row.receipt.None? && rows[op.id].receipt.None?
              && (rows[op.id].frozen.Some? ==> o.row.frozen == rows[op.id].frozen)
            else rows' == rows
  {
    if op.id in rows { ApplyPreserves(rows, op, t, keep, op.id); ApplyKeepsTable(rows, op, t, keep); }
  }

  lemma OpenedKeeps(s: System, op: Op, t: Clock, c: nat, keep: Retention)
    requires Inv(s) && Enabled(s, Submit(op, t, c))
    ensures Inv(Do(s, Submit(op, t, c), keep))
  {
    var (rows, o) := Apply(s.rows, op, t, keep);
    SubmissionFacts(s.rows, op, t, keep);
    ApplyKeepsTable(s.rows, op, t, keep);
    if o.Done? && o.row.state == Submitting && o.row.frozen.Some? {
      assert RowLinked(s, op.id);
      OpenedOne(s, op, o.row, c);
    }
  }

  lemma OpenedOne(s: System, op: Op, w: Workflow, c: nat)
    requires Inv(s) && (op.Freeze? || op.BeginRetry?) && c !in s.attempts && op.id in s.rows && RowLinked(s, op.id)
    requires w.frozen.Some? && w.receipt.None? && TableOk(s.rows[op.id := w])
    requires s.rows[op.id].frozen.Some? ==> w.frozen == s.rows[op.id].frozen
    requires op.id in s.first ==> s.first[op.id] == w.frozen.value
    ensures Inv(s.(rows := s.rows[op.id := w],
                   first := if op.id in s.first then s.first else s.first[op.id := w.frozen.value],
                   attempts := s.attempts[c := Attempt(op.id, op.user, w.frozen.value, true, false, false, None, None,
                       None)]))
  {
    var s' := s.(rows := s.rows[op.id := w],
                 first := if op.id in s.first then s.first else s.first[op.id := w.frozen.value],
                 attempts := s.attempts[c := Attempt(op.id, op.user, w.frozen.value, true, false, false, None, None,
                     None)]);
    forall id | id in s'.rows ensures RowLinked(s', id) { assert RowLinked(s, id); }
    forall d | d in s'.attempts ensures AttemptOk(s', s'.attempts[d]) {
      if d != c { assert AttemptOk(s, s.attempts[d]); }
    }
  }

  lemma BookKeepsInv(s: System, book: B.Book)
    requires Inv(s) && BookOk(book)
    requires forall k :: k in s.book.keys ==> k in book.keys && book.keys[k] == s.book.keys[k]
    ensures Inv(s.(book := book))
  {
    var s' := s.(book := book);
    forall id | id in s'.rows ensures RowLinked(s', id) { assert RowLinked(s, id); }
    forall c | c in s'.attempts ensures AttemptOk(s', s'.attempts[c]) { assert AttemptOk(s, s.attempts[c]); }
  }

  lemma ServeKeeps(s: System, step: Step, keep: Retention)
    requires Inv(s) && step.Serve? && Enabled(s, step)
    ensures Inv(Do(s, step, keep))
  {
    var a := s.attempts[step.c];
    SpecGrowsBook(s.book, step.book, Wire(a.request, step.id, step.record, step.snapshot), step.answer);
    BookKeepsInv(s, step.book);
    var s1 := s.(book := step.book);
    var s' := Do(s, step, keep);
    assert AttemptOk(s, a);
    forall id | id in s'.rows ensures RowLinked(s', id) { assert RowLinked(s1, id); }
    forall d | d in s'.attempts ensures AttemptOk(s', s'.attempts[d]) {
      if d != step.c { assert AttemptOk(s1, s1.attempts[d]); }
    }
    forall d | d in s.attempts && s.attempts[d].posted.Some? ensures s.attempts[d].request.key in s.book.keys {
      assert AttemptOk(s, s.attempts[d]);
    }
    assert OnePosts(s');
  }

  lemma DeliverKeeps(s: System, c: nat, t: Clock, t2: Clock, keep: Retention)
    requires Inv(s) && Enabled(s, Deliver(c, t, t2))
    ensures Inv(Do(s, Deliver(c, t, t2), keep))
  {
    var a := s.attempts[c];
    assert AttemptOk(s, a);
    match a.answer.value
    case Failed(code) => RecordedKeeps(s, c, FailureVerdict(B.DispositionOf(code)), RefusalNote(code), t, keep);
    case Receipt(pid, _) =>
      var op := RecordResponse(a.workflow, a.user, pid);
      var (rows, o) := Apply(s.rows, op, t, keep);
      if o.Done? {
        ApplyKeepsTable(s.rows, op, t, keep);
        var s' := Do(s, Deliver(c, t, t2), keep);
        forall id | id in s'.rows ensures RowLinked(s', id) {
          assert RowLinked(s, id);
          ApplyPreserves(s.rows, op, t, keep, id);
        }
        forall d | d in s'.attempts ensures AttemptOk(s', s'.attempts[d]) { assert AttemptOk(s, s.attempts[d]); }
      } else {
        RecordedKeeps(s, c, WorkflowState.Uncertain, INTERNAL, t2, keep);
      }
  }

  lemma RestartKeeps(s: System, now: Time, keep: Retention)
    requires Inv(s) && Enabled(s, Restart(now))
    ensures Inv(Do(s, Restart(now), keep))
  {
    var s' := Do(s, Restart(now), keep);
    BulkKeepsTable(s.rows, now, keep);
    forall id | id in s'.rows ensures id in s.used && s'.rows[id].receipt == s.rows[id].receipt
        && s'.rows[id].frozen == s.rows[id].frozen {
      assert RowLinked(s, id);
    }
    RowsKeepInv(s, s'.rows);
  }

  lemma CleanupKeeps(s: System, now: Time, keep: Retention)
    requires Inv(s) && Enabled(s, Cleanup(now))
    ensures Inv(Do(s, Cleanup(now), keep))
  {
    var s' := Do(s, Cleanup(now), keep);
    BulkKeepsTable(s.rows, now, keep);
    forall id | id in s'.rows ensures id in s.used { assert RowLinked(s, id); }
    RowsKeepInv(s, s'.rows);
  }

  lemma StepKeepsInv(s: System, step: Step, keep: Retention)
    requires Inv(s) && Enabled(s, step)
    ensures Inv(Do(s, step, keep))
  {
    var s' := Do(s, step, keep);
    match step
    case Operate(op, t) => PlainKeeps(s, op, t, keep);
    case Submit(op, t, c) => OpenedKeeps(s, op, t, c, keep);
    case Serve(_, _, _, _, _, _) => ServeKeeps(s, step, keep);
    case Deliver(c, t, t2) => DeliverKeeps(s, c, t, t2, keep);
    case GiveUp(c, t) => RecordedKeeps(s, c, WorkflowState.Uncertain, LOST, t, keep);
    case OtherCapture(call, answer, book) => SpecGrowsBook(s.book, book, call, answer); BookKeepsInv(s, book);
    case Restart(now) => RestartKeeps(s, now, keep);
    case Cleanup(now) => CleanupKeeps(s, now, keep);
    case Send(c) => AttemptFlagsKeep(s, s');
    case CrashConsole => AttemptFlagsKeep(s, s');
  }

  /** Only `sent` and `waiting` differ. */
  lemma AttemptFlagsKeep(s: System, s': System)
    requires Inv(s) && s'.attempts.Keys == s.attempts.Keys && s' == s.(attempts := s'.attempts)
    requires forall c :: c in s.attempts ==>
               s'.attempts[c] == s.attempts[c].(sent := s'.attempts[c].sent, waiting := s'.attempts[c].waiting)
    ensures Inv(s')
  {
    forall id | id in s'.rows ensures RowLinked(s', id) { assert RowLinked(s, id); }
    forall c | c in s'.attempts ensures AttemptOk(s', s'.attempts[c]) { assert AttemptOk(s, s.attempts[c]); }
  }

  lemma {:induction false} RunKeepsInv(s: System, steps: seq<Step>, keep: Retention)
    requires Inv(s) && Legal(s, steps, keep)
    ensures Inv(Exec(s, steps, keep))
    decreases |steps|
  {
    if steps != [] {
      StepKeepsInv(s, steps[0], keep);
      RunKeepsInv(Do(s, steps[0], keep), steps[1..], keep);
    }
  }

  // ---------------------------------------------------------------- theorems

  /** All attempts of a workflow carry one frozen request. */
  lemma OneFrozenRequest(steps: seq<Step>, keep: Retention, c1: nat, c2: nat)
    requires Legal(EMPTY, steps, keep)
    requires var s := Exec(EMPTY, steps, keep);
             c1 in s.attempts && c2 in s.attempts && s.attempts[c1].workflow == s.attempts[c2].workflow
    ensures var s := Exec(EMPTY, steps, keep); s.attempts[c1].request == s.attempts[c2].request
  {
    RunKeepsInv(EMPTY, steps, keep);
    var s := Exec(EMPTY, steps, keep);
    assert AttemptOk(s, s.attempts[c1]) && AttemptOk(s, s.attempts[c2]);
  }

  /** At most one attempt ever commits under a key, and every receipt under it names that prediction. */
  lemma AtMostOneCommit(steps: seq<Step>, keep: Retention, c1: nat, c2: nat)
    requires Legal(EMPTY, steps, keep)
    requires var s := Exec(EMPTY, steps, keep);
             c1 in s.attempts && c2 in s.attempts && s.attempts[c1].request.key == s.attempts[c2].request.key
    ensures var s := Exec(EMPTY, steps, keep);
            var a1, a2 := s.attempts[c1], s.attempts[c2];
            && (a1.posted.Some? && a2.posted.Some? ==> c1 == c2)
            && (a1.posted.Some? && a2.answer.Some? && a2.answer.value.Receipt? ==>
                  a2.answer.value.id == a1.posted.value)
            && (a1.answer.Some? && a1.answer.value.Receipt? && a2.answer.Some? && a2.answer.value.Receipt? ==>
                  a1.answer.value.id == a2.answer.value.id)
  {
    RunKeepsInv(EMPTY, steps, keep);
    var s := Exec(EMPTY, steps, keep);
    assert AttemptOk(s, s.attempts[c1]) && AttemptOk(s, s.attempts[c2]);
  }

  /** A committed workflow's receipt names the one prediction its own request is bound to. */
  lemma ReceiptIsTheCommit(steps: seq<Step>, keep: Retention, id: WorkflowId)
    requires Legal(EMPTY, steps, keep)
    requires var s := Exec(EMPTY, steps, keep); id in s.rows && s.rows[id].state == Committed
    ensures var s := Exec(EMPTY, steps, keep);
            var w := s.rows[id];
            && w.receipt.Some? && w.frozen.Some? && w.frozen.value.key == w.key
            && w.key in s.book.keys && s.book.keys[w.key] == B.Binding(w.frozen.value.input.payload, w.receipt.value)
            && B.IsCommitted(s.book, w.receipt.value)
  {
    RunKeepsInv(EMPTY, steps, keep);
    var s := Exec(EMPTY, steps, keep);
    assert RowLinked(s, id) && RowOk(s.rows[id]);
  }

  /** An attempt recorded as a definite failure committed nothing itself. */
  lemma DefiniteFailureHidesNoCommit(steps: seq<Step>, keep: Retention, c: nat)
    requires Legal(EMPTY, steps, keep)
    requires var s := Exec(EMPTY, steps, keep); c in s.attempts && s.attempts[c].posted.Some?
    ensures var s := Exec(EMPTY, steps, keep);
            s.attempts[c].verdict.Some? ==> s.attempts[c].verdict.value !in {TerminalFailure, RetryableFailure}
  {
    RunKeepsInv(EMPTY, steps, keep);
    assert AttemptOk(Exec(EMPTY, steps, keep), Exec(EMPTY, steps, keep).attempts[c]);
  }

  /** An uncertain or retryable workflow can always be replayed, with the very same request. */
  lemma ReplayIsAlwaysPossible(steps: seq<Step>, keep: Retention, id: WorkflowId, t: Clock)
    requires Legal(EMPTY, steps, keep)
    requires var s := Exec(EMPTY, steps, keep);
             id in s.rows && s.rows[id].state in {WorkflowState.Uncertain, RetryableFailure}
    ensures var s := Exec(EMPTY, steps, keep);
            var o := Apply(s.rows, BeginRetry(id, s.rows[id].user, Some(s.rows[id].version)), t, keep).1;
            o.Done? && o.row.state == Submitting && o.row.frozen == s.rows[id].frozen && o.row.frozen.Some?
  {
    RunKeepsInv(EMPTY, steps, keep);
    assert RowOk(Exec(EMPTY, steps, keep).rows[id]);
  }
}
