/**
 How far a definite verdict reaches: it speaks for the attempt that recorded it. A workflow that made
 one attempt only is safe; after a retry, a terminal verdict may stand beside a commit of an earlier
 attempt whose answer was lost.
 */
module ExactlyOnceLimits {
  import opened Basics
  import opened ConsoleTriggers
  import opened ConsoleTransitions
  import opened ExactlyOnce
  import B = LedgerBook

  predicate Definite(s: WorkflowState) {
    s == TerminalFailure || s == RetryableFailure
  }

  predicate Blames(s: System, id: WorkflowId, c: nat)
    requires id in s.rows
  {
    c in s.attempts && s.attempts[c].workflow == id && s.attempts[c].verdict == Some(s.rows[id].state)
  }

  /** Every definite failure in the table was recorded by one of the workflow's attempts. */
  ghost predicate Accountable(s: System) {
    && (forall id :: id in s.rows && Definite(s.rows[id].state) ==> exists c :: Blames(s, id, c))
    && (forall c :: c in s.attempts && s.attempts[c].waiting ==> s.attempts[c].verdict.None?)
  }

  lemma DefiniteRowsComeFromVerdicts(rows: Table, op: Op, t: Clock, keep: Retention, id: WorkflowId)
    requires TableOk(rows) && !op.RecordFailure?
    requires id in Apply(rows, op, t, keep).0 && Definite(Apply(rows, op, t, keep).0[id].state)
    ensures id in rows && Apply(rows, op, t, keep).0[id] == rows[id]
  {
  }

  lemma RowsStayAccountable(s: System, s': System)
    requires Accountable(s)
    requires forall c :: c in s.attempts ==>
               c in s'.attempts && s'.attempts[c].workflow == s.attempts[c].workflow
               && s'.attempts[c].verdict == s.attempts[c].verdict
    requires forall c :: c in s'.attempts && s'.attempts[c].waiting ==> s'.attempts[c].verdict.None?
    requires forall id :: id in s'.rows && Definite(s'.rows[id].state) ==>
               id in s.rows && s.rows[id].state == s'.rows[id].state
    ensures Accountable(s')
  {
    forall id | id in s'.rows && Definite(s'.rows[id].state) ensures exists c :: Blames(s', id, c) {
      var c :| Blames(s, id, c);
      assert Blames(s', id, c);
    }
  }

  lemma RecordedStaysAccountable(s: System, c: nat, verdict: WorkflowState, note: Note, t: Clock, keep: Retention)
    requires Accountable(s) && TableOk(s.rows) && c in s.attempts && s.attempts[c].waiting
    ensures Accountable(Recorded(s, c, verdict, note, t, keep))
  {
    var s' := Recorded(s, c, verdict, note, t, keep);
    var a := s.attempts[c];
    forall id | id in s'.rows && Definite(s'.rows[id].state) ensures exists d :: Blames(s', id, d) {
      if id in s.rows && s'.rows[id] == s.rows[id] {
        var d :| Blames(s, id, d);
        assert Blames(s', id, d);
      } else {
        assert Blames(s', id, c);
      }
    }
  }

  lemma OperateStaysAccountable(s: System, op: Op, t: Clock, keep: Retention)
    requires Inv(s) && Accountable(s) && Enabled(s, Operate(op, t))
    ensures Accountable(Do(s, Operate(op, t), keep))
  {
    var s' := Do(s, Operate(op, t), keep);
    forall id | id in s'.rows && Definite(s'.rows[id].state)
        ensures id in s.rows && s.rows[id].state == s'.rows[id].state {
      DefiniteRowsComeFromVerdicts(s.rows, op, t, keep, id);
    }
    RowsStayAccountable(s, s');
  }

  lemma DeliverStaysAccountable(s: System, c: nat, t: Clock, t2: Clock, keep: Retention)
    requires Inv(s) && Accountable(s) && Enabled(s, Deliver(c, t, t2))
    ensures Accountable(Do(s, Deliver(c, t, t2), keep))
  {
    var a := s.attempts[c];
    if a.answer.value.Failed? {
      RecordedStaysAccountable(s, c, FailureVerdict(B.DispositionOf(a.answer.value.code)),
          RefusalNote(a.answer.value.code), t, keep);
    } else {
      var op := RecordResponse(a.workflow, a.user, a.answer.value.id);
      if Apply(s.rows, op, t, keep).1.Done? {
        ReceiptStaysAccountable(s, Do(s, Deliver(c, t, t2), keep), c, op, t, keep);
      } else {
        RecordedStaysAccountable(s, c, WorkflowState.Uncertain, INTERNAL, t2, keep);
      }
    }
  }

  lemma SubmitStaysAccountable(s: System, op: Op, t: Clock, c: nat, keep: Retention)
    requires Inv(s) && Accountable(s) && Enabled(s, Submit(op, t, c))
    ensures Accountable(Do(s, Submit(op, t, c), keep))
  {
    SubmissionFacts(s.rows, op, t, keep);
    RowsStayAccountable(s, Do(s, Submit(op, t, c), keep));
  }

  lemma StepStaysAccountable(s: System, step: Step, keep: Retention)
    requires Inv(s) && Accountable(s) && Enabled(s, step)
    ensures Accountable(Do(s, step, keep))
  {
    var s' := Do(s, step, keep);
    match step
    case Operate(op, t) => OperateStaysAccountable(s, op, t, keep);
    case Submit(op, t, c) => SubmitStaysAccountable(s, op, t, c, keep);
    case GiveUp(c, t) => RecordedStaysAccountable(s, c, WorkflowState.Uncertain, LOST, t, keep);
    case Deliver(c, t, t2) => DeliverStaysAccountable(s, c, t, t2, keep);
    case _ => RowsStayAccountable(s, s');
  }

  lemma ReceiptStaysAccountable(s: System, s': System, c: nat, op: Op, t: Clock, keep: Retention)
    requires Inv(s) && Accountable(s) && c in s.attempts && s.attempts[c].waiting && op.RecordResponse?
    requires s'.rows == Apply(s.rows, op, t, keep).0
    requires s'.attempts == s.attempts[c := s.attempts[c].(waiting := false, verdict := Some(Committed))]
    ensures Accountable(s')
  {
    forall id | id in s'.rows && Definite(s'.rows[id].state) ensures exists d :: Blames(s', id, d) {
      DefiniteRowsComeFromVerdicts(s.rows, op, t, keep, id);
      var d :| Blames(s, id, d);
      assert Blames(s', id, d);
    }
  }

  lemma {:induction false} RunStaysAccountable(s: System, steps: seq<Step>, keep: Retention)
    requires Inv(s) && Accountable(s) && Legal(s, steps, keep)
    ensures Inv(Exec(s, steps, keep)) && Accountable(Exec(s, steps, keep))
    decreases |steps|
  {
    if steps != [] {
      StepKeepsInv(s, steps[0], keep);
      StepStaysAccountable(s, steps[0], keep);
      RunStaysAccountable(Do(s, steps[0], keep), steps[1..], keep);
    }
  }

  // ---------------------------------------------------------------- workflows that were never uncertain

  /** The workflow's row is in state uncertain at no point of the run. */
  predicate NeverUncertain(s: System, steps: seq<Step>, keep: Retention, id: WorkflowId)
    requires Legal(s, steps, keep)
    decreases |steps|
  {
    && (id in s.rows ==> s.rows[id].state != WorkflowState.Uncertain)
    && (steps != [] ==> NeverUncertain(Do(s, steps[0], keep), steps[1..], keep, id))
  }

  /** An attempt of the workflow that has recorded no definite failure. */
  predicate Unsettled(s: System, id: WorkflowId, c: nat) {
    && c in s.attempts && s.attempts[c].workflow == id
    && !(s.attempts[c].verdict.Some? && Definite(s.attempts[c].verdict.value))
  }

  /** While submitting, one attempt at most is unsettled; in every other state outside committed, none. */
  ghost predicate AtMostOneUnsettled(s: System, id: WorkflowId) {
    id in s.rows && s.rows[id].state != Committed ==>
      if s.rows[id].state == Submitting then forall c, d :: Unsettled(s, id, c) && Unsettled(s, id, d) ==> c == d
      else forall c :: !Unsettled(s, id, c)
  }

  ghost predicate Tracked(s: System, id: WorkflowId) {
    Inv(s) && Accountable(s) && AtMostOneUnsettled(s, id)
  }

  /** Steps that neither open nor settle an attempt, and leave the row or end its submission. */
  lemma SameUnsettled(s: System, s': System, id: WorkflowId)
    requires AtMostOneUnsettled(s, id)
    requires forall c :: Unsettled(s', id, c) ==> Unsettled(s, id, c)
    requires id in s'.rows ==> id in s.rows && (s.rows[id].state == Committed ==> s'.rows[id].state == Committed)
    requires id in s'.rows && s.rows[id].state == Submitting ==>
               s'.rows[id].state == Submitting || s'.rows[id].state == Committed
    ensures AtMostOneUnsettled(s', id)
  {
  }

  /** A failure is recorded on a submitting row only, and gives it the verdict's state. */
  lemma FailureFacts(rows: Table, op: Op, t: Clock, keep: Retention)
    requires op.RecordFailure?
    ensures var (rows', o) := Apply(rows, op, t, keep);
            if o.Done?
                then op.id in rows && rows[op.id].state == Submitting && rows' == rows[op.id := o.row]
                && o.row.state == op.verdict
            else rows' == rows
  {
  }

  lemma RecordedSettles(s: System, c: nat, verdict: WorkflowState, note: Note, t: Clock, keep: Retention,
      id: WorkflowId)
    requires Tracked(s, id) && c in s.attempts && s.attempts[c].waiting && verdict != Committed
    requires var s' := Recorded(s, c, verdict, note, t, keep); id in s'.rows ==>
               s'.rows[id].state != WorkflowState.Uncertain
    requires verdict == WorkflowState.Uncertain || Definite(verdict)
    ensures AtMostOneUnsettled(Recorded(s, c, verdict, note, t, keep), id)
  {
    var a := s.attempts[c];
    var op := RecordFailure(a.workflow, a.user, verdict, note);
    FailureFacts(s.rows, op, t, keep);
    var s' := Recorded(s, c, verdict, note, t, keep);
    assert a.verdict.None?;
    forall d | Unsettled(s', id, d) ensures Unsettled(s, id, d) {
    }
    if Apply(s.rows, op, t, keep).1.Done? && a.workflow == id {
      assert Unsettled(s, id, c) && !Unsettled(s', id, c);
    } else {
      SameUnsettled(s, s', id);
    }
  }

  lemma SubmitOpensOne(s: System, op: Op, t: Clock, c: nat, keep: Retention, id: WorkflowId)
    requires Tracked(s, id) && Enabled(s, Submit(op, t, c))
    requires id in s.rows ==> s.rows[id].state != WorkflowState.Uncertain
    ensures AtMostOneUnsettled(Do(s, Submit(op, t, c), keep), id)
  {
    SubmissionFacts(s.rows, op, t, keep);
    var (rows, o) := Apply(s.rows, op, t, keep);
    var s' := Do(s, Submit(op, t, c), keep);
    if o.Done? && o.row.state == Submitting && o.row.frozen.Some? && op.id == id {
      assert s.rows[id].state == Reviewing || s.rows[id].state == RetryableFailure;
      forall d | Unsettled(s', id, d) ensures d == c { assert d != c ==> Unsettled(s, id, d); }
    } else {
      forall d | Unsettled(s', id, d) ensures Unsettled(s, id, d) {
      }
      SameUnsettled(s, s', id);
    }
  }

  lemma PlainLeavesUnsettled(s: System, op: Op, t: Clock, keep: Retention, id: WorkflowId)
    requires Tracked(s, id) && Enabled(s, Operate(op, t))
    ensures AtMostOneUnsettled(Do(s, Operate(op, t), keep), id)
  {
    var s' := Do(s, Operate(op, t), keep);
    forall c | Unsettled(s', id, c) ensures Unsettled(s, id, c) && id in s.used { assert AttemptOk(s, s.attempts[c]); }
    if id in s.rows {
      SameUnsettled(s, s', id);
    }
  }

  lemma DeliverSettles(s: System, c: nat, t: Clock, t2: Clock, keep: Retention, id: WorkflowId)
    requires Tracked(s, id) && Enabled(s, Deliver(c, t, t2))
    requires var s' := Do(s, Deliver(c, t, t2), keep); id in s'.rows ==> s'.rows[id].state != WorkflowState.Uncertain
    ensures AtMostOneUnsettled(Do(s, Deliver(c, t, t2), keep), id)
  {
    var a := s.attempts[c];
    if a.answer.value.Failed? {
      RecordedSettles(s, c, FailureVerdict(B.DispositionOf(a.answer.value.code)), RefusalNote(a.answer.value.code), t,
          keep, id);
    } else {
      var op := RecordResponse(a.workflow, a.user, a.answer.value.id);
      if Apply(s.rows, op, t, keep).1.Done? {
        ReceiptSettles(s, c, op, t, keep, id);
      } else {
        RecordedSettles(s, c, WorkflowState.Uncertain, INTERNAL, t2, keep, id);
      }
    }
  }

  lemma ReceiptSettles(s: System, c: nat, op: Op, t: Clock, keep: Retention, id: WorkflowId)
    requires Tracked(s, id) && c in s.attempts && s.attempts[c].waiting && op.RecordResponse?
    requires Apply(s.rows, op, t, keep).1.Done?
    ensures AtMostOneUnsettled(
              s.(rows := Apply(s.rows, op, t, keep).0,
                  attempts := s.attempts[c := s.attempts[c].(waiting := false, verdict := Some(Committed))]), id)
  {
    var s' := s.(rows := Apply(s.rows, op, t, keep).0,
        attempts := s.attempts[c := s.attempts[c].(waiting := false, verdict := Some(Committed))]);
    assert s.attempts[c].verdict.None?;
    forall d | Unsettled(s', id, d) ensures Unsettled(s, id, d) {
    }
    SameUnsettled(s, s', id);
  }

  lemma StepStaysTracked(s: System, step: Step, keep: Retention, id: WorkflowId)
    requires Tracked(s, id) && Enabled(s, step)
    requires id in s.rows ==> s.rows[id].state != WorkflowState.Uncertain
    requires id in Do(s, step, keep).rows ==> Do(s, step, keep).rows[id].state != WorkflowState.Uncertain
    ensures Tracked(Do(s, step, keep), id)
  {
    StepKeepsInv(s, step, keep);
    StepStaysAccountable(s, step, keep);
    match step
    case Operate(op, t) => PlainLeavesUnsettled(s, op, t, keep, id);
    case Submit(op, t, c) => SubmitOpensOne(s, op, t, c, keep, id);
    case GiveUp(c, t) => RecordedSettles(s, c, WorkflowState.Uncertain, LOST, t, keep, id);
    case Deliver(c, t, t2) => DeliverSettles(s, c, t, t2, keep, id);
    case _ => QuietStaysTracked(s, step, keep, id);
  }

  lemma QuietStaysTracked(s: System, step: Step, keep: Retention, id: WorkflowId)
    requires Tracked(s, id) && Enabled(s, step)
    requires !step.Operate? && !step.Submit? && !step.GiveUp? && !step.Deliver?
    requires id in Do(s, step, keep).rows ==> Do(s, step, keep).rows[id].state != WorkflowState.Uncertain
    ensures AtMostOneUnsettled(Do(s, step, keep), id)
  {
    var s' := Do(s, step, keep);
    forall c | Unsettled(s', id, c) ensures Unsettled(s, id, c) {
    }
    SameUnsettled(s, s', id);
  }

  lemma {:induction false} RunStaysTracked(s: System, steps: seq<Step>, keep: Retention, id: WorkflowId)
    requires Tracked(s, id) && Legal(s, steps, keep) && NeverUncertain(s, steps, keep, id)
    ensures Tracked(Exec(s, steps, keep), id)
    decreases |steps|
  {
    if steps != [] {
      StepStaysTracked(s, steps[0], keep, id);
      RunStaysTracked(Do(s, steps[0], keep), steps[1..], keep, id);
    }
  }

  /**
   A definite verdict is final for every workflow whose row was never uncertain, however often it was
   retried: none of its attempts committed anything.
   */
  lemma DefiniteVerdictIsFinal(steps: seq<Step>, keep: Retention, id: WorkflowId)
    requires Legal(EMPTY, steps, keep) && NeverUncertain(EMPTY, steps, keep, id)
    requires var s := Exec(EMPTY, steps, keep); id in s.rows && Definite(s.rows[id].state)
    ensures var s := Exec(EMPTY, steps, keep);
            forall c :: c in s.attempts && s.attempts[c].workflow == id ==> s.attempts[c].posted.None?
  {
    RunStaysTracked(EMPTY, steps, keep, id);
    var s := Exec(EMPTY, steps, keep);
    forall c | c in s.attempts && s.attempts[c].workflow == id ensures s.attempts[c].posted.None? {
      assert !Unsettled(s, id, c) && AttemptOk(s, s.attempts[c]);
    }
  }

  /** A workflow with a single attempt and a definite verdict has committed nothing. */
  lemma SoleAttemptVerdictIsFinal(steps: seq<Step>, keep: Retention, id: WorkflowId, c: nat)
    requires Legal(EMPTY, steps, keep)
    requires var s := Exec(EMPTY, steps, keep);
             && id in s.rows && Definite(s.rows[id].state)
             && forall d :: d in s.attempts && s.attempts[d].workflow == id ==> d == c
    ensures var s := Exec(EMPTY, steps, keep);
            forall d :: d in s.attempts && s.attempts[d].workflow == id ==> s.attempts[d].posted.None?
  {
    RunStaysAccountable(EMPTY, steps, keep);
    var s := Exec(EMPTY, steps, keep);
    var d :| Blames(s, id, d);
    assert AttemptOk(s, s.attempts[d]);
  }

  lemma {:induction false} LegalAppend(s: System, steps: seq<Step>, step: Step, keep: Retention)
    requires Legal(s, steps, keep) && Enabled(Exec(s, steps, keep), step)
    ensures Legal(s, steps + [step], keep) && Exec(s, steps + [step], keep) == Do(Exec(s, steps, keep), step, keep)
    decreases |steps|
  {
    if steps == [] {
      assert [step][1..] == [] && [] + [step] == [step];
    } else {
      LegalAppend(Do(s, steps[0], keep), steps[1..], step, keep);
      assert (steps + [step])[1..] == steps[1..] + [step];
    }
  }

  const KEEP := Retention(10, 10)
  const T := Clock(0, 0, 0)
  const INPUT := CaptureInput(0, 0, 7)
  const REQUEST := FrozenRequest(0, INPUT)

  // The rows of workflow 0, one per step of the run below.
  const W1 := Workflow(0, 0, 0, 0, Editing, Some("idea"), None, None, None, None, 0, Some(10), 0)
  const W2 := W1.(state := Extracting, version := 1)
  const W3 := W2.(state := Reviewing, proposal := Some(Proposal(0, "idea")), version := 2)
  const W4 := W3.(state := Submitting, frozen := Some(REQUEST), expires := None, version := 4)
  const W5 := W4.(state := WorkflowState.Uncertain, error := Some(LOST), version := 5)
  const W6 := W5.(state := Submitting, error := None, version := 6)
  const W7 := W6.(state := TerminalFailure, error := Some(RefusalNote(B.IntegrityFailure)), expires := Some(10),
      version := 7)

  const POSTING := Wire(REQUEST, "p", [], [])
  const POSTED := B.Posted(B.EMPTY_BOOK, POSTING)
  const A0 := Attempt(0, 0, REQUEST, true, false, false, None, None, None)
  const A1 := A0.(sent := true)
  const A2 := A1.(served := true, answer := Some(B.Receipt("p", true)), posted := Some("p"))
  const A3 := A2.(waiting := false, verdict := Some(WorkflowState.Uncertain))
  const A5 := A1.(waiting := false, verdict := Some(WorkflowState.Uncertain))
  const A4 := A1.(served := true, answer := Some(B.Failed(B.IntegrityFailure)))

  function At(w: Workflow, attempts: map<nat, Attempt>, book: B.Book): System {
    System(map[0 := w], {0}, if w.frozen.Some? then map[0 := w.frozen.value] else map[], attempts, book)
  }

  ghost predicate Leads(s: System, step: Step, s': System) {
    Enabled(s, step) && Do(s, step, KEEP) == s'
  }

  lemma Drafting()
    ensures Leads(EMPTY, Operate(Create(0, 0, 0, "idea", 0), T), At(W1, map[], B.EMPTY_BOOK))
    ensures Leads(At(W1, map[], B.EMPTY_BOOK), Operate(BeginExtraction(0, 0, None), T), At(W2, map[], B.EMPTY_BOOK))
    ensures Leads(At(W2, map[], B.EMPTY_BOOK), Operate(FinishExtraction(0, 0, Some(Proposal(0, "idea")), []), T),
            At(W3, map[], B.EMPTY_BOOK))
  {
  }

  lemma Confirming()
    ensures Leads(At(W3, map[], B.EMPTY_BOOK), Submit(Freeze(0, 0, INPUT, None), T, 0),
            At(W4, map[0 := A0], B.EMPTY_BOOK))
    ensures Leads(At(W4, map[0 := A0], B.EMPTY_BOOK), Send(0), At(W4, map[0 := A1], B.EMPTY_BOOK))
  {
  }

  lemma PostingUnseen()
    ensures Leads(At(W4, map[0 := A1], B.EMPTY_BOOK), Serve(0, "p", [], [], B.Receipt("p", true), POSTED),
            At(W4, map[0 := A2], POSTED))
    ensures Leads(At(W4, map[0 := A2], POSTED), GiveUp(0, T), At(W5, map[0 := A3], POSTED))
  {
    assert "p" in POSTED.rows && "p" !in B.EMPTY_BOOK.rows;
  }

  /** The confirmed request is lost on the way: the console cannot tell. */
  lemma LosingUnserved()
    ensures Leads(At(W4, map[0 := A1], B.EMPTY_BOOK), GiveUp(0, T), At(W5, map[0 := A5], B.EMPTY_BOOK))
  {
  }

  lemma Replaying(first: Attempt, book: B.Book)
    ensures Leads(At(W5, map[0 := first], book), Submit(BeginRetry(0, 0, None), T, 1),
            At(W6, map[0 := first, 1 := A0], book))
    ensures Leads(At(W6, map[0 := first, 1 := A0], book), Send(1), At(W6, map[0 := first, 1 := A1], book))
  {
  }

  lemma Refusing(first: Attempt, book: B.Book)
    ensures Leads(At(W6, map[0 := first, 1 := A1], book), REFUSAL(book), At(W6, map[0 := first, 1 := A4], book))
  {
  }

  lemma Refused(first: Attempt, book: B.Book)
    ensures Leads(At(W6, map[0 := first, 1 := A4], book), Deliver(1, T, T), Ending(first, book))
  {
  }

  function REFUSAL(book: B.Book): Step {
    Serve(1, "q", [], [], B.Failed(B.IntegrityFailure), book)
  }

  function Ending(first: Attempt, book: B.Book): System {
    At(W7, map[0 := first, 1 := A4.(waiting := false, verdict := Some(TerminalFailure))], book)
  }

  lemma DraftedRun() returns (steps: seq<Step>)
    ensures Legal(EMPTY, steps, KEEP) && Exec(EMPTY, steps, KEEP) == At(W3, map[], B.EMPTY_BOOK)
  {
    steps := [];
    Drafting();
    var create, extract := Operate(Create(0, 0, 0, "idea", 0), T), Operate(BeginExtraction(0, 0, None), T);
    var ready := Operate(FinishExtraction(0, 0, Some(Proposal(0, "idea")), []), T);
    LegalAppend(EMPTY, steps, create, KEEP); steps := steps + [create];
    LegalAppend(EMPTY, steps, extract, KEEP); steps := steps + [extract];
    LegalAppend(EMPTY, steps, ready, KEEP); steps := steps + [ready];
  }

  lemma SentRun() returns (steps: seq<Step>)
    ensures Legal(EMPTY, steps, KEEP) && Exec(EMPTY, steps, KEEP) == At(W4, map[0 := A1], B.EMPTY_BOOK)
  {
    steps := DraftedRun();
    Confirming();
    var confirm := Submit(Freeze(0, 0, INPUT, None), T, 0);
    LegalAppend(EMPTY, steps, confirm, KEEP); steps := steps + [confirm];
    LegalAppend(EMPTY, steps, Send(0), KEEP); steps := steps + [Send(0)];
  }

  lemma RefusedRun(before: seq<Step>, first: Attempt, book: B.Book) returns (steps: seq<Step>)
    requires Legal(EMPTY, before, KEEP) && Exec(EMPTY, before, KEEP) == At(W5, map[0 := first], book)
    ensures Legal(EMPTY, steps, KEEP) && Exec(EMPTY, steps, KEEP) == Ending(first, book)
  {
    steps := before;
    Replaying(first, book);
    Refusing(first, book);
    Refused(first, book);
    var retry := Submit(BeginRetry(0, 0, None), T, 1);
    LegalAppend(EMPTY, steps, retry, KEEP); steps := steps + [retry];
    LegalAppend(EMPTY, steps, Send(1), KEEP); steps := steps + [Send(1)];
    LegalAppend(EMPTY, steps, REFUSAL(book), KEEP); steps := steps + [REFUSAL(book)];
    LegalAppend(EMPTY, steps, Deliver(1, T, T), KEEP); steps := steps + [Deliver(1, T, T)];
  }

  /** Confirmed and posted, the answer lost, the replay refused: terminal, yet committed. */
  lemma TerminalWorkflowMayHideACommit() returns (steps: seq<Step>)
    ensures Legal(EMPTY, steps, KEEP) && Exec(EMPTY, steps, KEEP) == Ending(A3, POSTED)
    ensures var s := Exec(EMPTY, steps, KEEP);
            0 in s.rows && s.rows[0].state == TerminalFailure && s.rows[0].key in s.book.keys
  {
    steps := SentRun();
    PostingUnseen();
    var serve := Serve(0, "p", [], [], B.Receipt("p", true), POSTED);
    LegalAppend(EMPTY, steps, serve, KEEP); steps := steps + [serve];
    LegalAppend(EMPTY, steps, GiveUp(0, T), KEEP); steps := steps + [GiveUp(0, T)];
    steps := RefusedRun(steps, A3, POSTED);
  }

  /** Two runs end with equal tables, a terminal workflow in them, its key bound after the first run alone. */
  predicate SameRowsOtherBook(posted: seq<Step>, lost: seq<Step>) {
    && Legal(EMPTY, posted, KEEP) && Legal(EMPTY, lost, KEEP)
    && var s, t := Exec(EMPTY, posted, KEEP), Exec(EMPTY, lost, KEEP);
       && s.rows == t.rows && 0 in s.rows && s.rows[0].state == TerminalFailure
       && s.rows[0].key in s.book.keys && t.rows[0].key !in t.book.keys
  }

  /**
   Equal rows, one key bound and one not: no condition on the console's own table decides whether a
   workflow that was once uncertain has been committed.
   */
  lemma RowsCannotTell() returns (posted: seq<Step>, lost: seq<Step>)
    ensures SameRowsOtherBook(posted, lost)
  {
    posted := TerminalWorkflowMayHideACommit();
    lost := SentRun();
    LosingUnserved();
    LegalAppend(EMPTY, lost, GiveUp(0, T), KEEP); lost := lost + [GiveUp(0, T)];
    lost := RefusedRun(lost, A5, B.EMPTY_BOOK);
  }
}
