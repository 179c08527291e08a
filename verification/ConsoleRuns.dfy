/** What the console table keeps over whole runs of its operations, restarts and cleanups. */
module ConsoleRuns {
  import opened Basics
  import opened ConsoleTriggers
  import opened ConsoleTransitions

  datatype Event = Operate(op: Op, t: Clock) | Restart(now: Time) | Cleanup(now: Time)

  function After(rows: Table, e: Event, keep: Retention): Table {
    match e
    case Operate(op, t) => Apply(rows, op, t, keep).0
    case Restart(now) => RecoverAbandoned(rows, now, keep)
    case Cleanup(now) => CleanupExpired(rows, now)
  }

  function Run(rows: Table, es: seq<Event>, keep: Retention): Table
    decreases |es|
  {
    if es == [] then rows else Run(After(rows, es[0], keep), es[1..], keep)
  }

  lemma EventKeepsTable(rows: Table, e: Event, keep: Retention)
    requires TableOk(rows)
    ensures TableOk(After(rows, e, keep))
  {
    match e
    case Operate(op, t) => ApplyKeepsTable(rows, op, t, keep);
    case Restart(now) => BulkKeepsTable(rows, now, keep);
    case Cleanup(now) => BulkKeepsTable(rows, now, keep);
  }

  /** Every reachable row satisfies the durable-payload invariant. */
  lemma {:induction false} ReachableRowsAreSound(es: seq<Event>, keep: Retention, rows: Table)
    requires TableOk(rows)
    ensures forall id :: id in Run(rows, es, keep) ==> RowOk(Run(rows, es, keep)[id])
    ensures TableOk(Run(rows, es, keep))
    decreases |es|
  {
    if es != [] {
      EventKeepsTable(rows, es[0], keep);
      ReachableRowsAreSound(es[1..], keep, After(rows, es[0], keep));
    }
  }

  predicate Creates(e: Event, id: WorkflowId) {
    e.Operate? && e.op.Create? && e.op.id == id
  }

  /** While it exists, a row keeps its identity and frozen request, and its version never falls. */
  ghost predicate Ages(o: Workflow, n: Workflow) {
    && n.key == o.key && n.user == o.user && n.schema == o.schema && n.created == o.created && n.version >= o.version
    && (o.frozen.Some? ==> n.frozen == o.frozen)
    && (o.receipt.Some? ==> n.receipt == o.receipt)
  }

  lemma EventAges(rows: Table, e: Event, keep: Retention, id: WorkflowId)
    requires TableOk(rows) && !Creates(e, id)
    ensures id in After(rows, e, keep) ==> id in rows && Ages(rows[id], After(rows, e, keep)[id])
    ensures id in rows && ReconciliationState(rows[id].state) ==> id in After(rows, e, keep)
  {
    match e
    case Operate(op, t) => if id in rows { ApplyPreserves(rows, op, t, keep, id); }
    case Restart(now) => if id in rows { RecoveryAccepted(rows[id], now, keep); }
    case Cleanup(now) => CleanupAccepted(rows, now);
  }

  /** Along any run a row keeps its identity, and a frozen request or a receipt is never lost or changed. */
  lemma {:induction false} FrozenForever(rows: Table, es: seq<Event>, keep: Retention, id: WorkflowId)
    requires TableOk(rows) && forall i :: 0 <= i < |es| ==> !Creates(es[i], id)
    ensures id in Run(rows, es, keep) ==> id in rows && Ages(rows[id], Run(rows, es, keep)[id])
    decreases |es|
  {
    if es != [] {
      EventKeepsTable(rows, es[0], keep);
      assert !Creates(es[0], id);
      EventAges(rows, es[0], keep, id);
      FrozenForever(After(rows, es[0], keep), es[1..], keep, id);
    }
  }

  lemma {:induction false} RunSplits(rows: Table, es: seq<Event>, keep: Retention, i: nat)
    requires i < |es|
    ensures Run(rows, es[..i + 1], keep) == After(Run(rows, es[..i], keep), es[i], keep)
    decreases |es|
  {
    assert es[..i + 1][0] == es[0] && es[..i + 1][1..] == es[1..][..i];
    if i > 0 {
      RunSplits(After(rows, es[0], keep), es[1..], keep, i - 1);
      assert es[..i][0] == es[0] && es[..i][1..] == es[1..][..i - 1];
    }
  }

  /** At no point of a run is a row awaiting reconciliation deleted. */
  lemma ReconcilingRowsSurvive(rows: Table, es: seq<Event>, keep: Retention, id: WorkflowId, i: nat)
    requires TableOk(rows) && i < |es| && !Creates(es[i], id)
    requires id in Run(rows, es[..i], keep) && ReconciliationState(Run(rows, es[..i], keep)[id].state)
    ensures id in Run(rows, es[..i + 1], keep) && Ages(Run(rows, es[..i], keep)[id], Run(rows, es[..i + 1], keep)[id])
  {
    RunSplits(rows, es, keep, i);
    ReachableRowsAreSound(es[..i], keep, rows);
    EventAges(Run(rows, es[..i], keep), es[i], keep, id);
  }

  /** The operation changed the row, having been told which version to expect. */
  ghost predicate Effective(rows: Table, op: Op, t: Clock, keep: Retention) {
    && !op.Create? && ExpectedVersion(op).Some? && op.id in rows
    && Apply(rows, op, t, keep).0 != rows
  }

  lemma EffectiveRaisesVersion(rows: Table, op: Op, t: Clock, keep: Retention)
    requires TableOk(rows) && Effective(rows, op, t, keep)
    ensures ExpectedVersion(op).value == rows[op.id].version
    ensures var rows' := Apply(rows, op, t, keep).0;
            TableOk(rows') && op.id in rows' && rows'[op.id].version > rows[op.id].version
  {
    ApplyKeepsTable(rows, op, t, keep);
    ApplyPreserves(rows, op, t, keep, op.id);
    assert Apply(rows, op, t, keep).0 == rows[op.id := Apply(rows, op, t, keep).0[op.id]];
    assert rows[op.id := rows[op.id]] == rows;
  }

  /** Optimistic versions: two effective calls on a workflow never share an expected version. */
  lemma NoTwoCallsShareAVersion(rows: Table, first: Op, t1: Clock, between: seq<Event>, second: Op, t2: Clock,
      keep: Retention)
    requires TableOk(rows) && Effective(rows, first, t1, keep) && first.id == second.id
    requires forall i :: 0 <= i < |between| ==> !Creates(between[i], first.id)
    requires Effective(Run(Apply(rows, first, t1, keep).0, between, keep), second, t2, keep)
    ensures ExpectedVersion(first).value < ExpectedVersion(second).value
  {
    var rows1 := Apply(rows, first, t1, keep).0;
    EffectiveRaisesVersion(rows, first, t1, keep);
    LaterCallsSeeLaterVersions(rows1, between, second, t2, keep);
  }

  /** An effective call after any run expects at least the version the row had before it. */
  lemma LaterCallsSeeLaterVersions(rows: Table, between: seq<Event>, op: Op, t: Clock, keep: Retention)
    requires TableOk(rows) && op.id in rows && (forall i :: 0 <= i < |between| ==> !Creates(between[i], op.id))
    requires Effective(Run(rows, between, keep), op, t, keep)
    ensures rows[op.id].version <= ExpectedVersion(op).value
  {
    FrozenForever(rows, between, keep, op.id);
    ReachableRowsAreSound(between, keep, rows);
    EffectiveRaisesVersion(Run(rows, between, keep), op, t, keep);
  }
}
