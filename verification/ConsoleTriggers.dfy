/** The console's workflow table: one row, the durable-payload invariant, and the SQL triggers as guards. */
module ConsoleTriggers {
  import opened Basics
  import LedgerBook
  import VaultDisk

  type Key = LedgerBook.Key
  type Payload = LedgerBook.Payload
  type PredictionId = VaultDisk.PredictionId
  type WorkflowId = nat
  type User = nat
  type Schema = nat
  type Hash = nat
  type Time = int

  datatype WorkflowState =
    | Editing | Extracting | Reviewing | Frozen | Submitting
    | Uncertain | RetryableFailure | TerminalFailure | Committed | Cancelled

  datatype Proposal = Proposal(schemaHash: Hash, text: string)
  datatype CaptureInput = CaptureInput(schema: Schema, schemaHash: Hash, payload: Payload)
  datatype FrozenRequest = FrozenRequest(key: Key, input: CaptureInput)
  datatype Note = Note(code: string, details: seq<string>)

  datatype Workflow = Workflow(
    user: User, schema: Schema, key: Key, created: Time,
    state: WorkflowState,
    source: Option<string>, proposal: Option<Proposal>,
    frozen: Option<FrozenRequest>, receipt: Option<PredictionId>,
    error: Option<Note>, updated: Time, expires: Option<Time>, version: nat)

  predicate FrozenState(s: WorkflowState) {
    s in {Frozen, Submitting, Uncertain, RetryableFailure, TerminalFailure, Committed}
  }

  predicate ReconciliationState(s: WorkflowState) {
    s in {Frozen, Submitting, Uncertain, RetryableFailure}
  }

  predicate DisposableState(s: WorkflowState) {
    s in {Editing, Reviewing, TerminalFailure, Committed, Cancelled}
  }

  /** `state_matches_durable_payload`; a frozen request carries its own row's key and schema. */
  predicate PayloadOk(w: Workflow) {
    && (FrozenState(w.state) ==> w.frozen.Some?)
    && (w.state == Reviewing ==> w.proposal.Some?)
    && (w.state == Committed <==> w.receipt.Some?)
    && (ReconciliationState(w.state) ==> w.expires.None?)
    && (w.state == TerminalFailure ==> w.expires.Some?)
    && (w.state == Cancelled ==> w.source.None? && w.proposal.None?)
  }

  /** What the store keeps beyond the model validator. */
  predicate RowOk(w: Workflow) {
    && PayloadOk(w)
    && (w.frozen.Some? ==> w.frozen.value.key == w.key && w.frozen.value.input.schema == w.schema)
    && (w.frozen.Some? <==> FrozenState(w.state))
    && (w.state in {Editing, Extracting} ==> w.source.Some?)
    && (!ReconciliationState(w.state) ==> w.expires.Some?)
  }

  // ---------------------------------------------------------------- triggers

  predicate InsertStartsEditing(n: Workflow) {
    n.state == Editing && n.source.Some? && n.proposal.None? && n.frozen.None? && n.receipt.None?
    && n.error.None? && n.expires.Some? && n.version == 0
  }

  predicate LegalTransition(o: WorkflowState, n: WorkflowState) {
    match o
    case Editing => n == Extracting || n == Cancelled
    case Extracting => n == Editing || n == Reviewing
    case Reviewing => n == Cancelled || n == Frozen
    case Frozen => n == Submitting
    case Submitting => n in {Committed, Uncertain, RetryableFailure, TerminalFailure}
    case Uncertain => n == Submitting
    case RetryableFailure => n == Submitting
    case _ => false
  }

  /** All update triggers accept replacing `o` by `n`. */
  predicate UpdateAccepted(o: Workflow, n: Workflow) {
    && n.user == o.user && n.schema == o.schema && n.key == o.key && n.created == o.created
    && n.version == o.version + 1
    && (n.state != o.state ==> LegalTransition(o.state, n.state))
    && (o.frozen.Some? ==> n.frozen == o.frozen)
    && (o.frozen.None? && n.frozen.Some? ==> o.state == Reviewing && n.state == Frozen)
    && (o.receipt.Some? ==> n.receipt == o.receipt)
    && (o.receipt.None? && n.receipt.Some? ==> o.state == Submitting && n.state == Committed)
    && (FrozenState(n.state) ==> n.frozen.Some?)
    && (n.state == Committed <==> n.receipt.Some?)
    && (ReconciliationState(n.state) ==> n.expires.None?)
    && (n.state == TerminalFailure ==> n.expires.Some?)
    && (n.state == Cancelled ==> n.source.None? && n.proposal.None?)
  }

  predicate DeleteAccepted(o: Workflow) {
    DisposableState(o.state)
  }
}
