/**
 The registry as a capture sees it, and what one capture call may do to it: the atomic
 specification that the commit protocol implements and that the console relies on.
 */
module LedgerBook {
  import opened Basics
  import opened VaultDisk

  type Key = nat
  /** A request payload stands for its own hash. */
  type Payload = nat

  datatype RowState = InProgress | Committed
  datatype Row = Row(state: RowState, record: Bytes, snapshot: Bytes)
  datatype Binding = Binding(payload: Payload, id: PredictionId)
  datatype Book = Book(rows: map<PredictionId, Row>, keys: map<Key, Binding>)

  const EMPTY_BOOK := Book(map[], map[])

  predicate IsCommitted(b: Book, id: PredictionId) {
    id in b.rows && b.rows[id].state == Committed
  }

  /** Exceptions a capture call can end with, as the HTTP layer names them. */
  datatype ErrorCode =
    | InvalidRequest | SchemaNotFound | InvalidForecast | FreshWindowConflict
    | IdempotencyConflict | IntegrityFailure | SnapshotUnavailable | Unauthorized | InternalError

  datatype Disposition = Terminal | Retryable | Uncertain

  function DispositionOf(code: ErrorCode): Disposition {
    match code
    case InvalidRequest | SchemaNotFound | InvalidForecast => Terminal
    case FreshWindowConflict | IdempotencyConflict | IntegrityFailure => Terminal
    case SnapshotUnavailable | Unauthorized => Retryable
    case InternalError => Uncertain
  }

  /** The code on the wire. */
  function CodeText(code: ErrorCode): string {
    match code
    case InvalidRequest => "invalid_request"
    case SchemaNotFound => "schema_not_found"
    case InvalidForecast => "invalid_forecast"
    case FreshWindowConflict => "fresh_window_conflict"
    case IdempotencyConflict => "idempotency_conflict"
    case IntegrityFailure => "integrity_error"
    case SnapshotUnavailable => "snapshot_unavailable"
    case Unauthorized => "unauthorized"
    case InternalError => "internal_error"
  }

  /** A call ends with a receipt, with an error, or with no answer at all (a crash). */
  datatype Answer = Receipt(id: PredictionId, created: bool) | Failed(code: ErrorCode) | NoAnswer

  /** `LedgerWriter(...)` only recovers; `Submit` is `capture` (with a key) or `write` (without). */
  datatype Call = Open | Submit(id: PredictionId, record: Bytes, snapshot: Bytes, request: Option<(Key, Payload)>)

  function BoundKeys(b: Book, c: Call): map<Key, Binding>
    requires c.Submit?
  {
    if c.request.Some? then b.keys[c.request.value.0 := Binding(c.request.value.1, c.id)] else b.keys
  }

  /** The book after the call's own transaction commits. */
  function Posted(b: Book, c: Call): Book
    requires c.Submit?
  {
    Book(b.rows[c.id := Row(Committed, c.record, c.snapshot)], BoundKeys(b, c))
  }

  predicate Postable(b: Book, c: Call) {
    && c.Submit?
    && c.id !in b.rows
    && (c.request.Some? ==> c.request.value.0 !in b.keys)
  }

  /** The prediction a submission is already bound to, if any. */
  predicate AlreadyPosted(b: Book, c: Call, id: PredictionId) {
    && c.Submit?
    && IsCommitted(b, id)
    && (if c.request.Some? then c.request.value.0 in b.keys && b.keys[c.request.value.0] == Binding(c.request.value.1,
        id) else id == c.id)
  }

  /**
   What one call may do: it posts its own submission or leaves the book alone; a receipt names
   the prediction the submission is bound to; a definite error means it posted nothing.
   */
  predicate CallSpec(b: Book, b': Book, c: Call, a: Answer) {
    && (b' == b || (Postable(b, c) && b' == Posted(b, c)))
    && (a.Receipt? ==>
          && c.Submit?
          && AlreadyPosted(b', c, a.id)
          && a.created == (b' != b))
    && (a.Failed? && DispositionOf(a.code) != Uncertain ==> b' == b)
  }
}
