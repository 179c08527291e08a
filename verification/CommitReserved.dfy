/**
 Identifiers beginning with `.txn-`. The writer accepts them, and the recovery loop then takes the
 committed snapshot for a manifest. The visibility boundary holds for exactly the sets of
 identifiers that avoid the prefix.
 */
module CommitReserved {
  import opened Basics
  import opened VaultDisk
  import opened LedgerBook
  import opened CommitProtocol
  import opened CommitInvariant
  import opened CommitVisibility
  import opened WriterScript
  import opened WriterRefinement
  import opened LedgerWriterModel
  import opened LedgerCapture

  /** Whatever was submitted, no recovery completes with a snapshot of that name still in place. */
  lemma NoRecoverySparesIt(reader: Reader, steps: seq<Step>, lossy: bool, id: PredictionId)
    requires Legal(Initial(reader), steps, lossy) && Txn(id)
    requires var s := Exec(Initial(reader), steps, lossy); s.proc.Busy? && s.proc.phase.Ready?
    ensures var s := Exec(Initial(reader), steps, lossy);
            Snapshot(id) in s.disk.live ==> s.disk.live[Snapshot(id)].ForeignIno?
  {
    RunKeepsCore(Initial(reader), steps, lossy);
    assert Globbed(Snapshot(id));
  }

  /** Every submission, and every foreign file, carries one of these identifiers. */
  ghost predicate Only(steps: seq<Step>, ids: iset<PredictionId>) {
    forall i :: 0 <= i < |steps| ==>
      && (steps[i].Acquire? && steps[i].call.Submit? ==> steps[i].call.id in ids)
      && (steps[i].ForeignFile? ==> steps[i].path.id in ids)
  }

  // ---------------------------------------------------------------- a run that loses a committed snapshot

  /** The names a staging from the empty disk has in use before the statement of rank `n`. */
  ghost predicate NamesAt(d: Disk, id: PredictionId, nonce: Nonce, n: nat) {
    forall p :: p in d.live ==>
      || (p == ManifestTemp(id, nonce) && 1 <= n <= 2) || (p == Manifest(id, nonce) && 3 <= n)
      || (p == SnapshotTemp(id, nonce) && 5 <= n <= 11) || (p == RecordTemp(id, nonce) && 7 <= n <= 15)
      || (p == Snapshot(id) && 10 <= n) || (p == Record(id) && 14 <= n)
  }

  lemma NamesSucceed(d: Disk, c: Call, nonce: Nonce, n: nat)
    requires c.Submit? && n < 19 && NamesAt(d, c.id, nonce, n)
    ensures Succeeds(d, WorkAt(c, nonce, n), PointOf(n))
  {
  }

  lemma NamesAdvance(d: Disk, c: Call, nonce: Nonce, n: nat)
    requires c.Submit? && n < 19 && NamesAt(d, c.id, nonce, n)
    ensures NamesAt(StageDisk(d, c, WorkAt(c, nonce, n), PointOf(n)), c.id, nonce, n + 1)
  {
    if n <= 8 {
      TempNamesAdvance(d, c, nonce, n);
    }
  }

  lemma TempNamesAdvance(d: Disk, c: Call, nonce: Nonce, n: nat)
    requires c.Submit? && n <= 8 && NamesAt(d, c.id, nonce, n)
    ensures NamesAt(StageDisk(d, c, WorkAt(c, nonce, n), PointOf(n)), c.id, nonce, n + 1)
  {
  }

  lemma OneFromNothing(c: Call, r: Outcome, nonce: Nonce, n: nat)
    requires c.Submit? && n < 19 && r.ok && r.work == WorkAt(c, nonce, n) && NamesAt(r.disk, c.id, nonce, n)
    ensures var r' := Then(c, None, r, PointOf(n));
            r'.ok && r'.work == WorkAt(c, nonce, n + 1) && NamesAt(r'.disk, c.id, nonce, n + 1)
  {
    NamesSucceed(r.disk, c, nonce, n);
    NamesAdvance(r.disk, c, nonce, n);
    WorkAdvances(c, nonce, n);
  }

  /** On an empty disk nothing stands in the way of a staging. */
  lemma {:induction false} StagingFromNothing(c: Call, nonce: Nonce, n: nat)
    requires c.Submit? && n <= 19
    ensures var r := Upto(c, None, Outcome(EMPTY_DISK, WorkAt(c, nonce, 0), true), n);
            r.ok && r.work == WorkAt(c, nonce, n) && NamesAt(r.disk, c.id, nonce, n)
  {
    if n > 0 {
      StagingFromNothing(c, nonce, n - 1);
      OneFromNothing(c, Upto(c, None, Outcome(EMPTY_DISK, WorkAt(c, nonce, 0), true), n - 1), nonce, n - 1);
    }
  }

  const NO_FAULTS := Faults(None, InternalError, false, false, None)

  /** The state of a first write just before its staging begins. */
  function Opened(reader: Reader, c: Call): State
    requires c.Submit?
  {
    Initial(reader).(proc := Busy(c, EMPTY_BOOK, Start(c, 0)), nonces := {0})
  }

  lemma StagedFirstWrite(reader: Reader, c: Call, lossy: bool) returns (t: State)
    requires c.Submit?
    ensures Reaches(Opened(reader, c), t, lossy)
    ensures t.proc.Idle? && t.book == Posted(EMPTY_BOOK, c) && t.reader == reader
    ensures Secured(t.disk, Snapshot(c.id), c.snapshot) && (forall p :: p in t.disk.live ==> !p.ManifestTemp?)
  {
    StagingFromNothing(c, 0, 18);
    var r := Upto(c, None, Outcome(EMPTY_DISK, WorkAt(c, 0, 0), true), 18);
    t := StagedCallIsARun(Opened(reader, c), c, 0, NO_FAULTS, lossy);
    ReceiptIsSecured(EMPTY_BOOK, c, 0, EMPTY_DISK, NO_FAULTS);
    PerformAllRemoves(r.disk, FinalizeList(r.work));
  }

  /** The first write of an empty ledger commits, whatever its identifier. */
  lemma FirstWriteCommits(reader: Reader, c: Call, lossy: bool) returns (steps: seq<Step>)
    requires c.Submit?
    ensures Legal(Initial(reader), steps, lossy) && Only(steps, iset{c.id})
    ensures var s := Exec(Initial(reader), steps, lossy);
            && s.proc.Idle? && s.book == Posted(EMPTY_BOOK, c) && s.reader == reader
            && Secured(s.disk, Snapshot(c.id), c.snapshot) && (forall p :: p in s.disk.live ==> !p.ManifestTemp?)
  {
    var opening := OpeningIsARun(reader, c, lossy);
    var t := StagedFirstWrite(reader, c, lossy);
    steps := Continued(Initial(reader), opening, t, iset{c.id}, lossy);
  }

  /** A run followed by one of the lock holder alone. */
  lemma Continued(s: State, first: seq<Step>, t: State, ids: iset<PredictionId>, lossy: bool) returns (steps: seq<Step>)
    requires Legal(s, first, lossy) && Only(first, ids) && Reaches(Exec(s, first, lossy), t, lossy)
    ensures Legal(s, steps, lossy) && Exec(s, steps, lossy) == t && Only(steps, ids)
  {
    var m := Exec(s, first, lossy);
    var rest :| Alone(rest) && Legal(m, rest, lossy) && Exec(m, rest, lossy) == t;
    LegalConcat(s, first, rest, lossy);
    OnlyAfter(first, rest, ids);
    steps := first + rest;
  }

  lemma OnlyAfter(a: seq<Step>, b: seq<Step>, ids: iset<PredictionId>)
    requires Only(a, ids) && Alone(b)
    ensures Only(a + b, ids)
  {
    forall i | 0 <= i < |a + b|
      ensures (a + b)[i].Acquire? && (a + b)[i].call.Submit? ==> (a + b)[i].call.id in ids
      ensures (a + b)[i].ForeignFile? ==> (a + b)[i].path.id in ids
    {
      assert i >= |a| ==> HolderStep(b[i - |a|]);
    }
  }

  lemma OpeningIsARun(reader: Reader, c: Call, lossy: bool) returns (steps: seq<Step>)
    requires c.Submit?
    ensures Legal(Initial(reader), steps, lossy) && Exec(Initial(reader), steps, lossy) == Opened(reader, c)
            && Only(steps, iset{c.id})
  {
    var s := Initial(reader);
    steps := [];
    LegalAppend(s, steps, Acquire(c), lossy); steps := steps + [Acquire(c)];
    LegalAppend(s, steps, SweepDone, lossy); steps := steps + [SweepDone];
    LegalAppend(s, steps, RecoveryDone, lossy); steps := steps + [RecoveryDone];
    LegalAppend(s, steps, Begin(0), lossy); steps := steps + [Begin(0)];
  }

  /** The next recovery reads the committed snapshot as a manifest and removes it. */
  lemma RecoveryRemovesIt(s: State, id: PredictionId, bytes: Bytes, doc: Doc, lossy: bool) returns (steps: seq<Step>)
    requires s.proc.Idle? && Txn(id) && Secured(s.disk, Snapshot(id), bytes) && (forall p :: p in s.disk.live ==>
               !p.ManifestTemp?)
    requires ReadArtifact(s.reader, bytes) == Some(doc) && doc.finals.Some?
    ensures Legal(s, steps, lossy) && Only(steps, iset{})
    ensures Exec(s, steps, lossy).book == s.book && Snapshot(id) !in Exec(s, steps, lossy).disk.live
  {
    var p := Snapshot(id);
    var todo := DocList(s.book, doc, p);
    var t := s.(proc := Busy(Open, s.book, Recovering(todo)));
    var opening := PickingIsARun(s, p, doc, lossy);
    ChoresAreARun(t, |todo|, lossy);
    assert todo[..|todo|] == todo && todo[|todo| - 1] == Remove(p);
    PerformAllRemoves(s.disk, todo);
    steps := Continued(s, opening, AfterChores(t, |todo|), iset{}, lossy);
  }

  lemma PickingIsARun(s: State, p: Path, doc: Doc, lossy: bool) returns (steps: seq<Step>)
    requires s.proc.Idle? && Globbed(p) && DocAt(s.disk, s.reader, p) == Some(doc) && doc.finals.Some?
    requires forall q :: q in s.disk.live ==> !q.ManifestTemp?
    ensures Legal(s, steps, lossy) && Only(steps, iset{})
    ensures Exec(s, steps, lossy) == s.(proc := Busy(Open, s.book, Recovering(DocList(s.book, doc, p))))
  {
    steps := [];
    LegalAppend(s, steps, Acquire(Open), lossy); steps := steps + [Acquire(Open)];
    LegalAppend(s, steps, SweepDone, lossy); steps := steps + [SweepDone];
    LegalAppend(s, steps, PickManifest(p), lossy); steps := steps + [PickManifest(p)];
  }

  /** Write a snapshot that reads as a manifest under such an identifier, then open the ledger again. */
  lemma ReservedSnapshotIsLost(reader: Reader, id: PredictionId, bytes: Bytes, doc: Doc, lossy: bool)
      returns (steps: seq<Step>)
    requires Txn(id) && ReadArtifact(reader, bytes) == Some(doc) && doc.finals.Some?
    ensures Legal(Initial(reader), steps, lossy) && Only(steps, iset{id})
    ensures var s := Exec(Initial(reader), steps, lossy);
            IsCommitted(s.book, id) && Snapshot(id) !in s.disk.live
  {
    var s := Initial(reader);
    var first := FirstWriteCommits(reader, Submit(id, [], bytes, None), lossy);
    var second := RecoveryRemovesIt(Exec(s, first, lossy), id, bytes, doc, lossy);
    LegalConcat(s, first, second, lossy);
    steps := first + second;
  }

  // ---------------------------------------------------------------- the exact condition

  /** Committed artifacts are in place at the end of every run with these identifiers. */
  ghost predicate AlwaysVisible(reader: Reader, ids: iset<PredictionId>, lossy: bool) {
    forall steps :: Legal(Initial(reader), steps, lossy) && Only(steps, ids) ==>
          Visible(Exec(Initial(reader), steps, lossy))
  }

  /**
   The visibility boundary holds for a set of identifiers exactly when none of them begins with
   `.txn-`, as soon as some snapshot can be read as a manifest.
   */
  lemma VisibilityIsExact(reader: Reader, ids: iset<PredictionId>, bytes: Bytes, lossy: bool)
    requires ReadArtifact(reader, bytes).Some? && ReadArtifact(reader, bytes).value.finals.Some?
    ensures AlwaysVisible(reader, ids, lossy) <==> forall id :: id in ids ==> !Txn(id)
  {
    if id :| id in ids && Txn(id) {
      var steps := ReservedSnapshotIsLost(reader, id, bytes, ReadArtifact(reader, bytes).value, lossy);
      var s := Exec(Initial(reader), steps, lossy);
      assert Only(steps, ids) && !RowVisible(s.disk, s.book, id);
    } else {
      forall steps | Legal(Initial(reader), steps, lossy) && Only(steps, ids)
          ensures Visible(Exec(Initial(reader), steps, lossy)) {
        OnlyOrdinary(steps, ids);
        RunKeepsInv(Initial(reader), steps, lossy);
      }
    }
  }

  lemma OnlyOrdinary(steps: seq<Step>, ids: iset<PredictionId>)
    requires Only(steps, ids) && forall id :: id in ids ==> !Txn(id)
    ensures AllOrdinary(steps)
  {
  }

  /** The failing input: an identifier `_validate_identifier` accepts, with a snapshot that reads as a manifest. */
  lemma ReservedExample(reader: Reader, bytes: Bytes, doc: Doc, lossy: bool) returns (steps: seq<Step>)
    requires ReadArtifact(reader, bytes) == Some(doc) && doc.finals.Some?
    ensures ValidIdentifier(".txn-a") && Legal(Initial(reader), steps, lossy) && Only(steps, iset{".txn-a"})
    ensures var s := Exec(Initial(reader), steps, lossy);
            IsCommitted(s.book, ".txn-a") && Snapshot(".txn-a") !in s.disk.live
  {
    assert Txn(".txn-a");
    steps := ReservedSnapshotIsLost(reader, ".txn-a", bytes, doc, lossy);
  }

  /** `_validate_identifier` */
  predicate ValidIdentifier(id: string) {
    1 <= |id| <= 128 && forall i :: 0 <= i < |id| ==> id[i] != '/' && id[i] != '\\' && id[i] != '\0'
  }
}
