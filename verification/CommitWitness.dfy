/** A concrete run in which a crash inside `rollback` leaves an artifact that recovery never removes. */
module CommitWitness {
  import opened Basics
  import opened VaultDisk
  import opened LedgerBook
  import opened CommitProtocol
  import opened CommitInvariant
  import opened CommitVisibility
  import opened CommitRecovery
  import opened WriterScript
  import opened WriterRefinement
  import opened CommitReserved

  const SUBMISSION := Submit("p", [], [], None)

  lemma PlainId()
    ensures !Txn("p")
  {
  }

  /** A submission staged on an empty disk, up to the statement that links the record. */
  lemma StagingReachesRecord(reader: Reader, c: Call) returns (steps: seq<Step>)
    requires c.Submit?
    ensures Legal(Initial(reader), steps, false) && Only(steps, iset{c.id})
    ensures var s := Exec(Initial(reader), steps, false);
            && s.proc.Busy? && s.proc.phase == Staging(WorkAt(c, 0, 13), LinkRecord) && s.debris == {}
            && NamesAt(s.disk, c.id, 0, 13)
  {
    StagingFromNothing(c, 0, 13);
    var opening := OpeningIsARun(reader, c, false);
    var t := Opened(reader, c);
    StagingIsARun(t, WorkAt(c, 0, 0), None, 13, false);
    assert PointOf(13) == LinkRecord;
    steps := Continued(Initial(reader), opening, AfterStatements(t, WorkAt(c, 0, 0), None, 13), iset{c.id}, false);
  }

  /** Rollback that begins with the snapshot linked and the record not. */
  ghost predicate Unwinding(s: State, nonce: Nonce, done: nat) {
    var todo := [Remove(RecordTemp("p", nonce)), Remove(SnapshotTemp("p", nonce)), Remove(Manifest("p", nonce)),
                 Remove(Snapshot("p")), Sync(RecordsDir), Sync(SnapshotsDir)];
    && done <= |todo| && s.proc.Busy? && s.debris == {}
    && s.proc.phase.RollingBack? && s.proc.phase.work.id == "p" && s.proc.phase.work.nonce == nonce
    && s.proc.phase.todo == todo[done..]
    && (2 < done ==> Manifest("p", nonce) !in s.disk.live)
  }

  lemma UnwindingBegins(s: State)
    requires s.proc.Busy? && s.proc.phase == Staging(WorkAt(SUBMISSION, 0, 13), LinkRecord) && s.debris == {}
    requires NamesAt(s.disk, "p", 0, 13)
    ensures Enabled(s, Raise(InternalError), false) && Unwinding(Do(s, Raise(InternalError), false), 0, 0)
  {
    var w := s.proc.phase.work;
    var full := RollbackList(s.disk, w);
    assert SnapshotOwned(s.disk, w) && Record("p") !in s.disk.live && !RecordOwned(s.disk, w);
    assert full == [Remove(RecordTemp("p", 0)), Remove(SnapshotTemp("p", 0)), Remove(Manifest("p", 0)),
                    Remove(Snapshot("p")), Sync(RecordsDir), Sync(SnapshotsDir)];
    assert full[0..] == full;
  }

  lemma UnwindingAdvances(s: State, nonce: Nonce, done: nat)
    requires Unwinding(s, nonce, done) && done < 6
    ensures Enabled(s, DoChore, false) && Unwinding(Do(s, DoChore, false), nonce, done + 1)
  {
    var todo := [Remove(RecordTemp("p", nonce)), Remove(SnapshotTemp("p", nonce)), Remove(Manifest("p", nonce)),
                 Remove(Snapshot("p")), Sync(RecordsDir), Sync(SnapshotsDir)];
    assert todo[done..][1..] == todo[done + 1..];
    assert todo[done..][0] == todo[done];
  }

  /** A run whose rollback has removed the temps and the manifest, but not yet the snapshot. */
  lemma RollbackPassesItsManifest(reader: Reader) returns (steps: seq<Step>)
    ensures Legal(Initial(reader), steps, false) && AllOrdinary(steps)
    ensures var s := Exec(Initial(reader), steps, false); s.debris == {} && Snapshot("p") in Uncovered(s)
  {
    steps := StagingReachesRecord(reader, SUBMISSION);
    PlainId();
    OnlyOrdinary(steps, iset{"p"});
    var nonce: Nonce := 0;
    UnwindingBegins(Exec(Initial(reader), steps, false));
    LegalAppend(Initial(reader), steps, Raise(InternalError), false); steps := steps + [Raise(InternalError)];
    for k := 0 to 3
      invariant Legal(Initial(reader), steps, false) && AllOrdinary(steps)
                && Unwinding(Exec(Initial(reader), steps, false), nonce, k)
    {
      UnwindingAdvances(Exec(Initial(reader), steps, false), nonce, k);
      LegalAppend(Initial(reader), steps, DoChore, false); steps := steps + [DoChore];
    }
    assert Exec(Initial(reader), steps, false).proc.phase.todo[0] == Remove(Snapshot("p"));
  }

  /** A crash there leaves an artifact that no later run removes or commits. */
  lemma InterruptedRollbackLeavesDebris(reader: Reader) returns (steps: seq<Step>)
    ensures Legal(Initial(reader), steps, false) && AllOrdinary(steps)
    ensures Snapshot("p") in Exec(Initial(reader), steps, false).debris && !NeverUncovers(Initial(reader), steps)
    ensures forall more :: Legal(Exec(Initial(reader), steps, false), more, false) && AllOrdinary(more) ==>
              var s := Exec(Exec(Initial(reader), steps, false), more, false);
                  Snapshot("p") in s.disk.live && "p" !in s.book.rows
  {
    steps := RollbackPassesItsManifest(reader);
    var s := Exec(Initial(reader), steps, false);
    var d := s.disk.(stale := map[]);
    assert Survives(s.disk, d, false);
    LegalAppend(Initial(reader), steps, Crash(d), false); steps := steps + [Crash(d)];
    StepDebris(s, Crash(d));
    DebrisExactly(Initial(reader), steps);
    RunKeepsInv(Initial(reader), steps, false);
    RunKeepsClean(Initial(reader), steps);
    var s' := Exec(Initial(reader), steps, false);
    forall more | Legal(s', more, false) && AllOrdinary(more)
      ensures var t := Exec(s', more, false); Snapshot("p") in t.disk.live && "p" !in t.book.rows
    {
      DebrisIsForever(s', more, Snapshot("p"));
    }
  }
}
