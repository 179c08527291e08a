/**
 Why the manifest is written and fsynced first: whatever a power loss does to the names of a write that
 is being staged, its manifest survives whole, so the next recovery removes every name of that write.
 */
module CommitPowerLoss {
  import opened Basics
  import opened VaultDisk
  import opened LedgerBook
  import opened CommitProtocol
  import opened CommitInvariant
  import opened LedgerWriterModel

  /** The manifest before the statement of rank `n`: written, then named, then named durably. */
  predicate ManifestAt(d: Disk, w: Work, n: nat) {
    var m, i := Manifest(w.id, w.nonce), ManifestIno(w.id, w.nonce);
    && (2 <= n ==> i in d.files && d.files[i] == ManifestDoc(w.id, w.nonce))
    && (3 <= n ==> m in d.live && d.live[m] == i)
    && (4 <= n ==> Stale(d, m) <= {Some(i)})
  }

  predicate Manifested(s: State) {
    s.proc.Busy? && s.proc.phase.Staging? ==> ManifestAt(s.disk, s.proc.phase.work, s.proc.phase.at.Rank())
  }

  lemma ManifestIsMade(d: Disk, c: Call, w: Work, at: Point)
    requires ManifestAt(d, w, at.Rank()) && at.Rank() < 4
    ensures ManifestAt(StageDisk(d, c, w, at), w, at.Rank() + 1)
  {
  }

  /** Every later statement works on other names and other files. */
  lemma ManifestIsLeftAlone(d: Disk, c: Call, w: Work, at: Point)
    requires ManifestAt(d, w, 4) && at.Rank() >= 4
    ensures ManifestAt(StageDisk(d, c, w, at), w, 4)
  {
  }

  lemma StatementKeepsManifest(d: Disk, c: Call, w: Work, at: Point)
    requires ManifestAt(d, w, at.Rank()) && at != Commit
    ensures ManifestAt(StageDisk(d, c, w, at), StageWork(c, w, at), at.After().Rank())
  {
    if at.Rank() < 4 { ManifestIsMade(d, c, w, at); } else { ManifestIsLeftAlone(d, c, w, at); }
    assert at.After().Rank() == at.Rank() + 1;
  }

  lemma StepKeepsManifest(s: State, step: Step, lossy: bool)
    requires Manifested(s) && Enabled(s, step, lossy)
    ensures Manifested(Do(s, step, lossy))
  {
    match step
    case Advance =>
      var ph := s.proc.phase;
      if ph.at != Commit { StatementKeepsManifest(s.disk, s.proc.call, ph.work, ph.at); }
    case _ =>
  }

  lemma {:induction false} RunKeepsManifest(s: State, steps: seq<Step>, lossy: bool)
    requires Manifested(s) && Legal(s, steps, lossy)
    ensures Manifested(Exec(s, steps, lossy))
    decreases |steps|
  {
    if steps != [] {
      StepKeepsManifest(s, steps[0], lossy);
      RunKeepsManifest(Do(s, steps[0], lossy), steps[1..], lossy);
    }
  }

  /**
   After the manifest's fsync, a crash at any statement up to and including the commit, with any loss of
   unsynced names, leaves a manifest that reads as this write's, and recovery sweeps every name of it.
   */
  lemma PowerLossKeepsTheManifest(reader: Reader, steps: seq<Step>, lossy: bool, survivor: Disk)
    requires Legal(Initial(reader), steps, lossy)
    requires var s := Exec(Initial(reader), steps, lossy);
             && s.proc.Busy? && s.proc.phase.Staging? && s.proc.phase.at.Rank() > SyncManifest.Rank()
             && Survives(s.disk, survivor, lossy)
    ensures var s := Exec(Initial(reader), steps, lossy);
            var w := s.proc.phase.work;
            && Manifest(w.id, w.nonce) in survivor.live
            && DocAt(survivor, reader, Manifest(w.id, w.nonce)) == Some(OwnDoc(w.id, w.nonce))
            && !IsCommitted(s.book, w.id)
            && Swept(survivor, s.book, Record(w.id)) && Swept(survivor, s.book, Snapshot(w.id))
            && Swept(survivor, s.book, RecordTemp(w.id, w.nonce))
            && Swept(survivor, s.book, SnapshotTemp(w.id, w.nonce))
  {
    RunKeepsManifest(Initial(reader), steps, lossy);
    RunKeepsCore(Initial(reader), steps, lossy);
    var s := Exec(Initial(reader), steps, lossy);
    var m := Manifest(s.proc.phase.work.id, s.proc.phase.work.nonce);
    assert Entry(survivor, m) in May(s.disk, m);
  }
}
