/**
 What recovery leaves behind when file operations reach the disk in program order: nothing, except
 the artifacts that an interrupted in-process rollback had already uncovered.
 */
module CommitRecovery {
  import opened Basics
  import opened VaultDisk
  import opened LedgerBook
  import opened CommitProtocol
  import opened CommitInvariant
  import opened CommitVisibility

  predicate Holder(ph: Phase) {
    ph.Staging? || ph.RollingBack? || ph.Finalizing?
  }

  ghost predicate WorkingOn(s: State, id: PredictionId) {
    s.proc.Busy? && Holder(s.proc.phase) && s.proc.phase.work.id == id
  }

  /** A rollback still has this artifact on its list. */
  ghost predicate Pending(s: State, p: Path) {
    s.proc.Busy? && s.proc.phase.RollingBack? && Remove(p) in s.proc.phase.todo
  }

  ghost predicate Orphan(s: State, p: Path) {
    IsFinal(p) && p in s.disk.live && !s.disk.live[p].ForeignIno? && p.id !in s.book.rows
  }

  /** Every temp has its manifest; every uncommitted artifact has one too, or is accounted for. */
  ghost predicate Covered(s: State, p: Path)
    requires p in s.disk.live
  {
    && (IsArtifactTemp(p) ==> Manifest(p.id, p.nonce) in s.disk.live)
    && (Orphan(s, p) ==> Manifest(p.id, s.disk.live[p].nonce) in s.disk.live || p in s.debris || Pending(s, p))
  }

  ghost predicate DebrisOk(s: State, p: Path) {
    && Orphan(s, p)
    && !WorkingOn(s, p.id)
    && (forall n: Nonce :: Manifest(p.id, n) !in s.disk.live)
  }

  ghost predicate Clean(s: State) {
    && (forall p :: p in s.disk.live ==> Covered(s, p))
    && (forall p :: p in s.debris ==> DebrisOk(s, p))
    && (s.proc.Busy? && s.proc.phase.Recovering? && s.proc.phase.todo != []
        && s.proc.phase.todo[|s.proc.phase.todo| - 1].Remove? ==>
          s.proc.phase.todo[|s.proc.phase.todo| - 1].path in s.disk.live)
  }

  // ---------------------------------------------------------------- preservation

  lemma EntriesFit(s: State)
    requires DiskOk(s)
    ensures forall p :: p in s.disk.live ==> Fits(p, s.disk.live[p])
  {
    forall p | p in s.disk.live ensures Fits(p, s.disk.live[p]) {
      assert NameOk(s.disk, p) && Entry(s.disk, p) in May(s.disk, p);
    }
  }

  /** Stopping without touching the disk: what a rollback had uncovered becomes debris. */
  lemma StopKeepsClean(s: State, s': State)
    requires Inv(s) && Clean(s) && s.proc.Busy?
    requires s'.proc.Idle? && s'.disk.live == s.disk.live && s'.book == s.book && s'.debris == s.debris + Uncovered(s)
    ensures Clean(s')
  {
    EntriesFit(s);
    forall p | p in s'.disk.live ensures Covered(s', p) {
      assert Covered(s, p);
      if Orphan(s, p) && Pending(s, p) {
        var w := s.proc.phase.work;
        assert p in {Record(w.id), Snapshot(w.id)};
        assert s.disk.live[p].nonce == w.nonce;
      }
    }
    forall p | p in s'.debris ensures DebrisOk(s', p) {
      if p in s.debris { assert DebrisOk(s, p); }
    }
  }

  /** Removing one name is harmless unless it is a manifest that still covers something. */
  lemma RemovalKeepsClean(s: State, s': State, q: Path)
    requires Clean(s)
    requires s'.book == s.book && s'.debris == s.debris && s'.disk.live == s.disk.live - {q}
    requires q !in s.debris
    requires q.Manifest? ==> RecordTemp(q.id, q.nonce) !in s.disk.live && SnapshotTemp(q.id, q.nonce) !in s.disk.live
    requires q.Manifest? ==> forall p :: Orphan(s, p) && p.id == q.id && s.disk.live[p].nonce == q.nonce ==>
               Pending(s', p)
    requires forall p :: Pending(s, p) && p != q ==> Pending(s', p)
    requires forall id :: WorkingOn(s', id) ==> WorkingOn(s, id)
    ensures forall p :: p in s'.disk.live ==> Covered(s', p)
    ensures forall p :: p in s'.debris ==> DebrisOk(s', p)
  {
    forall p | p in s'.disk.live ensures Covered(s', p) {
      assert Covered(s, p);
    }
    forall p | p in s'.debris ensures DebrisOk(s', p) {
      assert DebrisOk(s, p);
    }
  }

  lemma RecoveryChoreKeepsClean(s: State, lossy: bool)
    requires Inv(s) && Clean(s) && Enabled(s, DoChore, lossy) && s.proc.phase.Recovering?
    ensures Clean(Do(s, DoChore, lossy))
  {
    var todo := s.proc.phase.todo;
    var s' := Do(s, DoChore, lossy);
    var m := todo[|todo| - 1].path;
    var full := RecoveryList(s.book, m.id, m.nonce, m);
    assert todo[0] == full[|full| - |todo|];
    var q := todo[0].path;
    RowsArePublished(s);
    forall p | p in s.debris ensures p.id != m.id { assert DebrisOk(s, p); }
    if |todo| == 1 {
      assert todo == [Remove(m)];
      RecoveredArtifactsGone(s, m);
    } else {
      assert !q.Manifest?;
      assert todo[1..][|todo| - 2] == todo[|todo| - 1];
    }
    RemovalKeepsClean(s, s', q);
  }

  lemma RecoveredArtifactsGone(s: State, m: Path)
    requires Inv(s) && s.proc.Busy? && s.proc.phase == Recovering([Remove(m)]) && m.Manifest?
    ensures RecordTemp(m.id, m.nonce) !in s.disk.live && SnapshotTemp(m.id, m.nonce) !in s.disk.live
    ensures !IsCommitted(s.book, m.id) ==> GoneOrForeign(s.disk, Record(m.id)) && GoneOrForeign(s.disk, Snapshot(m.id))
  {
    var full := RecoveryList(s.book, m.id, m.nonce, m);
    EntriesFit(s);
    assert GoneOrForeign(s.disk, full[0].path) && GoneOrForeign(s.disk, full[1].path);
    if !IsCommitted(s.book, m.id) {
      assert GoneOrForeign(s.disk, full[2].path) && GoneOrForeign(s.disk, full[3].path);
    }
  }

  lemma HolderChoreKeepsClean(s: State, lossy: bool)
    requires Inv(s) && Clean(s) && Enabled(s, DoChore, lossy) && !s.proc.phase.Recovering?
    ensures Clean(Do(s, DoChore, lossy))
  {
    var ph := s.proc.phase;
    var w, todo := ph.work, ph.todo;
    var s' := Do(s, DoChore, lossy);
    assert todo[0] in todo;
    TailFacts(todo);
    match todo[0]
    case Sync(_) => RemovalOfNothing(s, s');
    case Remove(q) =>
      assert q.id == w.id;
      forall p | p in s.debris ensures p.id != w.id { assert DebrisOk(s, p); }
      if q.Manifest? { ManifestUncovers(s, q); }
      RemovalKeepsClean(s, s', q);
  }

  lemma RemovalOfNothing(s: State, s': State)
    requires Clean(s)
    requires s'.book == s.book && s'.debris == s.debris && s'.disk.live == s.disk.live
    requires forall p :: Pending(s, p) ==> Pending(s', p)
    requires forall id :: WorkingOn(s', id) ==> WorkingOn(s, id)
    ensures forall p :: p in s'.disk.live ==> Covered(s', p)
    ensures forall p :: p in s'.debris ==> DebrisOk(s', p)
  {
    forall p | p in s'.disk.live ensures Covered(s', p) {
      assert Covered(s, p);
    }
    forall p | p in s'.debris ensures DebrisOk(s', p) {
      assert DebrisOk(s, p);
    }
  }

  /** When a holder reaches its manifest the temps are gone, and its own artifacts are still listed. */
  lemma ManifestUncovers(s: State, q: Path)
    requires Inv(s) && s.proc.Busy? && (s.proc.phase.RollingBack? || s.proc.phase.Finalizing?)
    requires s.proc.phase.todo != [] && s.proc.phase.todo[0] == Remove(q) && q.Manifest?
    ensures q == Manifest(s.proc.phase.work.id, s.proc.phase.work.nonce)
    ensures RecordTemp(q.id, q.nonce) !in s.disk.live && SnapshotTemp(q.id, q.nonce) !in s.disk.live
    ensures forall p :: Orphan(s, p) && p.id == q.id && s.disk.live[p].nonce == q.nonce ==>
              s.proc.phase.RollingBack? && Remove(p) in s.proc.phase.todo[1..]
  {
    var w, todo := s.proc.phase.work, s.proc.phase.todo;
    assert todo[0] in todo;
    TailFacts(todo);
    EntriesFit(s);
  }

  lemma StageLive(s: State, c: Call, w: Work, at: Point)
    requires DiskOk(s) && StagingOk(s, c, w, at.Rank()) && Succeeds(s.disk, w, at)
    ensures var d, d' := s.disk, StageDisk(s.disk, c, w, at);
            forall p :: p in d.live && (p.Manifest? || IsFinal(p)) ==> p in d'.live
  {
  }

  lemma StageKeepsEntries(s: State, c: Call, w: Work, at: Point)
    requires DiskOk(s) && StagingOk(s, c, w, at.Rank()) && Succeeds(s.disk, w, at)
    ensures var d, d' := s.disk, StageDisk(s.disk, c, w, at);
            forall p :: p in d'.live && p in d.live ==> d'.live[p] == d.live[p]
  {
    EntriesFit(s);
  }

  lemma StageAdds(s: State, c: Call, w: Work, at: Point)
    requires DiskOk(s) && StagingOk(s, c, w, at.Rank()) && Succeeds(s.disk, w, at)
    ensures var d, d' := s.disk, StageDisk(s.disk, c, w, at);
            && (forall p :: p in d'.live && p !in d.live ==>
                  && p.id == w.id
                  && (IsArtifactTemp(p) ==> p.nonce == w.nonce && Manifest(w.id, w.nonce) in d'.live)
                  && (IsFinal(p) ==> d'.live[p].nonce == w.nonce && Manifest(w.id, w.nonce) in d'.live))
  {
    EntriesFit(s);
  }

  lemma AdvanceShape(s: State, lossy: bool)
    requires s.proc.Busy? && s.proc.phase.Staging? && s.proc.phase.at != Commit
             && Succeeds(s.disk, s.proc.phase.work, s.proc.phase.at)
    ensures Enabled(s, Advance, lossy)
    ensures var c, w, at := s.proc.call, s.proc.phase.work, s.proc.phase.at;
            Do(s, Advance, lossy)
                == In(s, Staging(StageWork(c, w, at), at.After())).(disk := StageDisk(s.disk, c, w, at))
  {
  }

  lemma StagingKeepsClean(s: State, lossy: bool)
    requires Inv(s) && Clean(s) && Enabled(s, Advance, lossy) && s.proc.phase.at != Commit
    ensures Clean(Do(s, Advance, lossy))
  {
    var c, w, at := s.proc.call, s.proc.phase.work, s.proc.phase.at;
    var s' := Do(s, Advance, lossy);
    StageLive(s, c, w, at);
    StageKeepsEntries(s, c, w, at);
    StageAdds(s, c, w, at);
    AdvanceShape(s, lossy);
    forall p | p in s'.disk.live ensures Covered(s', p) {
      if p in s.disk.live { assert Covered(s, p); }
    }
    forall p | p in s'.debris ensures DebrisOk(s', p) {
      assert DebrisOk(s, p);
    }
  }

  lemma AdvanceKeepsClean(s: State, lossy: bool)
    requires Inv(s) && Clean(s) && Enabled(s, Advance, lossy)
    ensures Clean(Do(s, Advance, lossy))
  {
    if s.proc.phase.at != Commit {
      StagingKeepsClean(s, lossy);
    } else {
      var s' := Do(s, Advance, lossy);
      CommitPosts(s);
      forall p | p in s'.disk.live ensures Covered(s', p) { assert Covered(s, p); }
      forall p | p in s'.debris ensures DebrisOk(s', p) { assert DebrisOk(s, p); }
    }
  }

  /** A step that touches neither the disk nor the book, nor stops a rollback. */
  lemma QuietKeepsClean(s: State, s': State)
    requires Clean(s)
    requires s'.disk == s.disk && s'.book == s.book && s'.debris == s.debris
    requires s'.proc.Busy? && Holder(s'.proc.phase) ==>
               || WorkingOn(s, s'.proc.phase.work.id)
               || forall p :: p in s.disk.live && IsFinal(p) ==> p.id != s'.proc.phase.work.id
    requires s.proc.Busy? && s.proc.phase.RollingBack? && s.proc.phase.todo != [] ==>
               s'.proc.Busy? && s'.proc.phase == s.proc.phase
    requires s'.proc.Busy? && s'.proc.phase.Recovering? && s'.proc.phase.todo != []
             && s'.proc.phase.todo[|s'.proc.phase.todo| - 1].Remove? ==>
               s'.proc.phase.todo[|s'.proc.phase.todo| - 1].path in s.disk.live
    ensures Clean(s')
  {
    forall p | p in s'.disk.live ensures Covered(s', p) {
      assert Covered(s, p);
    }
    forall p | p in s'.debris ensures DebrisOk(s', p) {
      assert DebrisOk(s, p);
    }
  }

  lemma SweepKeepsClean(s: State, q: Path, lossy: bool)
    requires Inv(s) && Clean(s) && Enabled(s, SweepOne(q), lossy)
    ensures Clean(Do(s, SweepOne(q), lossy))
  {
    var s' := Do(s, SweepOne(q), lossy);
    forall p | p in s'.disk.live ensures Covered(s', p) {
      assert Covered(s, p);
    }
    forall p | p in s'.debris ensures DebrisOk(s', p) {
      assert DebrisOk(s, p);
    }
  }

  lemma ForeignKeepsClean(s: State, q: Path, n: nat, bytes: Bytes, lossy: bool)
    requires Inv(s) && Clean(s) && Enabled(s, ForeignFile(q, n, bytes), lossy)
    ensures Clean(Do(s, ForeignFile(q, n, bytes), lossy))
  {
    var s' := Do(s, ForeignFile(q, n, bytes), lossy);
    forall p | p in s'.disk.live ensures Covered(s', p) {
      if p != q { assert Covered(s, p); }
    }
    forall p | p in s'.debris ensures DebrisOk(s', p) {
      assert DebrisOk(s, p);
    }
  }

  lemma StepKeepsClean(s: State, step: Step)
    requires Inv(s) && Clean(s) && Enabled(s, step, false)
    ensures Clean(Do(s, step, false))
  {
    var s' := Do(s, step, false);
    match step
    case SweepOne(q) => SweepKeepsClean(s, q, false);
    case DoChore =>
      if s.proc.phase.Recovering? { RecoveryChoreKeepsClean(s, false); } else { HolderChoreKeepsClean(s, false); }
    case Advance => AdvanceKeepsClean(s, false);
    case ForeignFile(q, n, bytes) => ForeignKeepsClean(s, q, n, bytes, false);
    case Crash(d) => if s.proc.Busy? { StopKeepsClean(s, s'); } else { IdleCrashKeepsClean(s, d); }
    case Raise(code) => if s.proc.phase.Staging? { QuietKeepsClean(s, s'); } else { StopKeepsClean(s, s'); }
    case CommitRaises(applied, readable) => CommitRaisesKeepsClean(s, applied, readable);
    case Begin(nonce) =>
      assert Record(s.proc.call.id) !in s.disk.live && Snapshot(s.proc.call.id) !in s.disk.live;
      QuietKeepsClean(s, s');
    case _ => QuietKeepsClean(s, s');
  }

  lemma IdleCrashKeepsClean(s: State, d: Disk)
    requires Inv(s) && Clean(s) && s.proc.Idle? && Survives(s.disk, d, false)
    ensures Clean(Do(s, Crash(d), false))
  {
    var s' := Do(s, Crash(d), false);
    forall p | p in s'.disk.live ensures Covered(s', p) {
      assert Covered(s, p);
    }
    forall p | p in s'.debris ensures DebrisOk(s', p) {
      assert DebrisOk(s, p);
    }
  }

  lemma CommitRaisesKeepsClean(s: State, applied: bool, readable: bool)
    requires Inv(s) && Clean(s) && Enabled(s, CommitRaises(applied, readable), false)
    ensures Clean(Do(s, CommitRaises(applied, readable), false))
  {
    var s' := Do(s, CommitRaises(applied, readable), false);
    if applied { CommitPosts(s); }
    forall p | p in s'.disk.live ensures Covered(s', p) {
      assert Covered(s, p);
    }
    forall p | p in s'.debris ensures DebrisOk(s', p) {
      assert DebrisOk(s, p);
    }
  }

  lemma {:induction false} RunKeepsClean(s: State, steps: seq<Step>)
    requires Inv(s) && Clean(s) && Legal(s, steps, false) && AllOrdinary(steps)
    ensures Clean(Exec(s, steps, false))
    decreases |steps|
  {
    if steps != [] {
      StepKeepsInv(s, steps[0], false);
      StepKeepsClean(s, steps[0]);
      RunKeepsClean(Do(s, steps[0], false), steps[1..]);
    }
  }

  // ---------------------------------------------------------------- which runs leave debris

  /** No crash or exception falls between a rollback's manifest unlink and its last artifact unlink. */
  ghost predicate NeverUncovers(s: State, steps: seq<Step>)
    requires Legal(s, steps, false)
    decreases |steps|
  {
    steps != [] ==>
      && (steps[0].Crash? || steps[0].Raise? ==> Uncovered(s) == {})
      && NeverUncovers(Do(s, steps[0], false), steps[1..])
  }

  lemma StepDebris(s: State, step: Step)
    requires Enabled(s, step, false)
    ensures Do(s, step, false).debris == s.debris + (if step.Crash? || step.Raise? then Uncovered(s) else {})
  {
  }

  lemma {:induction false} DebrisExactly(s: State, steps: seq<Step>)
    requires Legal(s, steps, false)
    ensures s.debris <= Exec(s, steps, false).debris
    ensures s.debris == {} ==> (Exec(s, steps, false).debris == {} <==> NeverUncovers(s, steps))
    decreases |steps|
  {
    if steps != [] {
      StepDebris(s, steps[0]);
      DebrisExactly(Do(s, steps[0], false), steps[1..]);
    }
  }

  // ---------------------------------------------------------------- theorems

  /** After a completed recovery only artifacts remain, and the orphans among them are exactly the debris. */
  lemma RecoveryIsExact(reader: Reader, steps: seq<Step>)
    requires Legal(Initial(reader), steps, false) && AllOrdinary(steps)
    requires var s := Exec(Initial(reader), steps, false); s.proc.Busy? && s.proc.phase.Ready?
    ensures var s := Exec(Initial(reader), steps, false);
            && (forall p :: p in s.disk.live ==> IsFinal(p))
            && (forall p :: Orphan(s, p) <==> p in s.debris)
  {
    RunKeepsInv(Initial(reader), steps, false);
    RunKeepsClean(Initial(reader), steps);
    var s := Exec(Initial(reader), steps, false);
    forall p | p in s.disk.live ensures IsFinal(p) && (Orphan(s, p) ==> p in s.debris) {
      assert Covered(s, p);
    }
    forall p | p in s.debris ensures Orphan(s, p) {
      assert DebrisOk(s, p);
    }
  }

  /** Clean recovery, with its exact condition on the run. */
  lemma CleanRecovery(reader: Reader, steps: seq<Step>)
    requires Legal(Initial(reader), steps, false) && AllOrdinary(steps)
    requires var s := Exec(Initial(reader), steps, false); s.proc.Busy? && s.proc.phase.Ready?
    ensures var s := Exec(Initial(reader), steps, false);
            (forall p :: p in s.disk.live ==> IsFinal(p) && (IsCommitted(s.book, p.id) || s.disk.live[p].ForeignIno?))
            <==> NeverUncovers(Initial(reader), steps)
  {
    var s := Exec(Initial(reader), steps, false);
    RunKeepsInv(Initial(reader), steps, false);
    RowsArePublished(s);
    RecoveryIsExact(reader, steps);
    DebrisExactly(Initial(reader), steps);
    if s.debris != {} {
      var p :| p in s.debris;
      assert Orphan(s, p);
    }
    forall p | p in s.disk.live && p.id !in s.book.rows && !s.disk.live[p].ForeignIno? ensures p in s.debris {
      assert Orphan(s, p);
    }
  }

  /** What a completed recovery leaves: no manifest, no manifest temporary, nothing the glob would find. */
  ghost predicate Swept(d: Disk) {
    forall p :: p in d.live ==> !Globbed(p) && !p.ManifestTemp?
  }

  predicate RecoveryStep(step: Step) {
    step.SweepOne? || step.SweepDone? || step.PickManifest? || step.DoChore? || step.RecoveryDone?
  }

  /** Running recovery again changes nothing on disk. */
  lemma {:induction false} RecoveryAgainIsSilent(s: State, steps: seq<Step>, lossy: bool)
    requires s.proc.Busy? && s.proc.phase in {Sweeping, Recovering([]), Ready} && Swept(s.disk)
    requires Legal(s, steps, lossy) && forall i :: 0 <= i < |steps| ==> RecoveryStep(steps[i])
    ensures Exec(s, steps, lossy).disk == s.disk && Exec(s, steps, lossy).book == s.book
    decreases |steps|
  {
    if steps != [] {
      var s' := Do(s, steps[0], lossy);
      assert RecoveryStep(steps[0]);
      assert s'.disk == s.disk;
      RecoveryAgainIsSilent(s', steps[1..], lossy);
    }
  }

  /** The identifier of a debris artifact is burned: no later run commits it, and the file stays. */
  lemma {:induction false} DebrisIsForever(s: State, steps: seq<Step>, p: Path)
    requires Inv(s) && Clean(s) && p in s.debris && Legal(s, steps, false) && AllOrdinary(steps)
    ensures var s' := Exec(s, steps, false);
            p in s'.debris && p in s'.disk.live && p.id !in s'.book.rows
    decreases |steps|
  {
    if steps == [] {
      assert DebrisOk(s, p);
    } else {
      StepKeepsInv(s, steps[0], false);
      StepKeepsClean(s, steps[0]);
      StepDebris(s, steps[0]);
      DebrisIsForever(Do(s, steps[0], false), steps[1..], p);
    }
  }
}
