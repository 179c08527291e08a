/**
 The rest of the invariant, kept by every run whose submissions avoid identifiers beginning with
 `.txn-`: committed artifacts stay in place, and recovery meets only manifests the writer wrote.
 */
module CommitVisibility {
  import opened Basics
  import opened VaultDisk
  import opened LedgerBook
  import opened CommitProtocol
  import opened CommitInvariant

  // ---------------------------------------------------------------- the visibility boundary

  ghost predicate RowVisible(d: Disk, b: Book, id: PredictionId)
    requires id in b.rows
  {
    && b.rows[id].state == Committed
    && Secured(d, Record(id), b.rows[id].record)
    && Secured(d, Snapshot(id), b.rows[id].snapshot)
  }

  ghost predicate Visible(s: State) {
    forall id :: id in s.book.rows ==> RowVisible(s.disk, s.book, id)
  }

  // ---------------------------------------------------------------- reserved names

  /** A check a caller can make on the draft; foreign files keep off the reserved names as well. */
  predicate Ordinary(step: Step) {
    && (step.Acquire? && step.call.Submit? ==> !Txn(step.call.id))
    && (step.ForeignFile? ==> !Txn(step.path.id))
  }

  predicate AllOrdinary(steps: seq<Step>) {
    forall i :: 0 <= i < |steps| ==> Ordinary(steps[i])
  }

  /** No value of the name, now or after a crash, is a snapshot the glob would find. */
  ghost predicate NotReserved(d: Disk, p: Path) {
    p.Snapshot? && Txn(p.id) ==> May(d, p) <= {None}
  }

  ghost predicate Unreserved(s: State) {
    && (forall p: Path :: NotReserved(s.disk, p))
    && (s.proc.Busy? && s.proc.call.Submit? ==> !Txn(s.proc.call.id))
  }

  /** Recovery works through one manifest's list; what it already removed is gone or foreign. */
  ghost predicate RecoveringOk(d: Disk, b: Book, todo: seq<Chore>) {
    && (forall p :: p in d.live ==> !p.ManifestTemp?)
    && (todo != [] ==>
          && todo[|todo| - 1].Remove? && todo[|todo| - 1].path.Manifest?
          && var m := todo[|todo| - 1].path;
             var full := RecoveryList(b, m.id, m.nonce, m);
             && |todo| <= |full| && todo == full[|full| - |todo|..]
             && forall k :: 0 <= k < |full| - |todo| ==> GoneOrForeign(d, full[k].path))
  }

  predicate GoneOrForeign(d: Disk, p: Path) {
    p in d.live ==> d.live[p].ForeignIno?
  }

  ghost predicate RecoveryOk(s: State) {
    s.proc.Busy? && s.proc.phase.Recovering? ==> RecoveringOk(s.disk, s.book, s.proc.phase.todo)
  }

  ghost predicate Inv(s: State) {
    Core(s) && Visible(s) && Unreserved(s) && RecoveryOk(s)
  }

  // ---------------------------------------------------------------- disk primitives keep committed artifacts in place

  lemma SameName(d: Disk, d': Disk, q: Path, bytes: Bytes)
    requires Secured(d, q, bytes) && d'.files == d.files && Entry(d', q) == Entry(d, q) && Stale(d', q) == Stale(d, q)
    ensures Secured(d', q, bytes)
  {
  }

  lemma NameChangeKeepsVisible(s: State, p: Path, d': Disk)
    requires Visible(s)
    requires IsFinal(p) ==> p.id !in s.book.rows
    requires d'.files == s.disk.files
    requires forall q: Path :: q != p ==> Entry(d', q) == Entry(s.disk, q) && Stale(d', q) == Stale(s.disk, q)
    ensures Visible(s.(disk := d'))
  {
    forall id | id in s.book.rows ensures RowVisible(d', s.book, id) {
      assert RowVisible(s.disk, s.book, id);
      SameName(s.disk, d', Record(id), s.book.rows[id].record);
      SameName(s.disk, d', Snapshot(id), s.book.rows[id].snapshot);
    }
  }

  lemma LinkKeepsVisible(s: State, p: Path, i: Ino)
    requires Visible(s) && (IsFinal(p) ==> p.id !in s.book.rows)
    ensures Visible(s.(disk := Link(s.disk, p, i)))
  {
    NameChangeKeepsVisible(s, p, Link(s.disk, p, i));
  }

  lemma UnlinkKeepsVisible(s: State, p: Path)
    requires Visible(s) && (IsFinal(p) ==> p.id !in s.book.rows)
    ensures Visible(s.(disk := Unlink(s.disk, p)))
  {
    NameChangeKeepsVisible(s, p, Unlink(s.disk, p));
  }

  lemma FsyncKeepsVisible(s: State, dir: Dir)
    requires Visible(s)
    ensures Visible(s.(disk := Fsync(s.disk, dir)))
  {
    forall id | id in s.book.rows ensures RowVisible(Fsync(s.disk, dir), s.book, id) {
      assert RowVisible(s.disk, s.book, id);
    }
  }

  lemma FillKeepsVisible(s: State, i: Ino, c: Content)
    requires Visible(s) && (forall p: Path :: NameOk(s.disk, p))
    requires if i.ForeignIno? then i !in s.disk.files else i.id !in s.book.rows
    ensures Visible(s.(disk := Fill(s.disk, i, c)))
  {
    forall id | id in s.book.rows ensures RowVisible(Fill(s.disk, i, c), s.book, id) {
      assert RowVisible(s.disk, s.book, id);
      assert NameOk(s.disk, Record(id)) && NameOk(s.disk, Snapshot(id));
      assert Entry(s.disk, Record(id)) in May(s.disk, Record(id));
      assert Entry(s.disk, Snapshot(id)) in May(s.disk, Snapshot(id));
    }
  }

  /** The visibility boundary survives any crash, even one that loses unsynced directory entries. */
  lemma CrashKeepsVisible(s: State, d': Disk, lossy: bool)
    requires Visible(s) && Survives(s.disk, d', lossy)
    ensures Visible(s.(disk := d'))
  {
    forall id | id in s.book.rows ensures RowVisible(d', s.book, id) {
      assert RowVisible(s.disk, s.book, id);
      assert Entry(d', Record(id)) in May(s.disk, Record(id));
      assert Entry(d', Snapshot(id)) in May(s.disk, Snapshot(id));
    }
  }

  lemma RowsArePublished(s: State)
    requires Visible(s)
    ensures forall id :: id in s.book.rows ==>
              IsCommitted(s.book, id) && Record(id) in s.disk.live && Snapshot(id) in s.disk.live
  {
    forall id | id in s.book.rows ensures IsCommitted(s.book, id) && Record(id) in s.disk.live
        && Snapshot(id) in s.disk.live {
      assert RowVisible(s.disk, s.book, id);
    }
  }

  // ---------------------------------------------------------------- staging and removal

  lemma StageKeepsVisible(s: State, c: Call, w: Work, at: Point)
    requires DiskOk(s) && Visible(s) && StagingOk(s, c, w, at.Rank()) && Succeeds(s.disk, w, at)
    requires w.id !in s.book.rows
    ensures Visible(s.(disk := StageDisk(s.disk, c, w, at)))
  {
    var d := s.disk;
    match at
    case MakeManifest => MakeFileVisible(s, ManifestTemp(w.id, w.nonce), ManifestIno(w.id, w.nonce));
    case FillManifest => FillKeepsVisible(s, ManifestIno(w.id, w.nonce), ManifestDoc(w.id, w.nonce));
    case RenameManifest =>
      var m, t, i := Manifest(w.id, w.nonce), ManifestTemp(w.id, w.nonce), ManifestIno(w.id, w.nonce);
      LinkKeepsVisible(s, m, i);
      UnlinkKeepsVisible(s.(disk := Link(d, m, i)), t);
    case MakeSnapshot => MakeFileVisible(s, SnapshotTemp(w.id, w.nonce), OwnSnapshot(w));
    case FillSnapshot => FillKeepsVisible(s, OwnSnapshot(w), Artifact(SnapshotBytes(c)));
    case MakeRecord => MakeFileVisible(s, RecordTemp(w.id, w.nonce), OwnRecord(w));
    case FillRecord => FillKeepsVisible(s, OwnRecord(w), Artifact(RecordBytes(c)));
    case LinkSnapshot => LinkKeepsVisible(s, Snapshot(w.id), OwnSnapshot(w));
    case LinkRecord => LinkKeepsVisible(s, Record(w.id), OwnRecord(w));
    case DropSnapshotTemp => UnlinkKeepsVisible(s, SnapshotTemp(w.id, w.nonce));
    case DropRecordTemp => UnlinkKeepsVisible(s, RecordTemp(w.id, w.nonce));
    case SyncManifest | SyncSnapshot => FsyncKeepsVisible(s, SnapshotsDir);
    case SyncRecord => FsyncKeepsVisible(s, RecordsDir);
    case _ =>
  }

  lemma MakeFileVisible(s: State, p: Path, i: Ino)
    requires DiskOk(s) && Visible(s)
    requires !IsFinal(p) && !i.ForeignIno? && i.id !in s.book.rows
    ensures Visible(s.(disk := Fill(Link(s.disk, p, i), i, Torn)))
  {
    var d1 := Fill(s.disk, i, Torn);
    assert Fill(Link(s.disk, p, i), i, Torn) == Link(d1, p, i);
    FillKeepsVisible(s, i, Torn);
    LinkKeepsVisible(s.(disk := d1), p, i);
  }

  /** Every removal list touches only artifacts of predictions that are not in the registry. */
  lemma ChoreIsSafe(s: State)
    requires Inv(s) && s.proc.Busy?
    requires (s.proc.phase.Recovering? || s.proc.phase.RollingBack? || s.proc.phase.Finalizing?)
             && s.proc.phase.todo != []
    ensures var c := s.proc.phase.todo[0]; c.Remove? && IsFinal(c.path) ==> c.path.id !in s.book.rows
  {
    var ph := s.proc.phase;
    var c := ph.todo[0];
    assert c in ph.todo;
    if ph.Recovering? && c.Remove? && IsFinal(c.path) {
      var m := ph.todo[|ph.todo| - 1].path;
      var full := RecoveryList(s.book, m.id, m.nonce, m);
      assert c in full;
      assert !IsCommitted(s.book, m.id);
      RowsArePublished(s);
    }
  }

  lemma RecoveryChoreOk(d: Disk, b: Book, todo: seq<Chore>)
    requires RecoveringOk(d, b, todo) && todo != []
    ensures RecoveringOk(Perform(d, todo[0]), b, todo[1..])
  {
    var m := todo[|todo| - 1].path;
    var full := RecoveryList(b, m.id, m.nonce, m);
    var n := |full| - |todo|;
    SuffixTail(full, todo);
    RemovedSoFar(d, full, n);
  }

  lemma SuffixTail(full: seq<Chore>, todo: seq<Chore>)
    requires 0 < |todo| <= |full| && todo == full[|full| - |todo|..]
    ensures todo[0] == full[|full| - |todo|] && todo[1..] == full[|full| - |todo| + 1..]
    ensures |todo| > 1 ==> todo[1..][|todo| - 2] == todo[|todo| - 1]
  {
  }

  /** Removing the next name of a list extends the part of it that is gone. */
  lemma RemovedSoFar(d: Disk, full: seq<Chore>, n: nat)
    requires n < |full| && (forall k :: 0 <= k < |full| ==> full[k].Remove?)
    requires forall k :: 0 <= k < n ==> GoneOrForeign(d, full[k].path)
    ensures forall k :: 0 <= k < n + 1 ==> GoneOrForeign(Perform(d, full[n]), full[k].path)
  {
  }

  lemma PerformKeepsVisible(s: State, c: Chore)
    requires Visible(s)
    requires c.Remove? && IsFinal(c.path) ==> c.path.id !in s.book.rows
    ensures Visible(s.(disk := Perform(s.disk, c)))
  {
    match c
    case Remove(p) => UnlinkKeepsVisible(s, p);
    case Sync(dir) => FsyncKeepsVisible(s, dir);
  }

  /** The transaction that commits finds its artifacts already secured. */
  lemma PostedIsVisible(s: State)
    requires Inv(s) && s.proc.Busy? && s.proc.phase.Staging? && s.proc.phase.at == Commit
    ensures Visible(s.(book := Posted(s.book, s.proc.call)))
  {
    var b' := Posted(s.book, s.proc.call);
    forall id | id in b'.rows ensures RowVisible(s.disk, b', id) {
      if id != s.proc.call.id { assert RowVisible(s.disk, s.book, id); }
    }
  }

  lemma ForeignKeepsVisible(s: State, p: Path, n: nat, bytes: Bytes, lossy: bool)
    requires Inv(s) && Enabled(s, ForeignFile(p, n, bytes), lossy)
    ensures Visible(Do(s, ForeignFile(p, n, bytes), lossy))
  {
    var i := ForeignIno(n);
    var d1 := Fill(s.disk, i, Artifact(bytes));
    assert Do(s, ForeignFile(p, n, bytes), lossy) == s.(disk := Link(d1, p, i));
    FillKeepsVisible(s, i, Artifact(bytes));
    RowsArePublished(s);
    LinkKeepsVisible(s.(disk := d1), p, i);
  }

  lemma AdvanceKeepsVisible(s: State, lossy: bool)
    requires Inv(s) && Enabled(s, Advance, lossy)
    ensures Visible(Do(s, Advance, lossy))
  {
    if s.proc.phase.at == Commit {
      CommitPosts(s);
      PostedIsVisible(s);
    } else {
      StageKeepsVisible(s, s.proc.call, s.proc.phase.work, s.proc.phase.at);
    }
  }

  lemma CommitRaisesKeepsVisible(s: State, applied: bool, readable: bool, lossy: bool)
    requires Inv(s) && Enabled(s, CommitRaises(applied, readable), lossy)
    ensures Visible(Do(s, CommitRaises(applied, readable), lossy))
  {
    if applied {
      CommitPosts(s);
      PostedIsVisible(s);
    }
  }

  lemma StepKeepsVisible(s: State, step: Step, lossy: bool)
    requires Inv(s) && Enabled(s, step, lossy)
    ensures Visible(Do(s, step, lossy))
  {
    match step
    case SweepOne(p) => UnlinkKeepsVisible(s, p);
    case DoChore => ChoreIsSafe(s); PerformKeepsVisible(s, s.proc.phase.todo[0]);
    case Advance => AdvanceKeepsVisible(s, lossy);
    case CommitRaises(applied, readable) => CommitRaisesKeepsVisible(s, applied, readable, lossy);
    case Crash(d) => CrashKeepsVisible(s, d, lossy);
    case ForeignFile(p, n, bytes) => ForeignKeepsVisible(s, p, n, bytes, lossy);
    case _ =>
  }

  // ---------------------------------------------------------------- reserved names stay unused

  /** A change of names that puts nothing at a reserved one. */
  lemma NamesStayUnreserved(d: Disk, d': Disk)
    requires forall p: Path :: NotReserved(d, p)
    requires forall p: Path :: p.Snapshot? && Txn(p.id) ==> May(d', p) <= May(d, p) + {None}
    ensures forall p: Path :: NotReserved(d', p)
  {
    forall p: Path ensures NotReserved(d', p) { assert NotReserved(d, p); }
  }

  lemma StageLeavesReserved(d: Disk, c: Call, w: Work, at: Point)
    requires !Txn(w.id)
    ensures forall p: Path :: p.Snapshot? && Txn(p.id) ==> May(StageDisk(d, c, w, at), p) <= May(d, p)
  {
  }

  lemma RemovalLeavesReserved(d: Disk, c: Chore)
    ensures forall p: Path :: May(Perform(d, c), p) <= May(d, p) + {None}
  {
  }

  lemma StepKeepsUnreserved(s: State, step: Step, lossy: bool)
    requires Inv(s) && Enabled(s, step, lossy) && Ordinary(step)
    ensures Unreserved(Do(s, step, lossy))
  {
    var s' := Do(s, step, lossy);
    match step
    case SweepOne(p) => RemovalLeavesReserved(s.disk, Remove(p)); NamesStayUnreserved(s.disk, s'.disk);
    case DoChore => RemovalLeavesReserved(s.disk, s.proc.phase.todo[0]); NamesStayUnreserved(s.disk, s'.disk);
    case Advance =>
      if s.proc.phase.at != Commit { StageLeavesReserved(s.disk, s.proc.call, s.proc.phase.work, s.proc.phase.at); }
      NamesStayUnreserved(s.disk, s'.disk);
    case Crash(d) => NamesStayUnreserved(s.disk, d);
    case _ => NamesStayUnreserved(s.disk, s'.disk);
  }

  // ---------------------------------------------------------------- recovery's list

  /** Where no reserved name is in use, the glob finds only manifests of the writer's own. */
  lemma PickedIsOwn(s: State, p: Path)
    requires Inv(s) && Globbed(p) && DocAt(s.disk, s.reader, p).Some?
    ensures p.Manifest? && DocAt(s.disk, s.reader, p) == Some(OwnDoc(p.id, p.nonce))
  {
    assert NameOk(s.disk, p) && NotReserved(s.disk, p);
    assert Entry(s.disk, p) in May(s.disk, p);
  }

  lemma ForeignKeepsRecovering(d: Disk, d': Disk, b: Book, todo: seq<Chore>, p: Path, i: Ino)
    requires RecoveringOk(d, b, todo) && IsFinal(p) && i.ForeignIno? && d'.live == d.live[p := i]
    ensures RecoveringOk(d', b, todo)
  {
    if todo != [] {
      var m := todo[|todo| - 1].path;
      var full := RecoveryList(b, m.id, m.nonce, m);
      forall k | 0 <= k < |full| - |todo| ensures GoneOrForeign(d', full[k].path) {
        assert GoneOrForeign(d, full[k].path);
      }
    }
  }

  lemma PickKeepsRecovery(s: State, p: Path, lossy: bool)
    requires Inv(s) && Enabled(s, PickManifest(p), lossy)
    ensures RecoveryOk(Do(s, PickManifest(p), lossy))
  {
    PickedIsOwn(s, p);
    OwnDocList(s.book, p.id, p.nonce, p);
    var full := RecoveryList(s.book, p.id, p.nonce, p);
    assert full[|full| - |full|..] == full;
  }

  lemma ForeignFileKeepsRecovery(s: State, p: Path, n: nat, bytes: Bytes, lossy: bool)
    requires RecoveryOk(s) && Enabled(s, ForeignFile(p, n, bytes), lossy)
    ensures RecoveryOk(Do(s, ForeignFile(p, n, bytes), lossy))
  {
    var s' := Do(s, ForeignFile(p, n, bytes), lossy);
    if s.proc.Busy? && s.proc.phase.Recovering? {
      ForeignKeepsRecovering(s.disk, s'.disk, s.book, s.proc.phase.todo, p, ForeignIno(n));
    }
  }

  lemma ChoreKeepsRecovery(s: State, lossy: bool)
    requires RecoveryOk(s) && Enabled(s, DoChore, lossy)
    ensures RecoveryOk(Do(s, DoChore, lossy))
  {
    if s.proc.phase.Recovering? { RecoveryChoreOk(s.disk, s.book, s.proc.phase.todo); }
  }

  lemma StepKeepsRecovery(s: State, step: Step, lossy: bool)
    requires Inv(s) && Enabled(s, step, lossy)
    ensures RecoveryOk(Do(s, step, lossy))
  {
    match step
    case PickManifest(p) => PickKeepsRecovery(s, p, lossy);
    case DoChore => ChoreKeepsRecovery(s, lossy);
    case ForeignFile(p, n, bytes) => ForeignFileKeepsRecovery(s, p, n, bytes, lossy);
    case _ =>
  }

  // ---------------------------------------------------------------- every step, every run

  lemma StepKeepsInv(s: State, step: Step, lossy: bool)
    requires Inv(s) && Enabled(s, step, lossy) && Ordinary(step)
    ensures Inv(Do(s, step, lossy))
  {
    StepKeepsCore(s, step, lossy);
    StepKeepsVisible(s, step, lossy);
    StepKeepsUnreserved(s, step, lossy);
    StepKeepsRecovery(s, step, lossy);
  }

  lemma {:induction false} RunKeepsInv(s: State, steps: seq<Step>, lossy: bool)
    requires Inv(s) && Legal(s, steps, lossy) && AllOrdinary(steps)
    ensures Inv(Exec(s, steps, lossy))
    decreases |steps|
  {
    if steps != [] {
      StepKeepsInv(s, steps[0], lossy);
      RunKeepsInv(Do(s, steps[0], lossy), steps[1..], lossy);
    }
  }
}
