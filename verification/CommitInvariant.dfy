/**
 The part of the commit protocol's invariant that every run keeps, whatever identifiers are
 submitted and whatever recovery reads as a manifest, for ordered and for lossy crashes alike.
 */
module CommitInvariant {
  import opened Basics
  import opened VaultDisk
  import opened LedgerBook
  import opened CommitProtocol

  // ---------------------------------------------------------------- names and inodes

  predicate Fits(p: Path, i: Ino) {
    match p
    case Record(id) => i.ForeignIno? || (i.RecordIno? && i.id == id)
    case Snapshot(id) => i.ForeignIno? || (i.SnapshotIno? && i.id == id)
    case RecordTemp(id, n) => i == RecordIno(id, n)
    case SnapshotTemp(id, n) => i == SnapshotIno(id, n)
    case ManifestTemp(id, n) => i == ManifestIno(id, n)
    case Manifest(id, n) => i == ManifestIno(id, n)
  }

  /** Every value the name may take is an inode of its own kind, and a manifest is always whole. */
  ghost predicate NameOk(d: Disk, p: Path) {
    forall e :: e in May(d, p) && e.Some? ==>
      && Fits(p, e.value)
      && e.value in d.files
      && (p.Manifest? ==> d.files[e.value] == ManifestDoc(p.id, p.nonce))
  }

  ghost predicate DiskOk(s: State) {
    && (forall p: Path :: NameOk(s.disk, p))
    && (forall i: Ino :: i in s.disk.files && !i.ForeignIno? ==> i.nonce in s.nonces)
  }

  // ---------------------------------------------------------------- the lock holder

  ghost predicate Distinct(todo: seq<Chore>) {
    forall i, j :: 0 <= i < j < |todo| ==> todo[i] != todo[j]
  }

  /** Temps are never removed after the manifest that covers them. */
  ghost predicate TempsFirst(todo: seq<Chore>) {
    forall i, j :: 0 <= i < j < |todo| && todo[i].Remove? && todo[i].path.Manifest? && todo[j].Remove? ==>
          !IsArtifactTemp(todo[j].path)
  }

  ghost predicate OnlyManifest(d: Disk, w: Work) {
    forall p :: p in d.live && p.Manifest? ==> p == Manifest(w.id, w.nonce)
  }

  ghost predicate StagingOk(s: State, c: Call, w: Work, r: nat) {
    var d := s.disk;
    && c.Submit? && w.id == c.id && w.nonce in s.nonces
    && OnlyManifest(d, w)
    && (r == 0 ==> ManifestIno(w.id, w.nonce) !in d.files)
    && (1 <= r <= 2 ==> Entry(d, ManifestTemp(w.id, w.nonce)) == Some(ManifestIno(w.id, w.nonce)))
    && (2 <= r ==>
          ManifestIno(w.id, w.nonce) in d.files && d.files[ManifestIno(w.id, w.nonce)] == ManifestDoc(w.id, w.nonce))
    && (3 <= r ==> Manifest(w.id, w.nonce) in d.live)
    && (r <= 4 ==> OwnSnapshot(w) !in d.files)
    && (r <= 6 ==> OwnRecord(w) !in d.files)
    && (5 <= r <= 11 ==> SnapshotTemp(w.id, w.nonce) in d.live)
    && (12 <= r ==> SnapshotTemp(w.id, w.nonce) !in d.live)
    && (7 <= r <= 15 ==> RecordTemp(w.id, w.nonce) in d.live)
    && (16 <= r ==> RecordTemp(w.id, w.nonce) !in d.live)
    && (6 <= r ==> OwnSnapshot(w) in d.files && d.files[OwnSnapshot(w)] == Artifact(c.snapshot))
    && (8 <= r ==> OwnRecord(w) in d.files && d.files[OwnRecord(w)] == Artifact(c.record))
    && (10 <= r <==> Entry(d, Snapshot(w.id)) == Some(OwnSnapshot(w)))
    && (14 <= r <==> Entry(d, Record(w.id)) == Some(OwnRecord(w)))
    && (13 <= r ==> Stale(d, Snapshot(w.id)) == {})
    && (17 <= r ==> Stale(d, Record(w.id)) == {})
    && w.snapshotPublished == (11 <= r) && w.recordPublished == (15 <= r)
    && w.row == (if r <= 8 then None else Some(Row(if 18 <= r then Committed else InProgress, c.record, c.snapshot)))
    && w.keyed == (19 <= r)
  }

  /** A rollback's remaining artifacts are exactly the names still linked to this write's inodes. */
  ghost predicate RollingOk(d: Disk, w: Work, todo: seq<Chore>) {
    && Distinct(todo) && TempsFirst(todo) && OnlyManifest(d, w)
    && (forall x :: x in todo && x.Remove? ==>
          x.path in {RecordTemp(w.id, w.nonce), SnapshotTemp(w.id, w.nonce), Manifest(w.id, w.nonce), Record(w.id),
              Snapshot(w.id)})
    && (Remove(Record(w.id)) in todo <==> Entry(d, Record(w.id)) == Some(OwnRecord(w)))
    && (Remove(Snapshot(w.id)) in todo <==> Entry(d, Snapshot(w.id)) == Some(OwnSnapshot(w)))
    && (RecordTemp(w.id, w.nonce) in d.live ==> Remove(RecordTemp(w.id, w.nonce)) in todo)
    && (SnapshotTemp(w.id, w.nonce) in d.live ==> Remove(SnapshotTemp(w.id, w.nonce)) in todo)
    && (Manifest(w.id, w.nonce) in d.live ==> Remove(Manifest(w.id, w.nonce)) in todo)
  }

  ghost predicate FinalizingOk(d: Disk, w: Work, todo: seq<Chore>) {
    && Distinct(todo) && TempsFirst(todo) && OnlyManifest(d, w)
    && (forall x :: x in todo && x.Remove? ==>
          x.path in {RecordTemp(w.id, w.nonce), SnapshotTemp(w.id, w.nonce), Manifest(w.id, w.nonce)})
    && (RecordTemp(w.id, w.nonce) in d.live ==> Remove(RecordTemp(w.id, w.nonce)) in todo)
    && (SnapshotTemp(w.id, w.nonce) in d.live ==> Remove(SnapshotTemp(w.id, w.nonce)) in todo)
    && (Manifest(w.id, w.nonce) in d.live ==> Remove(Manifest(w.id, w.nonce)) in todo)
  }

  ghost predicate NoManifests(d: Disk) {
    forall p :: p in d.live ==> !p.Manifest? && !p.ManifestTemp?
  }

  /** A name the glob would find, and is no manifest, is a foreign file. */
  ghost predicate ReservedAreForeign(d: Disk) {
    forall p :: p in d.live && Globbed(p) && p.Snapshot? ==> d.live[p].ForeignIno?
  }

  ghost predicate PhaseOk(s: State, c: Call, before: Book, ph: Phase) {
    && (!ph.Finalizing? ==> s.book == before)
    && match ph
       case Sweeping => true
       case Recovering(todo) => forall p :: p in s.disk.live ==> !p.ManifestTemp?
       case Ready => NoManifests(s.disk) && ReservedAreForeign(s.disk)
       case Staging(w, at) => Postable(before, c) && StagingOk(s, c, w, at.Rank())
       case RollingBack(w, todo, _) => Postable(before, c) && w.id == c.id && RollingOk(s.disk, w, todo)
       case Finalizing(w, todo, _) =>
         && Postable(before, c) && w.id == c.id && s.book == Posted(before, c)
         && FinalizingOk(s.disk, w, todo)
  }

  ghost predicate LogOk(s: State) {
    forall f :: f in s.log ==> CallSpec(f.before, f.after, f.call, f.answer)
  }

  ghost predicate Core(s: State) {
    && DiskOk(s)
    && (s.proc.Busy? ==> PhaseOk(s, s.proc.call, s.proc.before, s.proc.phase))
    && LogOk(s)
  }

  // ---------------------------------------------------------------- disk primitives keep names in order

  lemma LinkNames(d: Disk, p: Path, i: Ino)
    requires forall q: Path :: NameOk(d, q)
    requires Fits(p, i) && i in d.files && (p.Manifest? ==> d.files[i] == ManifestDoc(p.id, p.nonce))
    ensures forall q: Path :: NameOk(Link(d, p, i), q)
  {
    forall q: Path ensures NameOk(Link(d, p, i), q) { assert NameOk(d, q); }
  }

  lemma UnlinkNames(d: Disk, p: Path)
    requires forall q: Path :: NameOk(d, q)
    ensures forall q: Path :: NameOk(Unlink(d, p), q)
  {
    forall q: Path ensures NameOk(Unlink(d, p), q) { assert NameOk(d, q); }
  }

  lemma FsyncNames(d: Disk, dir: Dir)
    requires forall q: Path :: NameOk(d, q)
    ensures forall q: Path :: NameOk(Fsync(d, dir), q)
  {
    forall q: Path ensures NameOk(Fsync(d, dir), q) { assert NameOk(d, q); }
  }

  /** Filling a file harms no name unless it is a manifest some name may already hold. */
  lemma FillNames(d: Disk, i: Ino, c: Content)
    requires forall q: Path :: NameOk(d, q)
    requires i.ManifestIno? && Some(i) in May(d, Manifest(i.id, i.nonce)) ==> c == ManifestDoc(i.id, i.nonce)
    ensures forall q: Path :: NameOk(Fill(d, i, c), q)
  {
    forall q: Path ensures NameOk(Fill(d, i, c), q) { assert NameOk(d, q); }
  }

  lemma SurvivorNames(d: Disk, d': Disk, lossy: bool)
    requires forall q: Path :: NameOk(d, q)
    requires Survives(d, d', lossy)
    ensures forall q: Path :: NameOk(d', q)
  {
    forall q: Path ensures NameOk(d', q) { assert NameOk(d, q); assert Entry(d', q) in May(d, q); }
  }

  // ---------------------------------------------------------------- steps outside staging

  lemma ReleaseKeepsCore(s: State, a: Answer)
    requires Core(s) && s.proc.Busy?
    requires CallSpec(s.proc.before, s.book, s.proc.call, a)
    ensures Core(Release(s, a))
  {
  }

  lemma CrashKeepsCore(s: State, d: Disk, lossy: bool)
    requires Core(s) && Survives(s.disk, d, lossy)
    ensures Core(Do(s, Crash(d), lossy))
  {
    SurvivorNames(s.disk, d, lossy);
  }

  lemma ForeignKeepsLists(d: Disk, d': Disk, w: Work, todo: seq<Chore>, p: Path, i: Ino)
    requires IsFinal(p) && p !in d.live && i.ForeignIno? && d'.live == d.live[p := i]
    ensures RollingOk(d, w, todo) ==> RollingOk(d', w, todo)
    ensures FinalizingOk(d, w, todo) ==> FinalizingOk(d', w, todo)
  {
  }

  /** A foreign artifact changes nothing the lock holder relies on. */
  lemma ForeignKeepsPhase(s: State, s': State, p: Path, n: nat, bytes: Bytes)
    requires s.proc.Busy? && PhaseOk(s, s.proc.call, s.proc.before, s.proc.phase)
    requires IsFinal(p) && p !in s.disk.live && ForeignIno(n) !in s.disk.files
    requires s' == s.(disk := Link(Fill(s.disk, ForeignIno(n), Artifact(bytes)), p, ForeignIno(n)))
    ensures PhaseOk(s', s'.proc.call, s'.proc.before, s'.proc.phase)
  {
    match s.proc.phase
    case Staging(w, at) => ForeignKeepsStaging(s, s', s.proc.call, w, at.Rank(), p, ForeignIno(n));
    case RollingBack(w, todo, _) => ForeignKeepsLists(s.disk, s'.disk, w, todo, p, ForeignIno(n));
    case Finalizing(w, todo, _) => ForeignKeepsLists(s.disk, s'.disk, w, todo, p, ForeignIno(n));
    case _ =>
  }

  lemma ForeignKeepsStaging(s: State, s': State, c: Call, w: Work, r: nat, p: Path, i: Ino)
    requires StagingOk(s, c, w, r)
    requires IsFinal(p) && p !in s.disk.live && i.ForeignIno? && i !in s.disk.files
    requires s'.nonces == s.nonces && s'.disk.live == s.disk.live[p := i]
    requires forall q: Path :: q != p ==> Stale(s'.disk, q) == Stale(s.disk, q)
    requires s'.disk.files.Keys == s.disk.files.Keys + {i} && forall j :: j in s.disk.files ==>
               s'.disk.files[j] == s.disk.files[j]
    ensures StagingOk(s', c, w, r)
  {
  }

  lemma ForeignKeepsCore(s: State, p: Path, n: nat, bytes: Bytes, lossy: bool)
    requires Core(s) && Enabled(s, ForeignFile(p, n, bytes), lossy)
    ensures Core(Do(s, ForeignFile(p, n, bytes), lossy))
  {
    var i := ForeignIno(n);
    var d1 := Fill(s.disk, i, Artifact(bytes));
    var s' := s.(disk := Link(d1, p, i));
    assert Do(s, ForeignFile(p, n, bytes), lossy) == s';
    FillNames(s.disk, i, Artifact(bytes));
    LinkNames(d1, p, i);
    if s.proc.Busy? { ForeignKeepsPhase(s, s', p, n, bytes); }
  }

  lemma SweepKeepsCore(s: State, p: Path, lossy: bool)
    requires Core(s) && Enabled(s, SweepOne(p), lossy)
    ensures Core(Do(s, SweepOne(p), lossy))
  {
    UnlinkNames(s.disk, p);
  }

  lemma PerformKeeps(s: State, c: Chore)
    requires DiskOk(s)
    ensures DiskOk(s.(disk := Perform(s.disk, c)))
  {
    match c
    case Remove(p) => UnlinkNames(s.disk, p);
    case Sync(dir) => FsyncNames(s.disk, dir);
  }

  lemma TailFacts(todo: seq<Chore>)
    requires todo != [] && Distinct(todo) && TempsFirst(todo)
    ensures Distinct(todo[1..]) && TempsFirst(todo[1..]) && todo[0] !in todo[1..]
    ensures forall x :: x in todo[1..] ==> x in todo
    ensures forall x :: x in todo && x != todo[0] ==> x in todo[1..]
  {
    var t := todo[1..];
    forall i, j | 0 <= i < j < |t| ensures t[i] != t[j] { assert t[i] == todo[i + 1] && t[j] == todo[j + 1]; }
    assert forall k :: 0 <= k < |t| ==> t[k] == todo[k + 1];
    forall x | x in todo && x != todo[0] ensures x in t {
      var k :| 0 <= k < |todo| && todo[k] == x;
      assert t[k - 1] == x;
    }
  }

  lemma RollingChoreOk(d: Disk, w: Work, todo: seq<Chore>)
    requires RollingOk(d, w, todo) && todo != []
    ensures RollingOk(Perform(d, todo[0]), w, todo[1..])
  {
    TailFacts(todo);
    assert todo[0] in todo;
  }

  lemma FinalizingChoreOk(d: Disk, w: Work, todo: seq<Chore>)
    requires FinalizingOk(d, w, todo) && todo != []
    ensures FinalizingOk(Perform(d, todo[0]), w, todo[1..])
  {
    TailFacts(todo);
    assert todo[0] in todo;
  }

  lemma ChoreKeepsCore(s: State, lossy: bool)
    requires Core(s) && Enabled(s, DoChore, lossy)
    ensures Core(Do(s, DoChore, lossy))
  {
    var ph := s.proc.phase;
    PerformKeeps(s, ph.todo[0]);
    match ph
    case Recovering(todo) =>
    case RollingBack(w, todo, _) => RollingChoreOk(s.disk, w, todo);
    case Finalizing(w, todo, _) => FinalizingChoreOk(s.disk, w, todo);
  }

  lemma RaiseKeepsCore(s: State, code: ErrorCode, lossy: bool)
    requires Core(s) && Enabled(s, Raise(code), lossy)
    ensures Core(Do(s, Raise(code), lossy))
  {
    var s' := Do(s, Raise(code), lossy);
    if s.proc.phase.Staging? {
      RollingBackKeepsCore(s, code);
      assert s' == In(s, RollingBack(s.proc.phase.work, RollbackList(s.disk, s.proc.phase.work), code));
    } else {
      StopKeepsCore(s, code, s.debris + Uncovered(s));
      assert s' == Release(s, Failed(if PreCommit(s.proc.phase) then code else InternalError)).(debris := s.debris
             + Uncovered(s));
    }
  }

  /** An exception that ends the call: definite only before anything was committed. */
  lemma FailureMeetsSpec(s: State, code: ErrorCode)
    requires Core(s) && s.proc.Busy? && !s.proc.phase.Staging?
    ensures CallSpec(s.proc.before, s.book, s.proc.call,
            Failed(if PreCommit(s.proc.phase) then code else InternalError))
  {
  }

  lemma StopKeepsCore(s: State, code: ErrorCode, debris: set<Path>)
    requires Core(s) && s.proc.Busy? && !s.proc.phase.Staging?
    ensures Core(Release(s, Failed(if PreCommit(s.proc.phase) then code else InternalError)).(debris := debris))
  {
    FailureMeetsSpec(s, code);
    ReleaseKeepsCore(s, Failed(if PreCommit(s.proc.phase) then code else InternalError));
  }

  lemma RollingBackKeepsCore(s: State, code: ErrorCode)
    requires Core(s) && s.proc.Busy? && s.proc.phase.Staging?
    ensures Core(In(s, RollingBack(s.proc.phase.work, RollbackList(s.disk, s.proc.phase.work), code)))
  {
    var w := s.proc.phase.work;
    RollbackListOk(s, s.proc.call, w, s.proc.phase.at.Rank());
    var s' := In(s, RollingBack(w, RollbackList(s.disk, w), code));
    assert PhaseOk(s', s.proc.call, s.proc.before, s'.proc.phase);
  }

  /** The ownership test at the start of a rollback finds exactly this write's own links. */
  lemma RollbackOwnership(s: State, c: Call, w: Work, r: nat)
    requires DiskOk(s) && StagingOk(s, c, w, r)
    ensures RecordOwned(s.disk, w) <==> Entry(s.disk, Record(w.id)) == Some(OwnRecord(w))
    ensures SnapshotOwned(s.disk, w) <==> Entry(s.disk, Snapshot(w.id)) == Some(OwnSnapshot(w))
  {
    var d := s.disk;
    assert NameOk(d, RecordTemp(w.id, w.nonce)) && NameOk(d, SnapshotTemp(w.id, w.nonce));
    assert Entry(d, RecordTemp(w.id, w.nonce)) in May(d, RecordTemp(w.id, w.nonce));
    assert Entry(d, SnapshotTemp(w.id, w.nonce)) in May(d, SnapshotTemp(w.id, w.nonce));
  }

  lemma RollbackListOk(s: State, c: Call, w: Work, r: nat)
    requires DiskOk(s) && StagingOk(s, c, w, r)
    ensures RollingOk(s.disk, w, RollbackList(s.disk, w))
  {
    RollbackOwnership(s, c, w, r);
    RollbackListShape(s.disk, w);
  }

  /** The list in order: temporaries, manifest, the owned artifacts, the fsyncs. */
  lemma RollbackListShape(d: Disk, w: Work)
    requires OnlyManifest(d, w)
    requires RecordOwned(d, w) <==> Entry(d, Record(w.id)) == Some(OwnRecord(w))
    requires SnapshotOwned(d, w) <==> Entry(d, Snapshot(w.id)) == Some(OwnSnapshot(w))
    ensures RollingOk(d, w, RollbackList(d, w))
  {
    RollbackMembers(d, w);
    RollbackOrder(d, w);
  }

  lemma RollbackMembers(d: Disk, w: Work)
    ensures forall x :: x in RollbackList(d, w) <==>
              || x == Remove(RecordTemp(w.id, w.nonce)) || x == Remove(SnapshotTemp(w.id, w.nonce))
                  || x == Remove(Manifest(w.id, w.nonce))
              || (RecordOwned(d, w) && x == Remove(Record(w.id)))
                  || (SnapshotOwned(d, w) && x == Remove(Snapshot(w.id)))
              || x == Sync(RecordsDir) || x == Sync(SnapshotsDir)
  {
    var a := [Remove(RecordTemp(w.id, w.nonce)), Remove(SnapshotTemp(w.id, w.nonce)), Remove(Manifest(w.id, w.nonce))];
    assert a[0] in a && a[1] in a && a[2] in a;
  }

  lemma RollbackOrder(d: Disk, w: Work)
    ensures Distinct(RollbackList(d, w)) && TempsFirst(RollbackList(d, w))
  {
  }

  // ---------------------------------------------------------------- staging, one statement at a time

  lemma StageKeepsNames(s: State, c: Call, w: Work, at: Point)
    requires DiskOk(s) && StagingOk(s, c, w, at.Rank()) && Succeeds(s.disk, w, at)
    ensures DiskOk(s.(disk := StageDisk(s.disk, c, w, at)))
  {
    var d := s.disk;
    match at
    case MakeManifest => MakeFile(s, ManifestTemp(w.id, w.nonce), ManifestIno(w.id, w.nonce));
    case FillManifest => FillNames(d, ManifestIno(w.id, w.nonce), ManifestDoc(w.id, w.nonce));
    case RenameManifest =>
      var m, t, i := Manifest(w.id, w.nonce), ManifestTemp(w.id, w.nonce), ManifestIno(w.id, w.nonce);
      LinkNames(d, m, i);
      UnlinkNames(Link(d, m, i), t);
    case MakeSnapshot => MakeFile(s, SnapshotTemp(w.id, w.nonce), OwnSnapshot(w));
    case FillSnapshot => FillNames(d, OwnSnapshot(w), Artifact(SnapshotBytes(c)));
    case MakeRecord => MakeFile(s, RecordTemp(w.id, w.nonce), OwnRecord(w));
    case FillRecord => FillNames(d, OwnRecord(w), Artifact(RecordBytes(c)));
    case LinkSnapshot => LinkNames(d, Snapshot(w.id), OwnSnapshot(w));
    case LinkRecord => LinkNames(d, Record(w.id), OwnRecord(w));
    case DropSnapshotTemp => UnlinkNames(d, SnapshotTemp(w.id, w.nonce));
    case DropRecordTemp => UnlinkNames(d, RecordTemp(w.id, w.nonce));
    case SyncManifest | SyncSnapshot => FsyncNames(d, SnapshotsDir);
    case SyncRecord => FsyncNames(d, RecordsDir);
    case _ =>
  }

  lemma MakeFile(s: State, p: Path, i: Ino)
    requires DiskOk(s)
    requires !IsFinal(p) && !p.Manifest? && Fits(p, i)
    requires i !in s.disk.files && i.nonce in s.nonces
    ensures DiskOk(s.(disk := Fill(Link(s.disk, p, i), i, Torn)))
  {
    var d1 := Fill(s.disk, i, Torn);
    assert Fill(Link(s.disk, p, i), i, Torn) == Link(d1, p, i);
    assert i.ManifestIno? ==> NameOk(s.disk, Manifest(i.id, i.nonce));
    FillNames(s.disk, i, Torn);
    LinkNames(d1, p, i);
  }

  lemma StageKeepsPhase(s: State, c: Call, w: Work, at: Point)
    requires DiskOk(s) && StagingOk(s, c, w, at.Rank()) && Succeeds(s.disk, w, at) && at != Commit
    ensures StagingOk(s.(disk := StageDisk(s.disk, c, w, at)), c, StageWork(c, w, at), at.After().Rank())
  {
    var r := at.Rank();
    if r <= 3 { ManifestPoints(s, c, w, at); }
    else if r <= 5 { SnapshotTempPoints(s, c, w, at); }
    else if r <= 8 { RecordTempPoints(s, c, w, at); }
    else if r <= 12 { PublishSnapshotPoints(s, c, w, at); }
    else if r <= 16 { PublishRecordPoints(s, c, w, at); }
    else { RegistryPoints(s, c, w, at); }
  }

  lemma ManifestPoints(s: State, c: Call, w: Work, at: Point)
    requires DiskOk(s) && StagingOk(s, c, w, at.Rank()) && Succeeds(s.disk, w, at) && at.Rank() <= 3
    ensures StagingOk(s.(disk := StageDisk(s.disk, c, w, at)), c, StageWork(c, w, at), at.After().Rank())
  {
  }

  lemma SnapshotTempPoints(s: State, c: Call, w: Work, at: Point)
    requires DiskOk(s) && StagingOk(s, c, w, at.Rank()) && Succeeds(s.disk, w, at) && 4 <= at.Rank() <= 5
    ensures StagingOk(s.(disk := StageDisk(s.disk, c, w, at)), c, StageWork(c, w, at), at.After().Rank())
  {
  }

  lemma RecordTempPoints(s: State, c: Call, w: Work, at: Point)
    requires DiskOk(s) && StagingOk(s, c, w, at.Rank()) && Succeeds(s.disk, w, at) && 6 <= at.Rank() <= 8
    ensures StagingOk(s.(disk := StageDisk(s.disk, c, w, at)), c, StageWork(c, w, at), at.After().Rank())
  {
  }

  lemma PublishSnapshotPoints(s: State, c: Call, w: Work, at: Point)
    requires DiskOk(s) && StagingOk(s, c, w, at.Rank()) && Succeeds(s.disk, w, at) && 9 <= at.Rank() <= 12
    ensures StagingOk(s.(disk := StageDisk(s.disk, c, w, at)), c, StageWork(c, w, at), at.After().Rank())
  {
  }

  lemma PublishRecordPoints(s: State, c: Call, w: Work, at: Point)
    requires DiskOk(s) && StagingOk(s, c, w, at.Rank()) && Succeeds(s.disk, w, at) && 13 <= at.Rank() <= 16
    ensures StagingOk(s.(disk := StageDisk(s.disk, c, w, at)), c, StageWork(c, w, at), at.After().Rank())
  {
  }

  lemma RegistryPoints(s: State, c: Call, w: Work, at: Point)
    requires DiskOk(s) && StagingOk(s, c, w, at.Rank()) && Succeeds(s.disk, w, at) && 17 <= at.Rank() <= 18
    ensures StagingOk(s.(disk := StageDisk(s.disk, c, w, at)), c, StageWork(c, w, at), at.After().Rank())
  {
  }

  // ---------------------------------------------------------------- beginning and committing

  lemma BeginKeepsCore(s: State, nonce: Nonce, lossy: bool)
    requires Core(s) && Enabled(s, Begin(nonce), lossy)
    ensures Core(Do(s, Begin(nonce), lossy))
  {
    var c, s' := s.proc.call, Do(s, Begin(nonce), lossy);
    var w := s'.proc.phase.work;
    assert NameOk(s.disk, SnapshotTemp(w.id, nonce)) && NameOk(s.disk, RecordTemp(w.id, nonce));
    assert StagingOk(s', c, w, 0);
  }

  lemma AdvanceKeepsCore(s: State, lossy: bool)
    requires Core(s) && Enabled(s, Advance, lossy) && s.proc.phase.at != Commit
    ensures Core(Do(s, Advance, lossy))
  {
    var c, w, at := s.proc.call, s.proc.phase.work, s.proc.phase.at;
    StageKeepsNames(s, c, w, at);
    StageKeepsPhase(s, c, w, at);
    var d' := StageDisk(s.disk, c, w, at);
    var s' := Do(s, Advance, lossy);
    assert s' == In(s, Staging(StageWork(c, w, at), at.After())).(disk := d');
    assert StagingOk(s', c, StageWork(c, w, at), at.After().Rank());
  }

  /** Committing the transaction publishes exactly the submitted row. */
  lemma CommitPosts(s: State)
    requires Core(s) && s.proc.Busy? && s.proc.phase.Staging? && s.proc.phase.at == Commit
    ensures CommitTxn(s.book, s.proc.call, s.proc.phase.work) == Posted(s.book, s.proc.call)
  {
  }

  lemma FinalizeListOk(s: State, c: Call, w: Work)
    requires StagingOk(s, c, w, Commit.Rank())
    ensures FinalizingOk(s.disk, w, FinalizeList(w))
  {
    var todo := FinalizeList(w);
    assert todo[0] in todo && todo[1] in todo && todo[2] in todo;
  }

  lemma PostedKeepsCore(s: State, raised: bool)
    requires Core(s) && s.proc.Busy? && s.proc.phase.Staging? && s.proc.phase.at == Commit
    ensures var w := s.proc.phase.work;
            Core(In(s, Finalizing(w, FinalizeList(w), raised)).(book := Posted(s.book, s.proc.call)))
  {
    var w := s.proc.phase.work;
    CommitPosts(s);
    FinalizeListOk(s, s.proc.call, w);
    var s' := In(s, Finalizing(w, FinalizeList(w), raised)).(book := Posted(s.book, s.proc.call));
    assert PhaseOk(s', s'.proc.call, s'.proc.before, s'.proc.phase);
  }

  lemma CommitRaisedCases(s: State, readable: bool, lossy: bool)
    requires Core(s) && Enabled(s, CommitRaises(true, readable), lossy)
    ensures s.proc.call.Submit?
    ensures var w := s.proc.phase.work;
            var s2 := In(s, Finalizing(w, FinalizeList(w), true)).(book := Posted(s.book, s.proc.call));
            Do(s, CommitRaises(true, readable), lossy) == if readable then s2 else Release(s2, Failed(InternalError))
  {
    CommitPosts(s);
    assert IsCommitted(Posted(s.book, s.proc.call), s.proc.phase.work.id);
  }

  lemma CommitRaisedAfterPosting(s: State, readable: bool, lossy: bool)
    requires Core(s) && Enabled(s, CommitRaises(true, readable), lossy)
    ensures Core(Do(s, CommitRaises(true, readable), lossy))
  {
    var w := s.proc.phase.work;
    CommitRaisedCases(s, readable, lossy);
    PostedKeepsCore(s, true);
    FinalizingReleases(In(s, Finalizing(w, FinalizeList(w), true)).(book := Posted(s.book, s.proc.call)));
  }

  lemma FinalizingReleases(s: State)
    requires Core(s) && s.proc.Busy? && s.proc.phase.Finalizing?
    ensures Core(Release(s, Failed(InternalError)))
  {
    ReleaseKeepsCore(s, Failed(InternalError));
  }

  lemma CommitRaisedWithoutPosting(s: State, readable: bool, lossy: bool)
    requires Core(s) && Enabled(s, CommitRaises(false, readable), lossy)
    ensures Core(Do(s, CommitRaises(false, readable), lossy))
  {
    var w := s.proc.phase.work;
    assert !IsCommitted(s.book, w.id);
    assert Do(s, CommitRaises(false, readable), lossy) == AfterCommitRaised(s, w, if readable
           then Some(false) else None);
    if readable { RollingBackKeepsCore(s, InternalError); } else { ReleaseKeepsCore(s, Failed(InternalError)); }
  }

  lemma FinishKeepsCore(s: State, lossy: bool)
    requires Core(s) && Enabled(s, Finish, lossy)
    ensures Core(Do(s, Finish, lossy))
  {
    var ph := s.proc.phase;
    if ph.Finalizing? && !ph.raised {
      ReleaseKeepsCore(s, Receipt(ph.work.id, true));
    } else {
      ReleaseKeepsCore(s, Failed(if ph.RollingBack? then ph.code else InternalError));
    }
  }

  // ---------------------------------------------------------------- every step, every run

  lemma StepKeepsCore(s: State, step: Step, lossy: bool)
    requires Core(s) && Enabled(s, step, lossy)
    ensures Core(Do(s, step, lossy))
  {
    match step
    case Acquire(_) =>
    case SweepOne(p) => SweepKeepsCore(s, p, lossy);
    case SweepDone =>
    case PickManifest(p) =>
    case DoChore => ChoreKeepsCore(s, lossy);
    case RecoveryDone =>
    case Answers(a) => ReleaseKeepsCore(s, a);
    case Begin(nonce) => BeginKeepsCore(s, nonce, lossy);
    case Advance =>
      if s.proc.phase.at == Commit { CommitPosts(s); PostedKeepsCore(s, false); } else { AdvanceKeepsCore(s, lossy); }
    case Raise(code) => RaiseKeepsCore(s, code, lossy);
    case CommitRaises(applied, readable) =>
      if applied { CommitRaisedAfterPosting(s, readable, lossy);
          } else { CommitRaisedWithoutPosting(s, readable, lossy); }
    case Finish => FinishKeepsCore(s, lossy);
    case Crash(d) => CrashKeepsCore(s, d, lossy);
    case ForeignFile(p, n, bytes) => ForeignKeepsCore(s, p, n, bytes, lossy);
  }

  lemma {:induction false} RunKeepsCore(s: State, steps: seq<Step>, lossy: bool)
    requires Core(s) && Legal(s, steps, lossy)
    ensures Core(Exec(s, steps, lossy))
    decreases |steps|
  {
    if steps != [] {
      StepKeepsCore(s, steps[0], lossy);
      RunKeepsCore(Do(s, steps[0], lossy), steps[1..], lossy);
    }
  }
}
