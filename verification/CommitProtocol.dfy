/**
 One capture publishes two files in two directories and one registry row. This module is that
 protocol as a step machine: every statement that touches the disk or the registry is a step,
 every step may raise instead, the environment may create files at absent artifact names, and
 the lock holder may crash between any two steps, including inside rollback and recovery.
 */
module CommitProtocol {
  import opened Basics
  import opened VaultDisk
  import opened LedgerBook

  /** The next statement of `_stage_committed` and of its caller. */
  datatype Point =
    | MakeManifest | FillManifest | RenameManifest | SyncManifest
    | MakeSnapshot | FillSnapshot | MakeRecord | FillRecord
    | InsertRows
    | LinkSnapshot | MarkSnapshot | DropSnapshotTemp | SyncSnapshot
    | LinkRecord | MarkRecord | DropRecordTemp | SyncRecord
    | MarkCommitted | BindKey | Commit
  {
    function Rank(): nat {
      match this
      case MakeManifest => 0 case FillManifest => 1 case RenameManifest => 2 case SyncManifest => 3
      case MakeSnapshot => 4 case FillSnapshot => 5 case MakeRecord => 6 case FillRecord => 7
      case InsertRows => 8
      case LinkSnapshot => 9 case MarkSnapshot => 10 case DropSnapshotTemp => 11 case SyncSnapshot => 12
      case LinkRecord => 13 case MarkRecord => 14 case DropRecordTemp => 15 case SyncRecord => 16
      case MarkCommitted => 17 case BindKey => 18 case Commit => 19
    }

    function After(): Point {
      match this
      case MakeManifest => FillManifest case FillManifest => RenameManifest
      case RenameManifest => SyncManifest case SyncManifest => MakeSnapshot
      case MakeSnapshot => FillSnapshot case FillSnapshot => MakeRecord
      case MakeRecord => FillRecord case FillRecord => InsertRows
      case InsertRows => LinkSnapshot
      case LinkSnapshot => MarkSnapshot case MarkSnapshot => DropSnapshotTemp
      case DropSnapshotTemp => SyncSnapshot case SyncSnapshot => LinkRecord
      case LinkRecord => MarkRecord case MarkRecord => DropRecordTemp
      case DropRecordTemp => SyncRecord case SyncRecord => MarkCommitted
      case MarkCommitted => BindKey case BindKey => Commit case Commit => Commit
    }
  }

  /** One entry of a removal list: the arguments of `_remove_paths`, then the fsyncs. */
  datatype Chore = Remove(path: Path) | Sync(dir: Dir)

  /** `StagedWrite` with the open transaction it belongs to. */
  datatype Work = Work(id: PredictionId, nonce: Nonce, recordPublished: bool, snapshotPublished: bool,
      row: Option<Row>, keyed: bool)

  datatype Phase =
    | Sweeping
    | Recovering(todo: seq<Chore>)
    | Ready
    | Staging(work: Work, at: Point)
    | RollingBack(work: Work, todo: seq<Chore>, code: ErrorCode)
    | Finalizing(work: Work, todo: seq<Chore>, raised: bool)

  /** Whoever holds the process lock, and the book as it was when the lock was taken. */
  datatype Proc = Idle | Busy(call: Call, before: Book, phase: Phase)

  datatype Finished = Finished(call: Call, before: Book, after: Book, answer: Answer)

  datatype State = State(
    disk: Disk,
    book: Book,
    proc: Proc,
    reader: Reader,           // how artifact bytes read as a manifest; never changes
    nonces: set<Nonce>,       // every nonce ever drawn
    debris: set<Path>,        // artifacts an interrupted rollback had already uncovered
    log: seq<Finished>)

  function Initial(reader: Reader): State {
    State(EMPTY_DISK, EMPTY_BOOK, Idle, reader, {}, {}, [])
  }

  datatype Step =
    | Acquire(call: Call)
    | SweepOne(path: Path)
    | SweepDone
    | PickManifest(path: Path)
    | DoChore
    | RecoveryDone
    | Answers(answer: Answer)          // leaves `Ready` without staging
    | Begin(nonce: Nonce)
    | Advance
    | Raise(code: ErrorCode)           // an exception at the current statement
    | CommitRaises(applied: bool, readable: bool)
    | Finish
    | Crash(survivor: Disk)
    | ForeignFile(path: Path, serial: nat, bytes: Bytes)

  // ---------------------------------------------------------------- removal lists

  function OwnRecord(w: Work): Ino { RecordIno(w.id, w.nonce) }
  function OwnSnapshot(w: Work): Ino { SnapshotIno(w.id, w.nonce) }

  /** `finalize`: temps and manifest, then both directories. */
  function FinalizeList(w: Work): seq<Chore> {
    [Remove(RecordTemp(w.id, w.nonce)), Remove(SnapshotTemp(w.id, w.nonce)), Remove(Manifest(w.id, w.nonce)),
     Sync(RecordsDir), Sync(SnapshotsDir)]
  }

  /** `_paths_share_inode`. */
  predicate SameInode(d: Disk, p: Path, q: Path) {
    p in d.live && q in d.live && d.live[p] == d.live[q]
  }

  predicate RecordOwned(d: Disk, w: Work) {
    w.recordPublished || SameInode(d, RecordTemp(w.id, w.nonce), Record(w.id))
  }

  predicate SnapshotOwned(d: Disk, w: Work) {
    w.snapshotPublished || SameInode(d, SnapshotTemp(w.id, w.nonce), Snapshot(w.id))
  }

  /** `rollback`: temps, manifest, then the artifacts proven to be this write's, then the fsyncs. */
  function RollbackList(d: Disk, w: Work): seq<Chore> {
    [Remove(RecordTemp(w.id, w.nonce)), Remove(SnapshotTemp(w.id, w.nonce)), Remove(Manifest(w.id, w.nonce))]
    + (if RecordOwned(d, w) then [Remove(Record(w.id))] else [])
    + (if SnapshotOwned(d, w) then [Remove(Snapshot(w.id))] else [])
    + [Sync(RecordsDir), Sync(SnapshotsDir)]
  }

  function Removal(p: Option<Path>): seq<Chore> {
    if p.Some? then [Remove(p.value)] else []
  }

  /** The keys the loop needs are there: those of the artifacts only for an uncommitted prediction. */
  predicate Readable(b: Book, doc: Doc) {
    IsCommitted(b, doc.id) || doc.finals.Some?
  }

  /** Recovery's list for one document: artifacts are included without any ownership test. */
  function DocList(b: Book, doc: Doc, manifest: Path): seq<Chore>
    requires Readable(b, doc)
  {
    Removal(doc.recordTemp) + Removal(doc.snapshotTemp)
    + (if IsCommitted(b, doc.id) then [] else Removal(doc.finals.value.0) + Removal(doc.finals.value.1))
    + [Remove(manifest)]
  }

  /** The list of a manifest the writer wrote. */
  function RecoveryList(b: Book, id: PredictionId, nonce: Nonce, manifest: Path): seq<Chore> {
    [Remove(RecordTemp(id, nonce)), Remove(SnapshotTemp(id, nonce))]
    + (if IsCommitted(b, id) then [] else [Remove(Record(id)), Remove(Snapshot(id))])
    + [Remove(manifest)]
  }

  lemma OwnDocList(b: Book, id: PredictionId, nonce: Nonce, manifest: Path)
    ensures Readable(b, OwnDoc(id, nonce))
            && DocList(b, OwnDoc(id, nonce), manifest) == RecoveryList(b, id, nonce, manifest)
  {
  }

  /** The document behind a name the glob found. */
  function DocAt(d: Disk, reader: Reader, p: Path): Option<Doc> {
    if p in d.live && d.live[p] in d.files then ReadDoc(reader, d.files[d.live[p]]) else None
  }

  function Perform(d: Disk, c: Chore): Disk {
    match c
    case Remove(p) => Unlink(d, p)
    case Sync(dir) => Fsync(d, dir)
  }

  // ---------------------------------------------------------------- one statement of staging

  function SnapshotBytes(c: Call): Bytes { if c.Submit? then c.snapshot else [] }
  function RecordBytes(c: Call): Bytes { if c.Submit? then c.record else [] }

  /** Whether the statement can succeed; `os.link` and O_EXCL fail on an existing name. */
  predicate Succeeds(d: Disk, w: Work, at: Point) {
    match at
    case MakeManifest => ManifestTemp(w.id, w.nonce) !in d.live
    case MakeSnapshot => SnapshotTemp(w.id, w.nonce) !in d.live
    case MakeRecord => RecordTemp(w.id, w.nonce) !in d.live
    case LinkSnapshot => Snapshot(w.id) !in d.live
    case LinkRecord => Record(w.id) !in d.live
    case _ => true
  }

  function StageDisk(d: Disk, c: Call, w: Work, at: Point): Disk {
    match at
    case MakeManifest => Fill(Link(d, ManifestTemp(w.id, w.nonce), ManifestIno(w.id, w.nonce)),
        ManifestIno(w.id, w.nonce), Torn)
    case FillManifest => Fill(d, ManifestIno(w.id, w.nonce), ManifestDoc(w.id, w.nonce))
    case RenameManifest => Unlink(Link(d, Manifest(w.id, w.nonce), ManifestIno(w.id, w.nonce)),
        ManifestTemp(w.id, w.nonce))
    case SyncManifest => Fsync(d, SnapshotsDir)
    case MakeSnapshot => Fill(Link(d, SnapshotTemp(w.id, w.nonce), OwnSnapshot(w)), OwnSnapshot(w), Torn)
    case FillSnapshot => Fill(d, OwnSnapshot(w), Artifact(SnapshotBytes(c)))
    case MakeRecord => Fill(Link(d, RecordTemp(w.id, w.nonce), OwnRecord(w)), OwnRecord(w), Torn)
    case FillRecord => Fill(d, OwnRecord(w), Artifact(RecordBytes(c)))
    case LinkSnapshot => Link(d, Snapshot(w.id), OwnSnapshot(w))
    case DropSnapshotTemp => Unlink(d, SnapshotTemp(w.id, w.nonce))
    case SyncSnapshot => Fsync(d, SnapshotsDir)
    case LinkRecord => Link(d, Record(w.id), OwnRecord(w))
    case DropRecordTemp => Unlink(d, RecordTemp(w.id, w.nonce))
    case SyncRecord => Fsync(d, RecordsDir)
    case _ => d
  }

  function StageWork(c: Call, w: Work, at: Point): Work {
    match at
    case InsertRows => w.(row := Some(Row(InProgress, RecordBytes(c), SnapshotBytes(c))))
    case MarkSnapshot => w.(snapshotPublished := true)
    case MarkRecord => w.(recordPublished := true)
    case MarkCommitted => if w.row.Some? then w.(row := Some(w.row.value.(state := Committed))) else w
    case BindKey => w.(keyed := true)
    case _ => w
  }

  /** The pending transaction becomes the committed registry. */
  function CommitTxn(b: Book, c: Call, w: Work): Book {
    Book(if w.row.Some? then b.rows[w.id := w.row.value] else b.rows,
         if w.keyed && c.Submit? then BoundKeys(b, c) else b.keys)
  }

  // ---------------------------------------------------------------- the machine

  function Release(s: State, a: Answer): State {
    if s.proc.Busy? then
      s.(proc := Idle, log := s.log + [Finished(s.proc.call, s.proc.before, s.book, a)])
    else s
  }

  function In(s: State, ph: Phase): State
    requires s.proc.Busy?
  {
    s.(proc := s.proc.(phase := ph))
  }

  /** Artifacts left uncovered when the process stops: owned names a rollback still had to remove. */
  function Uncovered(s: State): set<Path> {
    if s.proc.Busy? && s.proc.phase.RollingBack? then
      var w := s.proc.phase.work;
      set p | p in {Record(w.id), Snapshot(w.id)} && Remove(p) in s.proc.phase.todo
          && Manifest(w.id, w.nonce) !in s.disk.live
    else {}
  }

  predicate PreCommit(ph: Phase) {
    ph.Sweeping? || ph.Recovering? || ph.Ready? || (ph.Staging? && ph.at != Commit)
  }

  /** The answers `Ready` may give: a replay, a conflict, or any check that fails before staging. */
  predicate MayAnswer(b: Book, d: Disk, c: Call, a: Answer) {
    match a
    case Receipt(id, created) =>
      !created && AlreadyPosted(b, c, id) && Record(id) in d.live && Snapshot(id) in d.live
    case Failed(_) => true
    case NoAnswer => c.Open?
  }

  /** Steps of the lock holder. */
  ghost predicate HolderMay(s: State, ph: Phase, step: Step)
    requires s.proc.Busy?
  {
    match step
    case SweepOne(p) => ph.Sweeping? && p.ManifestTemp? && p in s.disk.live
    case SweepDone => ph.Sweeping? && forall p :: p in s.disk.live ==> !p.ManifestTemp?
    case PickManifest(p) =>
      && ph == Recovering([]) && Globbed(p)
      && DocAt(s.disk, s.reader, p).Some? && Readable(s.book, DocAt(s.disk, s.reader, p).value)
    case DoChore => (ph.Recovering? || ph.RollingBack? || ph.Finalizing?) && ph.todo != []
    case RecoveryDone => ph == Recovering([]) && forall p :: p in s.disk.live ==> !Globbed(p)
    case Answers(a) => ph.Ready? && MayAnswer(s.book, s.disk, s.proc.call, a)
    case Begin(nonce) =>
      && ph.Ready? && Postable(s.book, s.proc.call) && nonce !in s.nonces
      && Record(s.proc.call.id) !in s.disk.live && Snapshot(s.proc.call.id) !in s.disk.live
    case Advance => ph.Staging? && Succeeds(s.disk, ph.work, ph.at)
    case Raise(_) => !ph.Ready? && (ph.Staging? ==> ph.at != BindKey && ph.at != Commit)
    case CommitRaises(applied, _) => ph.Staging? && (ph.at == Commit || (ph.at == BindKey && !applied))
    case Finish => (ph.RollingBack? || ph.Finalizing?) && ph.todo == []
    case _ => false
  }

  ghost predicate Enabled(s: State, step: Step, lossy: bool) {
    if step.Acquire? then s.proc.Idle?
    else if step.ForeignFile? then
      IsFinal(step.path) && step.path !in s.disk.live && ForeignIno(step.serial) !in s.disk.files
    else if step.Crash? then Survives(s.disk, step.survivor, lossy)
    else s.proc.Busy? && HolderMay(s, s.proc.phase, step)
  }

  function Start(c: Call, nonce: Nonce): Phase
    requires c.Submit?
  {
    Staging(Work(c.id, nonce, false, false, None, false), MakeManifest)
  }

  /** `except BaseException` around the commit: look at the registry, then finalize, roll back or give up. */
  function AfterCommitRaised(s: State, w: Work, seen: Option<bool>): State
    requires s.proc.Busy?
  {
    match seen
    case Some(true) => In(s, Finalizing(w, FinalizeList(w), true))
    case Some(false) => In(s, RollingBack(w, RollbackList(s.disk, w), InternalError))
    case None => Release(s, Failed(InternalError))
  }

  function ChoreDone(ph: Phase): Phase
    requires (ph.Recovering? || ph.RollingBack? || ph.Finalizing?) && ph.todo != []
  {
    ph.(todo := ph.todo[1..])
  }

  ghost function Do(s: State, step: Step, lossy: bool): State
    requires Enabled(s, step, lossy)
  {
    match step
    case Acquire(c) => s.(proc := Busy(c, s.book, Sweeping))
    case SweepOne(p) => s.(disk := Unlink(s.disk, p))
    case SweepDone => In(s, Recovering([]))
    case PickManifest(p) =>
      In(s, Recovering(DocList(s.book, DocAt(s.disk, s.reader, p).value, p)))
    case DoChore =>
      In(s, ChoreDone(s.proc.phase)).(disk := Perform(s.disk, s.proc.phase.todo[0]))
    case RecoveryDone => In(s, Ready)
    case Answers(a) => Release(s, a)
    case Begin(nonce) => In(s, Start(s.proc.call, nonce)).(nonces := s.nonces + {nonce})
    case Advance =>
      var w, at := s.proc.phase.work, s.proc.phase.at;
      if at == Commit then
        In(s, Finalizing(w, FinalizeList(w), false)).(book := CommitTxn(s.book, s.proc.call, w))
      else
        In(s, Staging(StageWork(s.proc.call, w, at), at.After())).(disk := StageDisk(s.disk, s.proc.call, w, at))
    case Raise(code) =>
      if s.proc.phase.Staging? then
        In(s, RollingBack(s.proc.phase.work, RollbackList(s.disk, s.proc.phase.work), code))
      else
        Release(s, Failed(if PreCommit(s.proc.phase) then code else InternalError)).(debris := s.debris + Uncovered(s))
    case CommitRaises(applied, readable) =>
      var w := s.proc.phase.work;
      var s1 := if applied then s.(book := CommitTxn(s.book, s.proc.call, w)) else s;
      AfterCommitRaised(s1, w, if readable then Some(IsCommitted(s1.book, w.id)) else None)
    case Finish =>
      if s.proc.phase.Finalizing? && !s.proc.phase.raised then Release(s, Receipt(s.proc.phase.work.id, true))
      else Release(s, Failed(if s.proc.phase.RollingBack? then s.proc.phase.code else InternalError))
    case Crash(d) => Release(s, NoAnswer).(disk := d, debris := s.debris + Uncovered(s))
    case ForeignFile(p, n, bytes) =>
      s.(disk := Fill(Link(s.disk, p, ForeignIno(n)), ForeignIno(n), Artifact(bytes)))
  }

  /** A run: each step enabled where it is taken. */
  ghost predicate Legal(s: State, steps: seq<Step>, lossy: bool)
    decreases |steps|
  {
    steps == [] || (Enabled(s, steps[0], lossy) && Legal(Do(s, steps[0], lossy), steps[1..], lossy))
  }

  ghost function Exec(s: State, steps: seq<Step>, lossy: bool): State
    requires Legal(s, steps, lossy)
    decreases |steps|
  {
    if steps == [] then s else Exec(Do(s, steps[0], lossy), steps[1..], lossy)
  }

  lemma {:induction false} LegalAppend(s: State, steps: seq<Step>, step: Step, lossy: bool)
    requires Legal(s, steps, lossy) && Enabled(Exec(s, steps, lossy), step, lossy)
    ensures Legal(s, steps + [step], lossy)
    ensures Exec(s, steps + [step], lossy) == Do(Exec(s, steps, lossy), step, lossy)
    decreases |steps|
  {
    if steps == [] {
      assert [step][1..] == [];
      assert [] + [step] == [step];
    } else {
      LegalAppend(Do(s, steps[0], lossy), steps[1..], step, lossy);
      assert (steps + [step])[1..] == steps[1..] + [step];
    }
  }

  lemma {:induction false} LegalConcat(s: State, a: seq<Step>, b: seq<Step>, lossy: bool)
    requires Legal(s, a, lossy) && Legal(Exec(s, a, lossy), b, lossy)
    ensures Legal(s, a + b, lossy) && Exec(s, a + b, lossy) == Exec(Exec(s, a, lossy), b, lossy)
    decreases |a|
  {
    if a == [] {
      assert a + b == b;
    } else {
      LegalConcat(Do(s, a[0], lossy), a[1..], b, lossy);
      assert (a + b)[1..] == a[1..] + b;
    }
  }
}
