/**
 `LedgerWriter` and `StagedWrite` as objects that update the disk statement by statement. Each method
 is proved against the functions the commit protocol's steps are made of; recovery, whose order is
 free, also yields the run of the step machine it took.
 */
module LedgerWriterModel {
  import opened Basics
  import opened VaultDisk
  import opened LedgerBook
  import opened CommitProtocol
  import opened WriterScript
  import opened WriterRefinement

  /** Where an exception is raised, if anywhere, and how a failing commit or cleanup turned out. */
  datatype Faults = Faults(at: Option<Point>, code: ErrorCode, commitApplied: bool, registryReadable: bool,
      cleanup: Option<nat>)

  /** The names one recovery pass removes: manifest temps, manifests, and what each manifest lists. */
  ghost predicate Swept(d: Disk, b: Book, p: Path) {
    match p
    case ManifestTemp(_, _) => true
    case Manifest(_, _) => true
    case RecordTemp(id, n) => Manifest(id, n) in d.live
    case SnapshotTemp(id, n) => Manifest(id, n) in d.live
    case Record(id) => !IsCommitted(b, id) && exists n: Nonce :: Manifest(id, n) in d.live
    case Snapshot(id) => !IsCommitted(b, id) && exists n: Nonce :: Manifest(id, n) in d.live
  }

  /** Every file the glob finds is a manifest that says what its own name says. */
  ghost predicate ManifestsWhole(d: Disk) {
    forall p :: p in d.live && Globbed(p) ==>
      p.Manifest? && d.live[p] in d.files && d.files[d.live[p]] == ManifestDoc(p.id, p.nonce)
  }

  /** Names only go. */
  predicate Fewer(d: Disk, d': Disk) {
    d'.files == d.files && forall p :: p in d'.live ==> p in d.live && d'.live[p] == d.live[p]
  }

  class LedgerWriter {
    var disk: Disk
    var book: Book
    const reader: Reader

    constructor (reader: Reader)
      ensures disk == EMPTY_DISK && book == EMPTY_BOOK && this.reader == reader
    {
      disk, book, this.reader := EMPTY_DISK, EMPTY_BOOK, reader;
    }

    /** `_remove_paths` followed by the fsyncs of the list; one entry may raise. */
    method Chores(todo: seq<Chore>, raises: Option<nat>) returns (ok: bool)
      modifies this`disk
      ensures ok <==> !Breaks(todo, raises)
      ensures disk == PerformAll(old(disk), Cut(todo, raises))
    {
      ghost var goal := Cut(todo, raises);
      var n := 0;
      while n < |todo| && raises != Some(n)
        invariant 0 <= n <= |goal| && PerformAll(disk, goal[n..]) == PerformAll(old(disk), goal)
        invariant raises.Some? && raises.value < |todo| ==> n <= raises.value
        decreases |todo| - n
      {
        assert goal[n] == todo[n] && goal[n..][1..] == goal[n + 1..];
        match todo[n] {
          case Remove(p) => disk := Unlink(disk, p);
          case Sync(dir) => disk := Fsync(disk, dir);
        }
        n := n + 1;
      }
      return n == |todo|;
    }

    /** `_remove_paths(*glob(".txn-*.manifest-tmp"))` */
    method SweepManifestTemps(ghost s: State, ghost lossy: bool)
      requires s.proc.Busy? && s.proc.phase == Sweeping && s.disk == disk
      modifies this`disk
      ensures Fewer(old(disk), disk)
      ensures forall p :: p in disk.live <==> p in old(disk).live && !p.ManifestTemp?
      ensures Reaches(s, In(s, Recovering([])).(disk := disk), lossy)
    {
      ReachesSelf(s, lossy);
      var temps := set p | p in disk.live && p.ManifestTemp?;
      while temps != {}
        invariant Fewer(old(disk), disk)
        invariant forall p :: p in temps <==> p in disk.live && p.ManifestTemp?
        invariant forall p :: p in old(disk).live && !p.ManifestTemp? ==> p in disk.live
        invariant Reaches(s, s.(disk := disk), lossy)
        decreases |temps|
      {
        var p :| p in temps;
        ReachesNext(s, s.(disk := disk), SweepOne(p), lossy);
        disk := Unlink(disk, p);
        temps := temps - {p};
      }
      ReachesNext(s, s.(disk := disk), SweepDone, lossy);
    }

    /** One file of the recovery loop; a missing or unreadable one raises. */
    method RecoverOne(m: Path, ghost s: State, ghost lossy: bool) returns (ok: bool)
      requires Globbed(m) && s.proc.Busy? && s.proc.phase == Recovering([]) && s.disk == disk && s.book == book
               && s.reader == reader
      modifies this`disk
      ensures ok <==> DocAt(old(disk), reader, m).Some? && Readable(book, DocAt(old(disk), reader, m).value)
      ensures disk == if ok
              then PerformAll(old(disk), DocList(book, DocAt(old(disk), reader, m).value, m)) else old(disk)
      // what the document says decides: a file that lists no artifacts will do for a committed prediction
      ensures ok <==> DocAt(old(disk), reader, m).Some?
                      && (IsCommitted(book, DocAt(old(disk), reader, m).value.id)
                          || DocAt(old(disk), reader, m).value.finals.Some?)
      ensures ok ==> forall p :: p in disk.live <==>
                p in old(disk).live && !Names(book, DocAt(old(disk), reader, m).value, m, p)
      ensures Reaches(s, s.(disk := disk), lossy)
    {
      ReachesSelf(s, lossy);
      var doc := DocAt(disk, reader, m);
      if doc.None? || !Readable(book, doc.value) { return false; }
      var paths := DocList(book, doc.value, m);
      ReachesStep(s, PickManifest(m), lossy);
      ghost var s1 := Do(s, PickManifest(m), lossy);
      ChoresAreARun(s1, |paths|, lossy);
      assert paths[..|paths|] == paths && paths[|paths|..] == [];
      ReachesOn(s, s1, AfterChores(s1, |paths|), lossy);
      PerformAllRemoves(disk, paths);
      DocListMeans(book, doc.value, m);
      ok := Chores(paths, None);
    }

    /** The loop of recovery over what the glob found; it stops at the first file that cannot be read. */
    method RecoverEach(ghost s: State, ghost lossy: bool) returns (ok: bool, ghost done: set<Path>)
      requires s.proc.Busy? && s.proc.phase == Recovering([]) && s.disk == disk && s.book == book && s.reader == reader
      modifies this`disk
      ensures Fewer(old(disk), disk) && Reaches(s, s.(disk := disk), lossy)
      ensures ok ==> forall p :: p in disk.live ==> !Globbed(p)
      ensures ManifestsWhole(old(disk)) ==> ok && Progress(old(disk), disk, book, done)
      ensures ok ==> forall p :: p in done <==> p in old(disk).live && Globbed(p)
    {
      ReachesSelf(s, lossy);
      var todo := set p | p in disk.live && Globbed(p);
      done := {};
      ghost var whole := ManifestsWhole(disk);
      while todo != {}
        invariant Fewer(old(disk), disk) && done !! todo
        invariant forall p :: p in done || p in todo <==> p in old(disk).live && Globbed(p)
        invariant forall p :: p in disk.live && Globbed(p) ==> p in todo
        invariant whole ==> Progress(old(disk), disk, book, done)
        invariant Reaches(s, s.(disk := disk), lossy)
        decreases |todo|
      {
        var m :| m in todo;
        ghost var d := disk;
        var one := RecoverOne(m, s.(disk := disk), lossy);
        if whole { WholeProgress(old(disk), old(disk), d, book, reader, done, m); }
        ReachesOn(s, s.(disk := d), s.(disk := disk), lossy);
        if !one { return false, done; }
        ListTakesAway(d, book, DocAt(d, reader, m).value, m);
        todo := todo - {m};
        done := done + {m};
      }
      return true, done;
    }

    /** `recover_unfinished_transactions_locked`: every file the glob finds is read as a manifest. */
    method Recover(ghost s: State, ghost lossy: bool) returns (ok: bool)
      requires s.proc.Busy? && s.proc.phase == Sweeping && s.disk == disk && s.book == book && s.reader == reader
      modifies this`disk
      ensures Fewer(old(disk), disk)
      ensures ok ==> forall p :: p in disk.live ==> !Globbed(p) && !p.ManifestTemp?
      ensures ManifestsWhole(old(disk)) ==> ok && forall p :: p in disk.live <==>
                p in old(disk).live && !Swept(old(disk), book, p)
      ensures Reaches(s, In(s, if ok then Ready else Recovering([])).(disk := disk), lossy)
    {
      SweepManifestTemps(s, lossy);
      ghost var d1 := disk;
      ghost var t := In(s, Recovering([])).(disk := disk);
      ghost var done;
      ok, done := RecoverEach(t, lossy);
      ReachesOn(s, t, t.(disk := disk), lossy);
      if ManifestsWhole(old(disk)) { ProgressDone(old(disk), d1, disk, book, done); }
      if ok { ReachesNext(s, t.(disk := disk), RecoveryDone, lossy); }
    }
  }

  /** The document has the name removed: itself, a temporary, or an artifact of an uncommitted prediction. */
  predicate Names(b: Book, doc: Doc, m: Path, p: Path) {
    || p == m || doc.recordTemp == Some(p) || doc.snapshotTemp == Some(p)
    || (!IsCommitted(b, doc.id) && doc.finals.Some? && (doc.finals.value.0 == Some(p) || doc.finals.value.1 == Some(p)))
  }

  lemma DocListMeans(b: Book, doc: Doc, m: Path)
    requires Readable(b, doc)
    ensures forall p :: Remove(p) in DocList(b, doc, m) <==> Names(b, doc, m, p)
  {
  }

  /** A document's list takes names away, its own file among them. */
  lemma ListTakesAway(d: Disk, b: Book, doc: Doc, m: Path)
    requires Readable(b, doc)
    ensures Fewer(d, PerformAll(d, DocList(b, doc, m))) && m !in PerformAll(d, DocList(b, doc, m)).live
  {
    PerformAllRemoves(d, DocList(b, doc, m));
    assert DocList(b, doc, m)[|DocList(b, doc, m)| - 1] == Remove(m);
  }

  lemma WholeProgress(d0: Disk, d1: Disk, d: Disk, b: Book, reader: Reader, done: set<Path>, m: Path)
    requires ManifestsWhole(d0) && Fewer(d0, d1) && Fewer(d1, d) && Progress(d1, d, b, done)
    requires m in d1.live && Globbed(m) && m !in done
    ensures DocAt(d, reader, m).Some? && Readable(b, DocAt(d, reader, m).value)
    ensures Progress(d1, PerformAll(d, DocList(b, DocAt(d, reader, m).value, m)), b, done + {m})
  {
    WholeIsRead(d0, d1, d, b, reader, done, m);
    ProgressOne(d1, d, PerformAll(d, DocList(b, OwnDoc(m.id, m.nonce), m)), b, done, m);
  }

  /** Where every manifest is whole, the next one is read, and it removes itself and what it lists. */
  lemma WholeIsRead(d0: Disk, d1: Disk, d: Disk, b: Book, reader: Reader, done: set<Path>, m: Path)
    requires ManifestsWhole(d0) && Fewer(d0, d1) && Fewer(d1, d) && Progress(d1, d, b, done)
    requires m in d1.live && Globbed(m) && m !in done
    ensures m.Manifest? && DocAt(d, reader, m) == Some(OwnDoc(m.id, m.nonce)) && Readable(b, OwnDoc(m.id, m.nonce))
    ensures forall p :: p in PerformAll(d, DocList(b, OwnDoc(m.id, m.nonce), m)).live <==>
              p in d.live && p != m && !Listed(b, {m}, p)
  {
    assert m.Manifest? && !Listed(b, done, m);
    OwnDocList(b, m.id, m.nonce, m);
    PerformAllRemoves(d, RecoveryList(b, m.id, m.nonce, m));
    forall p ensures Remove(p) in RecoveryList(b, m.id, m.nonce, m) <==>
          p == m || Listed(b, {m}, p) { ListedByOne(b, m, p); }
  }

  /** Exactly the manifests done so far, and what they list, are gone. */
  ghost predicate Progress(d1: Disk, d: Disk, b: Book, done: set<Path>) {
    forall p :: p in d.live <==> p in d1.live && p !in done && !Listed(b, done, p)
  }

  lemma ProgressOne(d1: Disk, d: Disk, d': Disk, b: Book, done: set<Path>, m: Path)
    requires Progress(d1, d, b, done)
    requires forall p :: p in d'.live <==> p in d.live && p != m && !Listed(b, {m}, p)
    ensures Progress(d1, d', b, done + {m})
  {
    forall p ensures Listed(b, done + {m}, p) <==>
          Listed(b, done, p) || Listed(b, {m}, p) { ListedUnion(b, done, m, p); }
  }

  lemma ProgressDone(d0: Disk, d1: Disk, d: Disk, b: Book, done: set<Path>)
    requires forall p :: p in d1.live <==> p in d0.live && !p.ManifestTemp?
    requires ManifestsWhole(d0) && forall p :: p in done <==> p in d1.live && Globbed(p)
    requires Progress(d1, d, b, done)
    ensures forall p :: p in d.live <==> p in d0.live && !Swept(d0, b, p)
  {
    forall p ensures p in d0.live ==> (Swept(d0, b, p) <==> p.ManifestTemp? || p in done || Listed(b, done, p)) {
      if p in d0.live { SweptIffListed(d0, b, done, p); }
    }
  }

  lemma ListedByOne(b: Book, m: Path, p: Path)
    requires m.Manifest?
    ensures Remove(p) in RecoveryList(b, m.id, m.nonce, m) <==> p == m || Listed(b, {m}, p)
  {
    assert Manifest(m.id, m.nonce) in {m};
    if (p.Record? || p.Snapshot?) && p.id != m.id {
      assert forall n: Nonce :: Manifest(p.id, n) !in {m};
    }
  }

  lemma ListedUnion(b: Book, done: set<Path>, m: Path, p: Path)
    ensures Listed(b, done + {m}, p) <==> Listed(b, done, p) || Listed(b, {m}, p)
  {
    if p.Record? || p.Snapshot? {
      if n: Nonce :| Manifest(p.id, n) in done { assert Manifest(p.id, n) in done + {m}; }
      if n: Nonce :| Manifest(p.id, n) in {m} { assert Manifest(p.id, n) in done + {m}; }
      if n: Nonce :| Manifest(p.id, n) in done + {m} { assert Manifest(p.id, n) in done || Manifest(p.id, n) in {m}; }
    }
  }

  /** Listed by one of these manifests. */
  ghost predicate Listed(b: Book, done: set<Path>, p: Path) {
    match p
    case RecordTemp(id, n) => Manifest(id, n) in done
    case SnapshotTemp(id, n) => Manifest(id, n) in done
    case Record(id) => !IsCommitted(b, id) && exists n: Nonce :: Manifest(id, n) in done
    case Snapshot(id) => !IsCommitted(b, id) && exists n: Nonce :: Manifest(id, n) in done
    case _ => false
  }

  lemma SweptIffListed(d: Disk, b: Book, done: set<Path>, p: Path)
    requires forall q :: q in done <==> q in d.live && q.Manifest?
    requires p in d.live
    ensures Swept(d, b, p) <==> p.ManifestTemp? || p in done || Listed(b, done, p)
  {
    forall id: PredictionId, n: Nonce ensures Manifest(id, n) in done <==> Manifest(id, n) in d.live { }
  }

  class StagedWrite {
    const writer: LedgerWriter
    const call: Call
    const id: PredictionId
    const nonce: Nonce
    var recordPublished: bool
    var snapshotPublished: bool
    var row: Option<Row>
    var keyed: bool
    var finished: bool

    constructor (writer: LedgerWriter, call: Call, nonce: Nonce)
      requires call.Submit?
      ensures this.writer == writer && this.call == call && this.id == call.id && this.nonce == nonce
      ensures AsWork() == Work(call.id, nonce, false, false, None, false) && !finished
    {
      this.writer, this.call, this.id, this.nonce := writer, call, call.id, nonce;
      recordPublished, snapshotPublished, row, keyed, finished := false, false, None, false, false;
    }

    function AsWork(): Work
      reads this
    {
      Work(id, nonce, recordPublished, snapshotPublished, row, keyed)
    }

    /** `finalize`; it may raise part of the way. */
    method Finalize(raises: Option<nat>) returns (ok: bool)
      modifies this`finished, writer`disk
      ensures ok <==> old(finished) || !Breaks(FinalizeList(AsWork()), raises)
      ensures finished == ok
      ensures writer.disk == if old(finished) then old(writer.disk) else PerformAll(old(writer.disk),
              Cut(FinalizeList(AsWork()), raises))
    {
      if finished { return true; }
      ok := writer.Chores([Remove(RecordTemp(id, nonce)), Remove(SnapshotTemp(id, nonce)), Remove(Manifest(id, nonce)),
                           Sync(RecordsDir), Sync(SnapshotsDir)], raises);
      finished := ok;
    }

    /** `rollback`: only artifacts proven to belong to this write. */
    method Rollback(raises: Option<nat>) returns (ok: bool)
      modifies this`finished, writer`disk
      ensures ok <==> old(finished) || !Breaks(RollbackList(old(writer.disk), AsWork()), raises)
      ensures finished == ok
      ensures writer.disk == if old(finished) then old(writer.disk)
                             else PerformAll(old(writer.disk), Cut(RollbackList(old(writer.disk), AsWork()), raises))
    {
      if finished { return true; }
      var d := writer.disk;
      var recordOwned := recordPublished || SameInode(d, RecordTemp(id, nonce), Record(id));
      var snapshotOwned := snapshotPublished || SameInode(d, SnapshotTemp(id, nonce), Snapshot(id));
      var cleanup := [Remove(RecordTemp(id, nonce)), Remove(SnapshotTemp(id, nonce)), Remove(Manifest(id, nonce))];
      if recordOwned { cleanup := cleanup + [Remove(Record(id))]; }
      if snapshotOwned { cleanup := cleanup + [Remove(Snapshot(id))]; }
      cleanup := cleanup + [Sync(RecordsDir), Sync(SnapshotsDir)];
      assert cleanup == RollbackList(d, AsWork());
      ok := writer.Chores(cleanup, raises);
      finished := ok;
    }

    /** One statement of `_stage_committed`, or the exception it raises. */
    method Statement(at: Point, faults: Faults) returns (ok: bool)
      requires call.Submit? && at != Commit
      modifies this`recordPublished, this`snapshotPublished, this`row, this`keyed, writer`disk
      ensures Now(ok) == Then(call, faults.at, old(Now(true)), at)
    {
      var d := writer.disk;
      if faults.at == Some(at) || !Succeeds(d, AsWork(), at) { return false; }
      match at {
        case MakeManifest =>
          writer.disk := Fill(Link(d, ManifestTemp(id, nonce), ManifestIno(id, nonce)), ManifestIno(id, nonce), Torn);
        case FillManifest => writer.disk := Fill(d, ManifestIno(id, nonce), ManifestDoc(id, nonce));
        case RenameManifest =>
          writer.disk := Unlink(Link(d, Manifest(id, nonce), ManifestIno(id, nonce)), ManifestTemp(id, nonce));
        case SyncManifest => writer.disk := Fsync(d, SnapshotsDir);
        case MakeSnapshot =>
          writer.disk := Fill(Link(d, SnapshotTemp(id, nonce), SnapshotIno(id, nonce)), SnapshotIno(id, nonce), Torn);
        case FillSnapshot => writer.disk := Fill(d, SnapshotIno(id, nonce), Artifact(call.snapshot));
        case MakeRecord =>
          writer.disk := Fill(Link(d, RecordTemp(id, nonce), RecordIno(id, nonce)), RecordIno(id, nonce), Torn);
        case FillRecord => writer.disk := Fill(d, RecordIno(id, nonce), Artifact(call.record));
        case InsertRows => row := Some(Row(InProgress, call.record, call.snapshot));
        case LinkSnapshot => writer.disk := Link(d, Snapshot(id), SnapshotIno(id, nonce));
        case MarkSnapshot => snapshotPublished := true;
        case DropSnapshotTemp => writer.disk := Unlink(d, SnapshotTemp(id, nonce));
        case SyncSnapshot => writer.disk := Fsync(d, SnapshotsDir);
        case LinkRecord => writer.disk := Link(d, Record(id), RecordIno(id, nonce));
        case MarkRecord => recordPublished := true;
        case DropRecordTemp => writer.disk := Unlink(d, RecordTemp(id, nonce));
        case SyncRecord => writer.disk := Fsync(d, RecordsDir);
        case MarkCommitted => if row.Some? { row := Some(row.value.(state := Committed)); }
        case BindKey => keyed := true;
      }
      return true;
    }

    function Now(ok: bool): Outcome
      reads this, writer
    {
      Outcome(writer.disk, AsWork(), ok)
    }

    /** The statement in its place, skipped once an earlier one has raised. */
    method Next(before: bool, at: Point, faults: Faults, ghost r: Outcome, ghost n: nat) returns (ok: bool)
      requires call.Submit? && at == PointOf(n) && at != Commit && Now(before) == Upto(call, faults.at, r, n)
      modifies this`recordPublished, this`snapshotPublished, this`row, this`keyed, writer`disk
      ensures Now(ok) == Upto(call, faults.at, r, n + 1)
    {
      if !before { return false; }
      ok := Statement(at, faults);
    }

    /** `_stage_committed`: the statements in order; the first exception rolls everything back. */
    method StageCommitted(faults: Faults) returns (ok: bool, cleaned: bool)
      requires call.Submit? && !finished
      modifies this, writer`disk
      ensures var r := Upto(call, faults.at, old(Now(true)), 18);
              var todo := RollbackList(r.disk, r.work);
              && ok == r.ok && AsWork() == r.work && finished == (!ok && cleaned)
              && (cleaned <==> ok || !Breaks(todo, faults.cleanup))
              && writer.disk == if ok then r.disk else PerformAll(r.disk, Cut(todo, faults.cleanup))
    {
      ghost var r := Now(true);
      ok := WriteManifest(true, faults, r);
      ok := WriteTemps(ok, faults, r);
      ok := PublishSnapshot(ok, faults, r);
      ok := PublishRecord(ok, faults, r);
      ok := Next(ok, MarkCommitted, faults, r, 17);
      cleaned := true;
      if !ok { cleaned := Rollback(faults.cleanup); }
    }

    /** `_atomic_manifest_write` */
    method WriteManifest(before: bool, faults: Faults, ghost r: Outcome) returns (ok: bool)
      requires call.Submit? && Now(before) == Upto(call, faults.at, r, 0)
      modifies this`recordPublished, this`snapshotPublished, this`row, this`keyed, writer`disk
      ensures Now(ok) == Upto(call, faults.at, r, 4)
    {
      ok := Next(before, MakeManifest, faults, r, 0);
      ok := Next(ok, FillManifest, faults, r, 1);
      ok := Next(ok, RenameManifest, faults, r, 2);
      ok := Next(ok, SyncManifest, faults, r, 3);
    }

    /** Both temporaries, then the pending rows. */
    method WriteTemps(before: bool, faults: Faults, ghost r: Outcome) returns (ok: bool)
      requires call.Submit? && Now(before) == Upto(call, faults.at, r, 4)
      modifies this`recordPublished, this`snapshotPublished, this`row, this`keyed, writer`disk
      ensures Now(ok) == Upto(call, faults.at, r, 9)
    {
      ok := Next(before, MakeSnapshot, faults, r, 4);
      ok := Next(ok, FillSnapshot, faults, r, 5);
      ok := Next(ok, MakeRecord, faults, r, 6);
      ok := Next(ok, FillRecord, faults, r, 7);
      ok := Next(ok, InsertRows, faults, r, 8);
    }

    /** `_publish_no_replace` of the snapshot. */
    method PublishSnapshot(before: bool, faults: Faults, ghost r: Outcome) returns (ok: bool)
      requires call.Submit? && Now(before) == Upto(call, faults.at, r, 9)
      modifies this`recordPublished, this`snapshotPublished, this`row, this`keyed, writer`disk
      ensures Now(ok) == Upto(call, faults.at, r, 13)
    {
      ok := Next(before, LinkSnapshot, faults, r, 9);
      ok := Next(ok, MarkSnapshot, faults, r, 10);
      ok := Next(ok, DropSnapshotTemp, faults, r, 11);
      ok := Next(ok, SyncSnapshot, faults, r, 12);
    }

    /** `_publish_no_replace` of the record. */
    method PublishRecord(before: bool, faults: Faults, ghost r: Outcome) returns (ok: bool)
      requires call.Submit? && Now(before) == Upto(call, faults.at, r, 13)
      modifies this`recordPublished, this`snapshotPublished, this`row, this`keyed, writer`disk
      ensures Now(ok) == Upto(call, faults.at, r, 17)
    {
      ok := Next(before, LinkRecord, faults, r, 13);
      ok := Next(ok, MarkRecord, faults, r, 14);
      ok := Next(ok, DropRecordTemp, faults, r, 15);
      ok := Next(ok, SyncRecord, faults, r, 16);
    }
  }
}
