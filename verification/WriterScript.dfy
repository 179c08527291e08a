/**
 The writer's straight-line code as functions: what a list of removals does, and what the first
 statements of a staging do to the disk, to the write's own flags and to the open transaction.
 */
module WriterScript {
  import opened Basics
  import opened VaultDisk
  import opened LedgerBook
  import opened CommitProtocol

  // ---------------------------------------------------------------- whole removal lists

  function PerformAll(d: Disk, todo: seq<Chore>): Disk
    decreases |todo|
  {
    if todo == [] then d else PerformAll(Perform(d, todo[0]), todo[1..])
  }

  /** A removal list takes away exactly the names on it. */
  lemma {:induction false} PerformAllRemoves(d: Disk, todo: seq<Chore>)
    ensures PerformAll(d, todo).files == d.files
    ensures forall p :: p in PerformAll(d, todo).live <==> p in d.live && Remove(p) !in todo
    ensures forall p :: p in PerformAll(d, todo).live ==> PerformAll(d, todo).live[p] == d.live[p]
    decreases |todo|
  {
    if todo != [] {
      PerformAllRemoves(Perform(d, todo[0]), todo[1..]);
      assert todo == [todo[0]] + todo[1..];
    }
  }

  /** A removal list of which one entry raises: the entries before it are carried out. */
  function Cut(todo: seq<Chore>, raises: Option<nat>): seq<Chore> {
    if Breaks(todo, raises) then todo[..raises.value] else todo
  }

  predicate Breaks(todo: seq<Chore>, raises: Option<nat>) {
    raises.Some? && raises.value < |todo|
  }

  // ---------------------------------------------------------------- the statements of one staging

  /** Where staging stands: the disk, the write's own flags, and whether no statement has raised yet. */
  datatype Outcome = Outcome(disk: Disk, work: Work, ok: bool)

  function PointOf(n: nat): Point {
    match n
    case 0 => MakeManifest case 1 => FillManifest case 2 => RenameManifest case 3 => SyncManifest
    case 4 => MakeSnapshot case 5 => FillSnapshot case 6 => MakeRecord case 7 => FillRecord
    case 8 => InsertRows
    case 9 => LinkSnapshot case 10 => MarkSnapshot case 11 => DropSnapshotTemp case 12 => SyncSnapshot
    case 13 => LinkRecord case 14 => MarkRecord case 15 => DropRecordTemp case 16 => SyncRecord
    case 17 => MarkCommitted case 18 => BindKey case _ => Commit
  }

  /** One more statement, unless one has raised; a fault may raise it, and so may the disk. */
  function Then(c: Call, fault: Option<Point>, r: Outcome, at: Point): Outcome {
    if !r.ok || fault == Some(at) || !Succeeds(r.disk, r.work, at) then r.(ok := false)
    else Outcome(StageDisk(r.disk, c, r.work, at), StageWork(c, r.work, at), true)
  }

  /** The first `n` statements of a staging. */
  function Upto(c: Call, fault: Option<Point>, r: Outcome, n: nat): Outcome {
    if n == 0 then r else Then(c, fault, Upto(c, fault, r, n - 1), PointOf(n - 1))
  }

  /** The flags and the open transaction before the statement of rank `n`. */
  function WorkAt(c: Call, nonce: Nonce, n: nat): Work
    requires c.Submit?
  {
    Work(c.id, nonce, 15 <= n, 11 <= n,
         if n <= 8 then None else Some(Row(if 18 <= n then Committed else InProgress, c.record, c.snapshot)), 19 <= n)
  }

  lemma WorkAdvances(c: Call, nonce: Nonce, n: nat)
    requires c.Submit? && n < 19
    ensures StageWork(c, WorkAt(c, nonce, n), PointOf(n)) == WorkAt(c, nonce, n + 1)
  {
  }

  /** The flags after any number of statements that did not raise. */
  lemma {:induction false} WorkUpto(c: Call, fault: Option<Point>, d: Disk, nonce: Nonce, n: nat)
    requires c.Submit? && n <= 19
    ensures var r := Upto(c, fault, Outcome(d, WorkAt(c, nonce, 0), true), n);
            r.ok ==> r.work == WorkAt(c, nonce, n)
  {
    if n > 0 {
      WorkUpto(c, fault, d, nonce, n - 1);
      WorkAdvances(c, nonce, n - 1);
    }
  }

  /** The names a staging creates are free. */
  predicate NamesFree(d: Disk, id: PredictionId, nonce: Nonce) {
    && ManifestTemp(id, nonce) !in d.live && SnapshotTemp(id, nonce) !in d.live && RecordTemp(id, nonce) !in d.live
    && Snapshot(id) !in d.live && Record(id) !in d.live
  }

  /** The names not yet created before the statement of rank `n` are still free. */
  predicate FreeAt(d: Disk, id: PredictionId, nonce: Nonce, n: nat) {
    && (n == 0 ==> ManifestTemp(id, nonce) !in d.live) && (n <= 4 ==> SnapshotTemp(id, nonce) !in d.live)
    && (n <= 6 ==> RecordTemp(id, nonce) !in d.live) && (n <= 9 ==> Snapshot(id) !in d.live)
    && (n <= 13 ==> Record(id) !in d.live)
  }

  lemma FreeAdvances(d: Disk, c: Call, nonce: Nonce, n: nat)
    requires c.Submit? && n < 19 && FreeAt(d, c.id, nonce, n)
    ensures Succeeds(d, WorkAt(c, nonce, n), PointOf(n))
    ensures FreeAt(StageDisk(d, c, WorkAt(c, nonce, n), PointOf(n)), c.id, nonce, n + 1)
  {
  }

  /** With free names, a staging goes on until the statement a fault strikes, if any. */
  lemma {:induction false} StagingSucceeds(c: Call, fault: Option<Point>, d: Disk, nonce: Nonce, n: nat)
    requires c.Submit? && n <= 19 && NamesFree(d, c.id, nonce)
    ensures var r := Upto(c, fault, Outcome(d, WorkAt(c, nonce, 0), true), n);
            && (r.ok <==> forall k: nat :: k < n ==> fault != Some(PointOf(k)))
            && (r.ok ==> r.work == WorkAt(c, nonce, n) && FreeAt(r.disk, c.id, nonce, n))
  {
    if n > 0 {
      StagingSucceeds(c, fault, d, nonce, n - 1);
      FreeThen(c, fault, Upto(c, fault, Outcome(d, WorkAt(c, nonce, 0), true), n - 1), nonce, n - 1);
    }
  }

  lemma FreeThen(c: Call, fault: Option<Point>, r: Outcome, nonce: Nonce, n: nat)
    requires c.Submit? && n < 19 && (r.ok ==> r.work == WorkAt(c, nonce, n) && FreeAt(r.disk, c.id, nonce, n))
    ensures var r' := Then(c, fault, r, PointOf(n));
            && (r'.ok <==> r.ok && fault != Some(PointOf(n)))
            && (r'.ok ==> r'.work == WorkAt(c, nonce, n + 1) && FreeAt(r'.disk, c.id, nonce, n + 1))
  {
    if r.ok {
      FreeAdvances(r.disk, c, nonce, n);
      WorkAdvances(c, nonce, n);
    }
  }

  /** A fault at a statement stops the staging there at the latest. */
  lemma {:induction false} FaultStops(c: Call, fault: Option<Point>, r: Outcome, n: nat, k: nat)
    requires k < n && fault == Some(PointOf(k))
    ensures !Upto(c, fault, r, n).ok
  {
    if k < n - 1 { FaultStops(c, fault, r, n - 1, k); }
  }

  /** What the statements before rank `n` have put on the disk. */
  ghost predicate OnDisk(d: Disk, c: Call, nonce: Nonce, n: nat)
    requires c.Submit?
  {
    && (6 <= n ==> SnapshotIno(c.id, nonce) in d.files && d.files[SnapshotIno(c.id, nonce)] == Artifact(c.snapshot))
    && (8 <= n ==> RecordIno(c.id, nonce) in d.files && d.files[RecordIno(c.id, nonce)] == Artifact(c.record))
    && (10 <= n ==> Entry(d, Snapshot(c.id)) == Some(SnapshotIno(c.id, nonce)))
    && (13 <= n ==> Stale(d, Snapshot(c.id)) == {})
    && (14 <= n ==> Entry(d, Record(c.id)) == Some(RecordIno(c.id, nonce)))
    && (17 <= n ==> Stale(d, Record(c.id)) == {})
  }

  lemma DiskAdvances(d: Disk, c: Call, nonce: Nonce, n: nat)
    requires c.Submit? && n < 19 && OnDisk(d, c, nonce, n)
    ensures OnDisk(StageDisk(d, c, WorkAt(c, nonce, n), PointOf(n)), c, nonce, n + 1)
  {
  }

  lemma DiskThen(c: Call, fault: Option<Point>, r: Outcome, nonce: Nonce, n: nat)
    requires c.Submit? && n < 19 && (r.ok ==> r.work == WorkAt(c, nonce, n) && OnDisk(r.disk, c, nonce, n))
    ensures Then(c, fault, r, PointOf(n)).ok ==> OnDisk(Then(c, fault, r, PointOf(n)).disk, c, nonce, n + 1)
  {
    if r.ok { DiskAdvances(r.disk, c, nonce, n); }
  }

  lemma {:induction false} DiskUpto(c: Call, fault: Option<Point>, d: Disk, nonce: Nonce, n: nat)
    requires c.Submit? && n <= 19
    ensures var r := Upto(c, fault, Outcome(d, WorkAt(c, nonce, 0), true), n);
            r.ok ==> OnDisk(r.disk, c, nonce, n)
  {
    if n > 0 {
      DiskUpto(c, fault, d, nonce, n - 1);
      WorkUpto(c, fault, d, nonce, n - 1);
      DiskThen(c, fault, Upto(c, fault, Outcome(d, WorkAt(c, nonce, 0), true), n - 1), nonce, n - 1);
    }
  }

  /** Removing other names leaves a secured one secured. */
  lemma {:induction false} ChoresKeepSecured(d: Disk, todo: seq<Chore>, p: Path, bytes: Bytes)
    requires Secured(d, p, bytes) && Remove(p) !in todo
    ensures Secured(PerformAll(d, todo), p, bytes)
    decreases |todo|
  {
    if todo != [] {
      assert todo[0] in todo;
      ChoresKeepSecured(Perform(d, todo[0]), todo[1..], p, bytes);
    }
  }

  /** A staging that raised nothing leaves both artifacts secured, and `finalize` keeps them so. */
  lemma StagingPublishes(c: Call, fault: Option<Point>, d: Disk, nonce: Nonce)
    requires c.Submit?
    ensures var r := Upto(c, fault, Outcome(d, WorkAt(c, nonce, 0), true), 18);
            r.ok ==>
              && r.work == WorkAt(c, nonce, 18)
              && Secured(PerformAll(r.disk, FinalizeList(r.work)), Record(c.id), c.record)
              && Secured(PerformAll(r.disk, FinalizeList(r.work)), Snapshot(c.id), c.snapshot)
  {
    WorkUpto(c, fault, d, nonce, 18);
    DiskUpto(c, fault, d, nonce, 18);
    var r := Upto(c, fault, Outcome(d, WorkAt(c, nonce, 0), true), 18);
    if r.ok {
      ChoresKeepSecured(r.disk, FinalizeList(r.work), Record(c.id), c.record);
      ChoresKeepSecured(r.disk, FinalizeList(r.work), Snapshot(c.id), c.snapshot);
    }
  }
}
