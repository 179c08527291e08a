/**
 The vault's two directories as the writer uses them: names, inodes and file contents.

 A directory entry is volatile until its directory is fsynced. `stale` holds, per name, every
 value the name had since that fsync; a machine crash may leave the name at any of those values
 or at its live one, independently of every other name.
 */
module VaultDisk {
  import opened Basics

  /** Identifiers are text; `_validate_identifier` forbids separators, NUL and lengths outside 1..128. */
  type PredictionId = string
  type Nonce = nat
  type Bytes = seq<bv8>

  datatype Dir = RecordsDir | SnapshotsDir

  datatype Path =
    | Record(id: PredictionId)
    | Snapshot(id: PredictionId)
    | RecordTemp(id: PredictionId, nonce: Nonce)
    | SnapshotTemp(id: PredictionId, nonce: Nonce)
    | ManifestTemp(id: PredictionId, nonce: Nonce)
    | Manifest(id: PredictionId, nonce: Nonce)

  const TXN := ".txn-"

  /** The identifier begins like a manifest's file name. */
  predicate Txn(id: PredictionId) {
    TXN <= id
  }

  /**
   The glob `.txn-*.json` of the recovery loop. It finds every manifest, and also the snapshot
   `<id>.json` of a prediction whose identifier begins with `.txn-`.
   */
  predicate Globbed(p: Path) {
    p.Manifest? || (p.Snapshot? && Txn(p.id))
  }

  /** An inode is named by who created it; a write's nonce is fresh, so the name is too. */
  datatype Ino =
    | RecordIno(id: PredictionId, nonce: Nonce)
    | SnapshotIno(id: PredictionId, nonce: Nonce)
    | ManifestIno(id: PredictionId, nonce: Nonce)
    | ForeignIno(serial: nat)

  /** `Torn` is a file whose bytes have not been fsynced yet. */
  datatype Content = Torn | ManifestDoc(id: PredictionId, nonce: Nonce) | Artifact(bytes: Bytes)

  /**
   What recovery takes from a file it reads as a manifest: the prediction and the paths to remove. A
   path of the vault outside the two directories is `None`; `finals` is absent when their keys are.
   */
  datatype Doc = Doc(id: PredictionId, recordTemp: Option<Path>, snapshotTemp: Option<Path>,
      finals: Option<(Option<Path>, Option<Path>)>)

  /** The JSON reader on artifact bytes; `None` where it raises. */
  type Reader = Bytes -> Option<Doc>

  function ReadArtifact(reader: Reader, bytes: Bytes): Option<Doc> {
    reader(bytes)
  }

  function OwnDoc(id: PredictionId, nonce: Nonce): Doc {
    Doc(id, Some(RecordTemp(id, nonce)), Some(SnapshotTemp(id, nonce)), Some((Some(Record(id)), Some(Snapshot(id)))))
  }

  /** `json.loads` and the lookups in it, on whatever file the glob found. */
  function ReadDoc(reader: Reader, c: Content): Option<Doc> {
    match c
    case Torn => None
    case ManifestDoc(id, nonce) => Some(OwnDoc(id, nonce))
    case Artifact(bytes) => ReadArtifact(reader, bytes)
  }

  datatype Disk = Disk(live: map<Path, Ino>, stale: map<Path, set<Option<Ino>>>, files: map<Ino, Content>)

  const EMPTY_DISK := Disk(map[], map[], map[])

  function DirOf(p: Path): Dir {
    if p.Record? || p.RecordTemp? then RecordsDir else SnapshotsDir
  }

  predicate IsFinal(p: Path) {
    p.Record? || p.Snapshot?
  }

  predicate IsArtifactTemp(p: Path) {
    p.RecordTemp? || p.SnapshotTemp?
  }

  function Entry(d: Disk, p: Path): Option<Ino> {
    if p in d.live then Some(d.live[p]) else None
  }

  function Stale(d: Disk, p: Path): set<Option<Ino>> {
    if p in d.stale then d.stale[p] else {}
  }

  /** Every value the name may have after a crash. */
  function May(d: Disk, p: Path): set<Option<Ino>> {
    {Entry(d, p)} + Stale(d, p)
  }

  /** Creating or linking a name: `os.open(O_EXCL)`, `os.link`. */
  function Link(d: Disk, p: Path, i: Ino): Disk {
    d.(live := d.live[p := i], stale := d.stale[p := May(d, p)])
  }

  /** `Path.unlink`, ignoring a missing name. */
  function Unlink(d: Disk, p: Path): Disk {
    if p in d.live then d.(live := d.live - {p}, stale := d.stale[p := May(d, p)]) else d
  }

  function Fill(d: Disk, i: Ino, c: Content): Disk {
    d.(files := d.files[i := c])
  }

  function Fsync(d: Disk, dir: Dir): Disk {
    d.(stale := map p | p in d.stale && DirOf(p) != dir :: d.stale[p])
  }

  /** What a crash may leave: in order, nothing is lost; lossy, each name picks one of its values. */
  ghost predicate Survives(d: Disk, d': Disk, lossy: bool) {
    && d'.files == d.files
    && d'.stale == map[]
    && (forall p: Path :: Entry(d', p) in May(d, p))
    && (!lossy ==> d'.live == d.live)
  }

  /** The name holds these bytes now and after any crash. */
  ghost predicate Secured(d: Disk, p: Path, bytes: Bytes) {
    && p in d.live
    && Stale(d, p) <= {Some(d.live[p])}
    && d.live[p] in d.files
    && d.files[d.live[p]] == Artifact(bytes)
  }
}
