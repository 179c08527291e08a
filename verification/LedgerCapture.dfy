/**
 `capture` and `write` under the ledger lock, from recovery to the release of the lock. The whole call
 is one run of the commit protocol's step machine.
 */
module LedgerCapture {
  import opened Basics
  import opened VaultDisk
  import opened LedgerBook
  import opened CommitProtocol
  import opened WriterScript
  import opened WriterRefinement
  import opened LedgerWriterModel

  /** The machine's disk, book and reader are the writer's. */
  ghost predicate Mirrors(s: State, writer: LedgerWriter)
    reads writer
  {
    s.disk == writer.disk && s.book == writer.book && s.reader == writer.reader
  }

  /** The answer for a prediction that exists: `result_for_row` wants both artifacts. */
  function Replay(b: Book, d: Disk, id: PredictionId): Answer {
    if !IsCommitted(b, id) || Record(id) !in d.live || Snapshot(id) !in d.live then Failed(IntegrityFailure)
    else Receipt(id, false)
  }

  /**
   What a recovered ledger answers without staging, if anything. `refusal` is the verdict of the schema,
   forecast, freshness and snapshot checks, which capture makes after the key lookup.
   */
  function EarlyAnswer(b: Book, d: Disk, c: Call, refusal: Option<ErrorCode>): Option<Answer>
    requires c.Submit?
  {
    if c.request.Some? && c.request.value.0 in b.keys then
      var bound := b.keys[c.request.value.0];
      Some(if bound.payload != c.request.value.1 then Failed(IdempotencyConflict) else Replay(b, d, bound.id))
    else if c.request.Some? && refusal.Some? then Some(Failed(refusal.value))
    else if c.id in b.rows then Some(if c.request.None? then Replay(b, d, c.id) else Failed(InternalError))
    else if refusal.Some? then Some(Failed(refusal.value))
    else if Record(c.id) in d.live || Snapshot(c.id) in d.live then Some(Failed(IntegrityFailure))
    else None
  }

  /** An early answer changes nothing, and its receipt names the prediction the submission is bound to. */
  lemma EarlyAnswerIsSound(b: Book, d: Disk, c: Call, refusal: Option<ErrorCode>)
    requires c.Submit?
    ensures var a := EarlyAnswer(b, d, c, refusal);
            && (a.Some? ==> CallSpec(b, b, c, a.value) && MayAnswer(b, d, c, a.value) && a.value != Receipt(c.id, true))
            && (a.None? ==> Postable(b, c) && Record(c.id) !in d.live && Snapshot(c.id) !in d.live)
  {
  }

  /** The part of the call before staging: recover, look the key up, refuse collisions. */
  method Preflight(writer: LedgerWriter, c: Call, refusal: Option<ErrorCode>, ghost s: State, ghost lossy: bool)
    returns (early: Option<Answer>, recovered: bool, ghost t: State)
    requires c.Submit? && Mirrors(s, writer) && s.proc == Busy(c, s.book, Sweeping)
    modifies writer`disk
    ensures Fewer(old(writer.disk), writer.disk)
    ensures ManifestsWhole(old(writer.disk)) ==>
              && recovered
              && forall p :: p in writer.disk.live <==>
                    p in old(writer.disk).live && !Swept(old(writer.disk), writer.book, p)
    ensures recovered ==> early == EarlyAnswer(writer.book, writer.disk, c, refusal)
    ensures !recovered ==> early == Some(Failed(IntegrityFailure))
    ensures early.Some? ==> CallSpec(writer.book, writer.book, c, early.value) && early.value != Receipt(c.id, true)
    ensures early.None? ==> Postable(writer.book, c)
    ensures Reaches(s, t, lossy)
    ensures early.Some? ==> Ended(s, t, writer.disk, writer.book, early.value)
    ensures early.None? ==> t == In(s, Ready).(disk := writer.disk)
  {
    recovered := writer.Recover(s, lossy);
    t := In(s, if recovered then Ready else Recovering([])).(disk := writer.disk);
    if !recovered {
      ReachesNext(s, t, Raise(IntegrityFailure), lossy);
      t := Do(t, Raise(IntegrityFailure), lossy);
      return Some(Failed(IntegrityFailure)), false, t;
    }
    early := EarlyAnswer(writer.book, writer.disk, c, refusal);
    EarlyAnswerIsSound(writer.book, writer.disk, c, refusal);
    if early.Some? {
      ReachesNext(s, t, Answers(early.value), lossy);
      t := Do(t, Answers(early.value), lossy);
    }
  }

  // ---------------------------------------------------------------- settling the transaction

  /** What committing made of the book, and which cleanup follows, if the registry can be read. */
  datatype Settlement = Settlement(book: Book, phase: Option<Phase>)

  /** Both lists look at the identifier, the nonce and the published flags alone. */
  lemma ListsIgnoreTheKey(d: Disk, w: Work)
    ensures RollbackList(d, w.(keyed := true)) == RollbackList(d, w)
            && FinalizeList(w.(keyed := true)) == FinalizeList(w)
  {
  }

  function Settled(b: Book, c: Call, w: Work, d: Disk, faults: Faults): Settlement
    requires c.Submit?
  {
    var bound := w.(keyed := true);
    if faults.at != Some(BindKey) && faults.at != Some(Commit) then
      Settlement(Posted(b, c), Some(Finalizing(bound, FinalizeList(w), false)))
    else
      var applied := faults.at == Some(Commit) && faults.commitApplied;
      var w' := if faults.at == Some(BindKey) then w else bound;
      Settlement(if applied then Posted(b, c) else b,
                 if !faults.registryReadable then None
                 else if applied then Some(Finalizing(w', FinalizeList(w), true))
                 else Some(RollingBack(w', RollbackList(d, w), InternalError)))
  }

  /** The state after settling: at the cleanup, or released when the registry cannot be read. */
  ghost predicate SettledState(s: State, t: State, x: Settlement) {
    if s.proc.Busy? && x.phase.Some? then t == In(s, x.phase.value).(book := x.book)
    else Ended(s, t, s.disk, x.book, Failed(InternalError))
  }

  lemma CommitIsPosting(b: Book, c: Call, nonce: Nonce)
    requires c.Submit?
    ensures CommitTxn(b, c, WorkAt(c, nonce, 19)) == Posted(b, c)
  {
  }

  /** A statement or a commit that raises after staging is one step of the machine. */
  lemma RaisedSettlement(s: State, c: Call, nonce: Nonce, faults: Faults, lossy: bool)
    requires c.Submit? && Postable(s.book, c) && s.proc.Busy? && s.proc.call == c
    requires faults.at == Some(BindKey) || faults.at == Some(Commit)
    requires s.proc.phase == if faults.at == Some(BindKey)
             then Staging(WorkAt(c, nonce, 18), BindKey) else Staging(WorkAt(c, nonce, 19), Commit)
    ensures var step := CommitRaises(faults.at == Some(Commit) && faults.commitApplied, faults.registryReadable);
            && Enabled(s, step, lossy)
            && SettledState(s, Do(s, step, lossy), Settled(s.book, c, WorkAt(c, nonce, 18), s.disk, faults))
  {
    ListsIgnoreTheKey(s.disk, WorkAt(c, nonce, 18));
    CommitIsPosting(s.book, c, nonce);
    assert IsCommitted(Posted(s.book, c), c.id) && !IsCommitted(s.book, c.id);
  }

  lemma KeyIsBound(s: State, c: Call, nonce: Nonce, lossy: bool)
    requires c.Submit? && s.proc.Busy? && s.proc.call == c && s.proc.phase == Staging(WorkAt(c, nonce, 18), BindKey)
    ensures Enabled(s, Advance, lossy) && Do(s, Advance, lossy) == In(s, Staging(WorkAt(c, nonce, 19), Commit))
  {
  }

  lemma TransactionCommits(s: State, c: Call, nonce: Nonce, lossy: bool)
    requires c.Submit? && s.proc.Busy? && s.proc.call == c && s.proc.phase == Staging(WorkAt(c, nonce, 19), Commit)
    ensures Enabled(s, Advance, lossy)
    ensures var w := WorkAt(c, nonce, 18);
            Do(s, Advance, lossy)
                == In(s, Finalizing(w.(keyed := true), FinalizeList(w), false)).(book := Posted(s.book, c))
  {
    ListsIgnoreTheKey(s.disk, WorkAt(c, nonce, 18));
    CommitIsPosting(s.book, c, nonce);
  }

  /** Binding the key and committing, or raising there, is a run up to the cleanup or to the release. */
  lemma SettlingIsARun(s: State, c: Call, nonce: Nonce, faults: Faults, lossy: bool) returns (t: State)
    requires c.Submit? && Postable(s.book, c) && s.proc.Busy? && s.proc.call == c
    requires s.proc.phase == Staging(WorkAt(c, nonce, 18), BindKey)
    ensures Reaches(s, t, lossy) && SettledState(s, t, Settled(s.book, c, WorkAt(c, nonce, 18), s.disk, faults))
  {
    var raised := CommitRaises(faults.at == Some(Commit) && faults.commitApplied, faults.registryReadable);
    if faults.at == Some(BindKey) {
      RaisedSettlement(s, c, nonce, faults, lossy);
      ReachesStep(s, raised, lossy);
      t := Do(s, raised, lossy);
    } else {
      var s1 := In(s, Staging(WorkAt(c, nonce, 19), Commit));
      KeyIsBound(s, c, nonce, lossy);
      ReachesStep(s, Advance, lossy);
      var step := if faults.at == Some(Commit) then raised else Advance;
      if faults.at == Some(Commit) {
        RaisedSettlement(s1, c, nonce, faults, lossy);
      } else {
        TransactionCommits(s1, c, nonce, lossy);
      }
      ReachesNext(s, s1, step, lossy);
      t := Do(s1, step, lossy);
    }
  }

  /** The settlement after staging: bind the key, commit, then finalize or roll back; each may raise. */
  method Settle(staged: StagedWrite, faults: Faults) returns (a: Answer)
    requires staged.call.Submit? && !staged.finished && staged.id == staged.call.id
    requires staged.AsWork() == WorkAt(staged.call, staged.nonce, 18) && Postable(staged.writer.book, staged.call)
    modifies staged, staged.writer
    ensures var x := Settled(old(staged.writer.book), staged.call, WorkAt(staged.call, staged.nonce, 18),
            old(staged.writer.disk), faults);
            && staged.writer.book == x.book
            && (x.phase.None? ==> staged.writer.disk == old(staged.writer.disk) && a == Failed(InternalError))
            && (x.phase.Some? ==>
                  && staged.writer.disk == PerformAll(old(staged.writer.disk), Cut(x.phase.value.todo, faults.cleanup))
                  && a == CleanupAnswer(x.phase.value, faults.cleanup))
  {
    var writer, c := staged.writer, staged.call;
    ListsIgnoreTheKey(writer.disk, staged.AsWork());
    CommitIsPosting(writer.book, c, staged.nonce);
    var ok := staged.Statement(BindKey, faults);
    var cleaned := true;
    if ok && faults.at != Some(Commit) {
      writer.book := CommitTxn(writer.book, c, staged.AsWork());
      cleaned := staged.Finalize(faults.cleanup);
      return if cleaned then Receipt(c.id, true) else Failed(InternalError);
    }
    if ok && faults.commitApplied { writer.book := CommitTxn(writer.book, c, staged.AsWork()); }
    if faults.registryReadable {
      if IsCommitted(writer.book, c.id) {
        cleaned := staged.Finalize(faults.cleanup);
      } else {
        cleaned := staged.Rollback(faults.cleanup);
      }
    }
    return Failed(InternalError);
  }

  // ---------------------------------------------------------------- the whole call

  /** The disk and the answer once the cleanup is over. */
  ghost predicate CallEnds(s: State, t: State, d: Disk, x: Settlement, raises: Option<nat>) {
    && (x.phase.None? ==> Ended(s, t, d, x.book, Failed(InternalError)))
    && (x.phase.Some? ==>
          && HasCleanup(x.phase.value)
          && Ended(s, t, PerformAll(d, Cut(x.phase.value.todo, raises)), x.book, CleanupAnswer(x.phase.value, raises)))
  }

  predicate HasCleanup(ph: Phase) {
    ph.RollingBack? || ph.Finalizing?
  }

  /** A call after `Ready`: staging and settling together. */
  lemma StagedCallIsARun(s: State, c: Call, nonce: Nonce, faults: Faults, lossy: bool) returns (t: State)
    requires c.Submit? && Postable(s.book, c) && s.proc.Busy? && s.proc.call == c && s.proc.phase == Start(c, nonce)
    requires Upto(c, faults.at, Outcome(s.disk, WorkAt(c, nonce, 0), true), 18).ok
    ensures Reaches(s, t, lossy)
    ensures var d := Upto(c, faults.at, Outcome(s.disk, WorkAt(c, nonce, 0), true), 18).disk;
            CallEnds(s, t, d, Settled(s.book, c, WorkAt(c, nonce, 18), d, faults), faults.cleanup)
  {
    var r := Upto(c, faults.at, Outcome(s.disk, WorkAt(c, nonce, 0), true), 18);
    WorkUpto(c, faults.at, s.disk, nonce, 18);
    StagingIsARun(s, WorkAt(c, nonce, 0), faults.at, 18, lossy);
    var s1 := AfterStatements(s, WorkAt(c, nonce, 0), faults.at, 18);
    assert PointOf(18) == BindKey;
    var s2 := SettlingIsARun(s1, c, nonce, faults, lossy);
    ReachesOn(s, s1, s2, lossy);
    t := s2;
    if s2.proc.Busy? {
      t := CleanupIsARun(s2, faults.cleanup, lossy);
      ReachesOn(s, s2, t, lossy);
    }
  }

  /** A receipt after settling means a posted book and both artifacts secured. */
  lemma ReceiptIsSecured(b: Book, c: Call, nonce: Nonce, d: Disk, faults: Faults)
    requires c.Submit? && Upto(c, faults.at, Outcome(d, WorkAt(c, nonce, 0), true), 18).ok
    ensures var r := Upto(c, faults.at, Outcome(d, WorkAt(c, nonce, 0), true), 18);
            var x := Settled(b, c, WorkAt(c, nonce, 18), r.disk, faults);
            && (x.book == b || x.book == Posted(b, c))
            && (x.phase.Some? && CleanupAnswer(x.phase.value, faults.cleanup).Receipt? ==>
                  && x.book == Posted(b, c) && CleanupAnswer(x.phase.value, faults.cleanup) == Receipt(c.id, true)
                  && Secured(PerformAll(r.disk, Cut(x.phase.value.todo, faults.cleanup)), Record(c.id), c.record)
                  && Secured(PerformAll(r.disk, Cut(x.phase.value.todo, faults.cleanup)), Snapshot(c.id), c.snapshot))
            && (x.phase.Some? && CleanupAnswer(x.phase.value, faults.cleanup).Failed? ==>
                  CleanupAnswer(x.phase.value, faults.cleanup) == Failed(InternalError))
  {
    StagingPublishes(c, faults.at, d, nonce);
  }

  /** The fault strikes a statement of `_stage_committed`. */
  predicate StrikesStaging(at: Option<Point>) {
    at.Some? && at.value != BindKey && at.value != Commit
  }

  /** Free names and no fault: staging succeeds. A fault in it: staging fails. */
  lemma StagingVerdict(c: Call, at: Option<Point>, d: Disk, nonce: Nonce)
    requires c.Submit?
    ensures var ok := Upto(c, at, Outcome(d, WorkAt(c, nonce, 0), true), 18).ok;
            && (NamesFree(d, c.id, nonce) && at.None? ==> ok)
            && (StrikesStaging(at) ==> !ok)
  {
    if NamesFree(d, c.id, nonce) { StagingSucceeds(c, at, d, nonce, 18); }
    if StrikesStaging(at) {
      assert PointOf(at.value.Rank()) == at.value && at.value.Rank() < 18;
      FaultStops(c, at, Outcome(d, WorkAt(c, nonce, 0), true), 18, at.value.Rank());
    }
  }

  /** Staging and settling as one function of the disk and the book. */
  ghost predicate StagedOutcome(d: Disk, b: Book, c: Call, nonce: Nonce, faults: Faults, d': Disk, b': Book, a: Answer)
    requires c.Submit?
  {
    var r := Upto(c, faults.at, Outcome(d, WorkAt(c, nonce, 0), true), 18);
    var todo := RollbackList(r.disk, r.work);
    var x := Settled(b, c, WorkAt(c, nonce, 18), r.disk, faults);
    if !r.ok then
      d' == PerformAll(r.disk, Cut(todo, faults.cleanup)) && b' == b
      && a == Failed(if Breaks(todo, faults.cleanup) then InternalError else faults.code)
    else if x.phase.None? then d' == r.disk && b' == x.book && a == Failed(InternalError)
    else
      d' == PerformAll(r.disk, Cut(x.phase.value.todo, faults.cleanup)) && b' == x.book
      && a == CleanupAnswer(x.phase.value, faults.cleanup)
  }

  method StageAndSettle(writer: LedgerWriter, c: Call, nonce: Nonce, faults: Faults) returns (a: Answer)
    requires c.Submit? && Postable(writer.book, c)
    modifies writer
    ensures StagedOutcome(old(writer.disk), old(writer.book), c, nonce, faults, writer.disk, writer.book, a)
  {
    WorkUpto(c, faults.at, writer.disk, nonce, 18);
    var staged := new StagedWrite(writer, c, nonce);
    var ok, cleaned := staged.StageCommitted(faults);
    if !ok {
      a := Failed(if cleaned then faults.code else InternalError);
    } else {
      a := Settle(staged, faults);
    }
  }

  lemma OutcomeIsARun(s: State, c: Call, nonce: Nonce, faults: Faults, d': Disk, b': Book, a: Answer, lossy: bool)
    returns (t: State)
    requires c.Submit? && Postable(s.book, c) && s.proc.Busy? && s.proc.call == c && s.proc.phase == Start(c, nonce)
    requires StagedOutcome(s.disk, s.book, c, nonce, faults, d', b', a)
    ensures Reaches(s, t, lossy) && Ended(s, t, d', b', a)
  {
    if Upto(c, faults.at, Outcome(s.disk, WorkAt(c, nonce, 0), true), 18).ok {
      t := StagedCallIsARun(s, c, nonce, faults, lossy);
    } else {
      t := FailedStagingIsARun(s, WorkAt(c, nonce, 0), faults.at, faults.code, faults.cleanup, lossy);
    }
  }

  /** What the outcome means: posted or not, secured on a receipt, and when each answer is given. */
  lemma OutcomeMeans(d: Disk, b: Book, c: Call, nonce: Nonce, faults: Faults, d': Disk, b': Book, a: Answer)
    requires c.Submit? && StagedOutcome(d, b, c, nonce, faults, d', b', a)
    ensures b' == b || b' == Posted(b, c)
    ensures a.Receipt? ==> a == Receipt(c.id, true) && b' == Posted(b, c)
    ensures a.Receipt? ==> Secured(d', Record(c.id), c.record) && Secured(d', Snapshot(c.id), c.snapshot)
    ensures a.Failed? && DispositionOf(a.code) != Uncertain ==> b' == b
    ensures NamesFree(d, c.id, nonce) && faults.at.None? && faults.cleanup.None? ==> a == Receipt(c.id, true)
    ensures StrikesStaging(faults.at) ==> b' == b && (faults.cleanup.None? ==> a == Failed(faults.code))
  {
    StagingVerdict(c, faults.at, d, nonce);
    if Upto(c, faults.at, Outcome(d, WorkAt(c, nonce, 0), true), 18).ok {
      ReceiptIsSecured(b, c, nonce, d, faults);
    }
  }

  /**
   The whole call. It meets the atomic specification, a fresh receipt comes with both artifacts
   secured, and what it did is a run of the machine from the idle state it found. `found` is the disk
   after recovery, if recovery succeeded; in its terms every answer is determined.
   */
  method Capture(writer: LedgerWriter, c: Call, refusal: Option<ErrorCode>, nonce: Nonce, faults: Faults,
      ghost s: State, ghost lossy: bool)
    returns (a: Answer, ghost found: Option<Disk>, ghost t: State)
    requires c.Submit? && Mirrors(s, writer) && s.proc.Idle? && nonce !in s.nonces
    modifies writer
    ensures CallSpec(old(writer.book), writer.book, c, a)
    ensures a == Receipt(c.id, true) ==>
              Secured(writer.disk, Record(c.id), c.record) && Secured(writer.disk, Snapshot(c.id), c.snapshot)
    ensures Reaches(s.(proc := Busy(c, s.book, Sweeping)), t, lossy)
    ensures t.proc.Idle? && Mirrors(t, writer) && t.log == s.log + [Finished(c, old(writer.book), writer.book, a)]
    // recovery
    ensures found.None? ==> a == Failed(IntegrityFailure)
    ensures ManifestsWhole(old(writer.disk)) ==>
              && found.Some?
              && forall p :: p in found.value.live <==>
                    p in old(writer.disk).live && !Swept(old(writer.disk), old(writer.book), p)
    // a key in use: the exact replay, or a conflict
    ensures found.Some? && c.request.Some? && c.request.value.0 in old(writer.book).keys ==>
              var bound := old(writer.book).keys[c.request.value.0];
              a == if bound.payload != c.request.value.1 then Failed(IdempotencyConflict)
                   else if IsCommitted(old(writer.book), bound.id) && Record(bound.id) in found.value.live
                           && Snapshot(bound.id) in found.value.live then Receipt(bound.id, false)
                   else Failed(IntegrityFailure)
    // a plain write of an identifier in use
    ensures found.Some? && c.request.None? && c.id in old(writer.book).rows ==>
              a == if IsCommitted(old(writer.book), c.id) && Record(c.id) in found.value.live
                      && Snapshot(c.id) in found.value.live then Receipt(c.id, false)
                   else Failed(IntegrityFailure)
    // a capture with a new key under an identifier in use
    ensures found.Some? && c.request.Some? && c.request.value.0 !in old(writer.book).keys
            && c.id in old(writer.book).rows ==>
              a == Failed(if refusal.Some? then refusal.value else InternalError)
    // a new submission: refused, in collision, or committed unless a fault strikes
    ensures found.Some? && Postable(old(writer.book), c) && refusal.Some? ==> a == Failed(refusal.value)
    ensures found.Some? && Postable(old(writer.book), c) && refusal.None?
            && (Record(c.id) in found.value.live || Snapshot(c.id) in found.value.live) ==>
              a == Failed(IntegrityFailure)
    ensures found.Some? && Postable(old(writer.book), c) && refusal.None? && NamesFree(found.value, c.id, nonce)
            && faults.at.None? && faults.cleanup.None? ==>
              a == Receipt(c.id, true) && writer.book == Posted(old(writer.book), c)
    ensures found.Some? && Postable(old(writer.book), c) && refusal.None? && NamesFree(found.value, c.id, nonce)
            && StrikesStaging(faults.at) && faults.cleanup.None? ==>
              a == Failed(faults.code)
  {
    ghost var s1 := s.(proc := Busy(c, s.book, Sweeping));
    var early, recovered;
    early, recovered, t := Preflight(writer, c, refusal, s1, lossy);
    found := if recovered then Some(writer.disk) else None;
    if early.Some? {
      a := early.value;
      return;
    }
    EarlyAnswerIsSound(writer.book, writer.disk, c, refusal);
    ReachesNext(s1, t, Begin(nonce), lossy);
    ghost var s2 := Do(t, Begin(nonce), lossy);
    a := StageAndSettle(writer, c, nonce, faults);
    OutcomeMeans(s2.disk, s2.book, c, nonce, faults, writer.disk, writer.book, a);
    t := OutcomeIsARun(s2, c, nonce, faults, writer.disk, writer.book, a, lossy);
    ReachesOn(s1, s2, t, lossy);
  }

  /** Taking the lock is the step before it. */
  lemma CallIsARun(s: State, c: Call, t: State, lossy: bool) returns (steps: seq<Step>)
    requires s.proc.Idle? && Reaches(s.(proc := Busy(c, s.book, Sweeping)), t, lossy)
    ensures steps != [] && steps[0] == Acquire(c) && Alone(steps[1..])
    ensures Legal(s, steps, lossy) && Exec(s, steps, lossy) == t
  {
    var s1 := Do(s, Acquire(c), lossy);
    var rest :| Alone(rest) && Legal(s1, rest, lossy) && Exec(s1, rest, lossy) == t;
    steps := [Acquire(c)] + rest;
    assert steps[1..] == rest;
  }
}
