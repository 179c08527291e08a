/** The commit protocol's promises over whole runs, with ordered or lossy crashes. */
module CommitTheorems {
  import opened Basics
  import opened VaultDisk
  import opened LedgerBook
  import opened CommitProtocol
  import opened CommitInvariant
  import opened CommitVisibility

  /**
   Visibility boundary: every registry row is committed and both its artifacts hold its bytes, in every
   run whose submissions avoid identifiers beginning with `.txn-`; `CommitReserved` shows that this
   condition is exact.
   */
  lemma VisibilityBoundary(reader: Reader, steps: seq<Step>, lossy: bool)
    requires Legal(Initial(reader), steps, lossy) && AllOrdinary(steps)
    ensures var s := Exec(Initial(reader), steps, lossy);
            forall id :: id in s.book.rows ==>
              && s.book.rows[id].state == Committed
              && Secured(s.disk, Record(id), s.book.rows[id].record)
              && Secured(s.disk, Snapshot(id), s.book.rows[id].snapshot)
  {
    RunKeepsInv(Initial(reader), steps, lossy);
    var s := Exec(Initial(reader), steps, lossy);
    forall id | id in s.book.rows
      ensures s.book.rows[id].state == Committed
      ensures Secured(s.disk, Record(id), s.book.rows[id].record)
      ensures Secured(s.disk, Snapshot(id), s.book.rows[id].snapshot)
    {
      assert RowVisible(s.disk, s.book, id);
    }
  }

  /** Every finished call did what the atomic specification allows; a definite error posted nothing. */
  lemma EveryCallMeetsItsSpec(reader: Reader, steps: seq<Step>, lossy: bool, k: nat)
    requires Legal(Initial(reader), steps, lossy) && k < |Exec(Initial(reader), steps, lossy).log|
    ensures var f := Exec(Initial(reader), steps, lossy).log[k]; CallSpec(f.before, f.after, f.call, f.answer)
  {
    RunKeepsCore(Initial(reader), steps, lossy);
    assert Exec(Initial(reader), steps, lossy).log[k] in Exec(Initial(reader), steps, lossy).log;
  }

  predicate OwnArtifact(w: Work, i: Ino) {
    i == OwnRecord(w) || i == OwnSnapshot(w)
  }

  /** Ownership: a rollback never removes a name that does not link to its own inodes ... */
  lemma RollbackRemovesOnlyItsOwn(reader: Reader, steps: seq<Step>, lossy: bool)
    requires Legal(Initial(reader), steps, lossy)
    requires var s := Exec(Initial(reader), steps, lossy); s.proc.Busy? && s.proc.phase.RollingBack?
    requires Enabled(Exec(Initial(reader), steps, lossy), DoChore, lossy)
    ensures var s := Exec(Initial(reader), steps, lossy);
            var s' := Do(s, DoChore, lossy);
            forall p :: p in s.disk.live && IsFinal(p) && !OwnArtifact(s.proc.phase.work, s.disk.live[p]) ==>
              p in s'.disk.live && s'.disk.live[p] == s.disk.live[p]
  {
    RunKeepsCore(Initial(reader), steps, lossy);
    var s := Exec(Initial(reader), steps, lossy);
    assert s.proc.phase.todo[0] in s.proc.phase.todo;
  }

  /** ... and when it completes, no artifact name links to them any more. */
  lemma RollbackRemovesAllItsOwn(reader: Reader, steps: seq<Step>, lossy: bool)
    requires Legal(Initial(reader), steps, lossy)
    requires var s := Exec(Initial(reader), steps, lossy);
             s.proc.Busy? && s.proc.phase.RollingBack? && s.proc.phase.todo == []
    ensures var s := Exec(Initial(reader), steps, lossy);
            forall p :: p in s.disk.live && !p.ManifestTemp? ==> !OwnArtifact(s.proc.phase.work, s.disk.live[p])
  {
    RunKeepsCore(Initial(reader), steps, lossy);
    var s := Exec(Initial(reader), steps, lossy);
    var w := s.proc.phase.work;
    forall p | p in s.disk.live && !p.ManifestTemp? ensures !OwnArtifact(w, s.disk.live[p]) {
      assert NameOk(s.disk, p) && Entry(s.disk, p) in May(s.disk, p);
    }
  }

  /** One prediction per key for ever: the registry only grows. */
  lemma {:induction false} BookOnlyGrows(s: State, steps: seq<Step>, lossy: bool)
    requires Core(s) && Legal(s, steps, lossy)
    ensures var b, b' := s.book, Exec(s, steps, lossy).book;
            && (forall id :: id in b.rows ==> id in b'.rows && b'.rows[id] == b.rows[id])
            && (forall k :: k in b.keys ==> k in b'.keys && b'.keys[k] == b.keys[k])
    decreases |steps|
  {
    if steps != [] {
      StepGrowsBook(s, steps[0], lossy);
      StepKeepsCore(s, steps[0], lossy);
      BookOnlyGrows(Do(s, steps[0], lossy), steps[1..], lossy);
    }
  }

  lemma StepGrowsBook(s: State, step: Step, lossy: bool)
    requires Core(s) && Enabled(s, step, lossy)
    ensures var b' := Do(s, step, lossy).book;
            b' == s.book || (s.proc.Busy? && Postable(s.book, s.proc.call) && b' == Posted(s.book, s.proc.call))
  {
    if (step.Advance? || step.CommitRaises?) && s.proc.phase.at == Commit { CommitPosts(s); }
  }

  // ---------------------------------------------------------------- one call after another

  function LastBook(log: seq<Finished>): Book {
    if log == [] then EMPTY_BOOK else log[|log| - 1].after
  }

  /** Each call started from the book the call before it left. */
  ghost predicate Chained(s: State) {
    && (forall k :: 0 < k < |s.log| ==> s.log[k].before == s.log[k - 1].after)
    && (s.log != [] ==> s.log[0].before == EMPTY_BOOK)
    && LastBook(s.log) == if s.proc.Busy? then s.proc.before else s.book
  }

  lemma StepKeepsChain(s: State, step: Step, lossy: bool)
    requires Chained(s) && Enabled(s, step, lossy)
    ensures Chained(Do(s, step, lossy))
  {
    var s' := Do(s, step, lossy);
    if s'.log != s.log {
      ReleaseKeepsChain(s, s');
    }
  }

  lemma ReleaseKeepsChain(s: State, s': State)
    requires Chained(s) && s.proc.Busy? && s'.proc.Idle?
    requires |s'.log| == |s.log| + 1 && s'.log[..|s.log|] == s.log
    requires s'.log[|s.log|].before == s.proc.before && s'.log[|s.log|].after == s'.book
    ensures Chained(s')
  {
    forall k | 0 < k < |s'.log| ensures s'.log[k].before == s'.log[k - 1].after {
      assert k < |s.log| ==> s'.log[k] == s'.log[..|s.log|][k];
      assert s'.log[k - 1] == s'.log[..|s.log|][k - 1];
    }
    assert s.log != [] ==> s'.log[0] == s'.log[..|s.log|][0];
  }

  lemma {:induction false} RunKeepsChain(s: State, steps: seq<Step>, lossy: bool)
    requires Chained(s) && Legal(s, steps, lossy)
    ensures Chained(Exec(s, steps, lossy))
    decreases |steps|
  {
    if steps != [] {
      StepKeepsChain(s, steps[0], lossy);
      RunKeepsChain(Do(s, steps[0], lossy), steps[1..], lossy);
    }
  }

  /** The finished calls form one sequence: from the empty book, each to the book the next one finds. */
  lemma CallsAreSerial(reader: Reader, steps: seq<Step>, lossy: bool)
    requires Legal(Initial(reader), steps, lossy)
    ensures Chained(Exec(Initial(reader), steps, lossy))
  {
    RunKeepsChain(Initial(reader), steps, lossy);
  }
}
