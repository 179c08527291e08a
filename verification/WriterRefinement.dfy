/**
 The writer's straight-line code refines the commit protocol: carrying out its statements and its
 removal lists is a run of the step machine, so what every run keeps holds of the code too.
 */
module WriterRefinement {
  import opened Basics
  import opened VaultDisk
  import opened LedgerBook
  import opened CommitProtocol
  import opened WriterScript

  /** Only the lock holder moves: no crash, no foreign file, no other call. */
  predicate HolderStep(step: Step) {
    !step.Acquire? && !step.Crash? && !step.ForeignFile?
  }

  predicate Alone(steps: seq<Step>) {
    forall i :: 0 <= i < |steps| ==> HolderStep(steps[i])
  }

  /** Some run of the lock holder leads from one state to the other. */
  ghost predicate Reaches(s: State, t: State, lossy: bool) {
    exists steps :: Alone(steps) && Legal(s, steps, lossy) && Exec(s, steps, lossy) == t
  }

  lemma ReachesSelf(s: State, lossy: bool)
    ensures Reaches(s, s, lossy)
  {
    var none: seq<Step> := [];
    assert Alone(none) && Legal(s, none, lossy) && Exec(s, none, lossy) == s;
  }

  lemma ReachesNext(s: State, t: State, step: Step, lossy: bool)
    requires Reaches(s, t, lossy) && HolderStep(step) && Enabled(t, step, lossy)
    ensures Reaches(s, Do(t, step, lossy), lossy)
  {
    var steps :| Alone(steps) && Legal(s, steps, lossy) && Exec(s, steps, lossy) == t;
    LegalAppend(s, steps, step, lossy);
    assert Alone(steps + [step]);
  }

  lemma ReachesStep(s: State, step: Step, lossy: bool)
    requires HolderStep(step) && Enabled(s, step, lossy)
    ensures Reaches(s, Do(s, step, lossy), lossy)
  {
    ReachesSelf(s, lossy);
    ReachesNext(s, s, step, lossy);
  }

  lemma ReachesOn(s: State, t: State, u: State, lossy: bool)
    requires Reaches(s, t, lossy) && Reaches(t, u, lossy)
    ensures Reaches(s, u, lossy)
  {
    var first :| Alone(first) && Legal(s, first, lossy) && Exec(s, first, lossy) == t;
    var second :| Alone(second) && Legal(t, second, lossy) && Exec(t, second, lossy) == u;
    LegalConcat(s, first, second, lossy);
    assert Alone(first + second);
  }

  /** The lock is released with this disk, this book and this answer, and nothing else has changed. */
  ghost predicate Ended(s: State, t: State, d: Disk, b: Book, a: Answer) {
    && s.proc.Busy? && t.proc.Idle? && t.disk == d && t.book == b && t.reader == s.reader
    && t.log == s.log + [Finished(s.proc.call, s.proc.before, b, a)]
  }

  // ---------------------------------------------------------------- removal lists

  predicate HasList(ph: Phase) {
    ph.Recovering? || ph.RollingBack? || ph.Finalizing?
  }

  /** The first `n` entries of the list in hand are done. */
  function AfterChores(s: State, n: nat): State
    requires s.proc.Busy? && HasList(s.proc.phase) && n <= |s.proc.phase.todo|
  {
    In(s, s.proc.phase.(todo := s.proc.phase.todo[n..])).(disk := PerformAll(s.disk, s.proc.phase.todo[..n]))
  }

  lemma OneChore(s: State, n: nat, lossy: bool)
    requires s.proc.Busy? && HasList(s.proc.phase) && 0 < n <= |s.proc.phase.todo|
    ensures Enabled(s, DoChore, lossy)
    ensures var s' := Do(s, DoChore, lossy);
            s'.proc.Busy? && HasList(s'.proc.phase) && n - 1 <= |s'.proc.phase.todo|
                && AfterChores(s', n - 1) == AfterChores(s, n)
  {
    var todo := s.proc.phase.todo;
    assert todo[1..][n - 1..] == todo[n..];
    assert todo[..n][0] == todo[0] && todo[..n][1..] == todo[1..][..n - 1];
  }

  /** Carrying out the first entries of a list is a run of `DoChore` steps. */
  lemma {:induction false} ChoresAreARun(s: State, n: nat, lossy: bool)
    requires s.proc.Busy? && HasList(s.proc.phase) && n <= |s.proc.phase.todo|
    ensures Reaches(s, AfterChores(s, n), lossy)
    decreases n
  {
    if n == 0 {
      assert s.proc.phase.todo[0..] == s.proc.phase.todo && s.proc.phase.todo[..0] == [];
      assert AfterChores(s, n) == s;
      ReachesSelf(s, lossy);
    } else {
      OneChore(s, n, lossy);
      var s' := Do(s, DoChore, lossy);
      ReachesStep(s, DoChore, lossy);
      ChoresAreARun(s', n - 1, lossy);
      ReachesOn(s, s', AfterChores(s, n), lossy);
    }
  }

  /** What the caller hears after a cleanup list. */
  function CleanupAnswer(ph: Phase, raises: Option<nat>): Answer
    requires ph.RollingBack? || ph.Finalizing?
  {
    if Breaks(ph.todo, raises) then Failed(InternalError)
    else if ph.Finalizing? && !ph.raised then Receipt(ph.work.id, true)
    else Failed(if ph.RollingBack? then ph.code else InternalError)
  }

  /** A cleanup list, completed or broken off by an exception, ends the call. */
  lemma CleanupIsARun(s: State, raises: Option<nat>, lossy: bool) returns (t: State)
    requires s.proc.Busy? && (s.proc.phase.RollingBack? || s.proc.phase.Finalizing?)
    ensures Reaches(s, t, lossy)
    ensures Ended(s, t, PerformAll(s.disk, Cut(s.proc.phase.todo, raises)), s.book, CleanupAnswer(s.proc.phase, raises))
  {
    var todo := s.proc.phase.todo;
    assert todo[..|todo|] == todo;
    var n := if Breaks(todo, raises) then raises.value else |todo|;
    ChoresAreARun(s, n, lossy);
    var s' := AfterChores(s, n);
    var last := if Breaks(todo, raises) then Raise(InternalError) else Finish;
    CleanupEnds(s', last, lossy);
    ReachesNext(s, s', last, lossy);
    t := Do(s', last, lossy);
  }

  lemma CleanupEnds(s: State, last: Step, lossy: bool)
    requires s.proc.Busy? && (s.proc.phase.RollingBack? || s.proc.phase.Finalizing?)
    requires last == Raise(InternalError) || (last == Finish && s.proc.phase.todo == [])
    ensures Enabled(s, last, lossy)
    ensures Ended(s, Do(s, last, lossy), s.disk, s.book, if last.Finish?
            then CleanupAnswer(s.proc.phase, None) else Failed(InternalError))
  {
  }

  // ---------------------------------------------------------------- staging

  lemma AfterPointOf(n: nat)
    requires n < 19
    ensures PointOf(n) != Commit && PointOf(n).After() == PointOf(n + 1)
  {
  }

  /** The machine's state before the statement of rank `n`. */
  function AfterStatements(s: State, w: Work, fault: Option<Point>, n: nat): State
    requires s.proc.Busy?
  {
    var r := Upto(s.proc.call, fault, Outcome(s.disk, w, true), n);
    In(s, Staging(r.work, PointOf(n))).(disk := r.disk)
  }

  lemma OneStatement(s: State, w: Work, fault: Option<Point>, n: nat, lossy: bool)
    requires s.proc.Busy? && n < 19 && Upto(s.proc.call, fault, Outcome(s.disk, w, true), n + 1).ok
    ensures var t := AfterStatements(s, w, fault, n);
            Enabled(t, Advance, lossy) && Do(t, Advance, lossy) == AfterStatements(s, w, fault, n + 1)
  {
    AfterPointOf(n);
  }

  /** Statements that do not raise are `Advance` steps. */
  lemma {:induction false} StagingIsARun(s: State, w: Work, fault: Option<Point>, n: nat, lossy: bool)
    requires s.proc.Busy? && s.proc.phase == Staging(w, MakeManifest) && n <= 19
    requires Upto(s.proc.call, fault, Outcome(s.disk, w, true), n).ok
    ensures Reaches(s, AfterStatements(s, w, fault, n), lossy)
  {
    if n == 0 {
      assert AfterStatements(s, w, fault, 0) == s;
      ReachesSelf(s, lossy);
    } else {
      OneStatement(s, w, fault, n - 1, lossy);
      StagingIsARun(s, w, fault, n - 1, lossy);
      ReachesNext(s, AfterStatements(s, w, fault, n - 1), Advance, lossy);
    }
  }

  /** The statement at which a failed staging stopped. */
  lemma {:induction false} Halts(c: Call, fault: Option<Point>, r: Outcome, n: nat) returns (k: nat)
    requires r.ok && !Upto(c, fault, r, n).ok
    ensures k < n && Upto(c, fault, r, k).ok && Upto(c, fault, r, n) == Upto(c, fault, r, k).(ok := false)
  {
    if Upto(c, fault, r, n - 1).ok {
      k := n - 1;
    } else {
      k := Halts(c, fault, r, n - 1);
    }
  }

  lemma RaiseEnabled(s: State, w: Work, k: nat, code: ErrorCode, lossy: bool)
    requires s.proc.Busy? && s.proc.phase == Staging(w, PointOf(k)) && k < 18
    ensures Enabled(s, Raise(code), lossy)
    ensures Do(s, Raise(code), lossy) == In(s, RollingBack(w, RollbackList(s.disk, w), code))
  {
  }

  /**
   A staging that raises is a run of the machine that ends with the lock released, the error reported,
   the registry untouched, and the very disk `StageCommitted` promises.
   */
  lemma FailedStagingIsARun(s: State, w: Work, fault: Option<Point>, code: ErrorCode, raises: Option<nat>, lossy: bool)
    returns (t: State)
    requires s.proc.Busy? && s.proc.phase == Staging(w, MakeManifest)
    requires !Upto(s.proc.call, fault, Outcome(s.disk, w, true), 18).ok
    ensures Reaches(s, t, lossy)
    ensures var r := Upto(s.proc.call, fault, Outcome(s.disk, w, true), 18);
            var todo := RollbackList(r.disk, r.work);
            Ended(s, t, PerformAll(r.disk, Cut(todo, raises)), s.book,
                Failed(if Breaks(todo, raises) then InternalError else code))
  {
    var k := Halts(s.proc.call, fault, Outcome(s.disk, w, true), 18);
    var r := Upto(s.proc.call, fault, Outcome(s.disk, w, true), k);
    StagingIsARun(s, w, fault, k, lossy);
    var s1 := AfterStatements(s, w, fault, k);
    RaiseEnabled(s1, r.work, k, code, lossy);
    ReachesNext(s, s1, Raise(code), lossy);
    var s2 := In(s1, RollingBack(r.work, RollbackList(r.disk, r.work), code));
    t := CleanupIsARun(s2, raises, lossy);
    ReachesOn(s, s2, t, lossy);
  }
}
