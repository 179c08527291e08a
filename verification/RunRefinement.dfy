/** One locked execution of a run is a run of the lifecycle machine, so what every interleaving keeps holds of it. */
module RunRefinement {
  import opened Basics
  import opened IsoText
  import opened RunRegistry
  import opened RunLifecycle
  import opened LedgerRegistryModel

  /** What one execution adds to the machine: the registry, the launch, the report; the wrapper leaves. */
  ghost predicate Leaves(s: State, t: State, w: WrapperId, e: Executed)
    requires w in s.wrappers
  {
    var run := s.wrappers[w].run;
    && t.reg == e.registry && t.wrappers == s.wrappers - {w} && t.used == s.used
    && t.launched == s.launched + (if e.launched then [run] else [])
    && t.reports == s.reports + (if e.answer.Answered? then [Report(run, e.answer.row, e.answer.executed)] else [])
  }

  lemma {:induction false} LegalAppend(s: State, steps: seq<Step>, step: Step)
    requires Legal(s, steps) && Enabled(Exec(s, steps), step)
    ensures Legal(s, steps + [step]) && Exec(s, steps + [step]) == Do(Exec(s, steps), step)
    decreases |steps|
  {
    if steps == [] {
      assert [step][1..] == [] && [] + [step] == [step];
    } else {
      LegalAppend(Do(s, steps[0]), steps[1..], step);
      assert (steps + [step])[1..] == steps[1..] + [step];
    }
  }

  /** Before anything is launched: refused, answered as stored, or failed as an orphan. */
  lemma UnlaunchedIsARun(s: State, w: WrapperId, clean: bool, x: Execution, now: Time, later: Time)
      returns (steps: seq<Step>)
    requires At(s, w, Locked) && !Execute(s.reg, s.wrappers[w].run, clean, x, now, later).launched
    ensures Legal(s, steps) && Leaves(s, Exec(s, steps), w, Execute(s.reg, s.wrappers[w].run, clean, x, now, later))
  {
    var run := s.wrappers[w].run;
    steps := [Decide(w)];
    assert steps[1..] == [];
    if Bound(s.reg, run) && s.reg.runs[run].state == Running {
      LegalAppend(s, steps, OrphanFinish(w, now));
      steps := steps + [OrphanFinish(w, now)];
      LegalAppend(s, steps, Answer(w));
      steps := steps + [Answer(w)];
    } else if Bound(s.reg, run) && s.reg.runs[run].state == Registered {
      LegalAppend(s, steps, Leave(w));
      steps := steps + [Leave(w)];
    }
  }

  /** `_execute_locked` is a run of the machine's steps for this wrapper alone. */
  lemma ExecutionIsARun(s: State, w: WrapperId, clean: bool, x: Execution, now: Time, later: Time)
      returns (steps: seq<Step>)
    requires At(s, w, Locked)
    ensures Legal(s, steps) && Leaves(s, Exec(s, steps), w, Execute(s.reg, s.wrappers[w].run, clean, x, now, later))
  {
    if !Execute(s.reg, s.wrappers[w].run, clean, x, now, later).launched {
      steps := UnlaunchedIsARun(s, w, clean, x, now, later);
    } else {
      var t := Do(s, Decide(w));
      assert t == Moved(s, w, Starting);
      var rest := LaunchIsARun(t, w, x, now, later);
      steps := Prepend(s, Decide(w), rest);
      assert t.wrappers - {w} == s.wrappers - {w};
    }
  }

  lemma Prepend(s: State, step: Step, rest: seq<Step>) returns (steps: seq<Step>)
    requires Enabled(s, step) && Legal(Do(s, step), rest)
    ensures Legal(s, steps) && Exec(s, steps) == Exec(Do(s, step), rest)
  {
    steps := [step] + rest;
    assert steps[1..] == rest;
  }

  /** Starting and launching. */
  lemma LaunchSteps(s: State, w: WrapperId, now: Time)
    requires At(s, w, Starting) && MayStart(s.reg, s.wrappers[w].run)
    ensures Enabled(s, StartRun(w, now)) && Enabled(Do(s, StartRun(w, now)), Launch(w))
    ensures var t := Do(Do(s, StartRun(w, now)), Launch(w));
            && At(t, w, Executing) && t.reg == Start(s.reg, s.wrappers[w].run, now)
            && t.wrappers == s.wrappers[w := s.wrappers[w].(pc := Executing)] && t.used == s.used
            && t.launched == s.launched + [s.wrappers[w].run] && t.reports == s.reports
  {
  }

  function OutcomeOf(w: WrapperId, x: Execution): Step {
    match x
    case Exited(code) => Returned(w, code)
    case ExecutorRaised(text) => Raised(w, text)
    case KeyboardInterrupt => Interrupted(w)
  }

  lemma OutcomeSteps(s: State, w: WrapperId, x: Execution)
    requires At(s, w, Executing)
    ensures Enabled(s, OutcomeOf(w, x))
    ensures Do(s, OutcomeOf(w, x))
            == Moved(s, w, Recording(Recorded(x).0, Recorded(x).1, Recorded(x).2, x.KeyboardInterrupt?))
  {
  }

  /** Storing the outcome, and answering unless the interrupt is raised again. */
  lemma StoringIsARun(s: State, w: WrapperId, x: Execution, later: Time) returns (steps: seq<Step>)
    requires w in s.wrappers
             && s.wrappers[w].pc == Recording(Recorded(x).0, Recorded(x).1, Recorded(x).2, x.KeyboardInterrupt?)
    requires var run := s.wrappers[w].run; run in s.reg.runs && s.reg.runs[run].state == Running
    ensures Legal(s, steps)
    ensures var run := s.wrappers[w].run;
            var n := Finish(s.reg, run, later, Recorded(x).0, Recorded(x).1);
            var t := Exec(s, steps);
            && t.reg == n && t.wrappers == s.wrappers - {w} && t.used == s.used && t.launched == s.launched
            && t.reports == s.reports + if x.KeyboardInterrupt? then [] else [Report(run, n.runs[run], Recorded(x).2)]
  {
    steps := [FinishRun(w, later)];
    assert steps[1..] == [];
    if !x.KeyboardInterrupt? {
      LegalAppend(s, steps, Answer(w));
      steps := steps + [Answer(w)];
    }
  }

  lemma LaunchIsARun(s: State, w: WrapperId, x: Execution, now: Time, later: Time) returns (steps: seq<Step>)
    requires At(s, w, Starting) && MayStart(s.reg, s.wrappers[w].run)
    ensures Legal(s, steps)
    ensures var run := s.wrappers[w].run;
            var n := Launched(s.reg, run, x, now, later);
            Leaves(s, Exec(s, steps), w,
                Executed(n, if x.KeyboardInterrupt? then Refused else Answered(n.runs[run], Recorded(x).2), true))
  {
    LaunchSteps(s, w, now);
    var s1 := Do(s, StartRun(w, now));
    var s2 := Do(s1, Launch(w));
    OutcomeSteps(s2, w, x);
    var s3 := Do(s2, OutcomeOf(w, x));
    var rest := StoringIsARun(s3, w, x, later);
    var three := Prepend(s2, OutcomeOf(w, x), rest);
    var two := Prepend(s1, Launch(w), three);
    steps := Prepend(s, StartRun(w, now), two);
    assert s3.wrappers - {w} == s.wrappers - {w};
  }

  // ---------------------------------------------------------------- progress

  /** A fresh wrapper that finds the run open and the lease free reaches the locked part. */
  lemma WrapperGetsTheLease(s: State, w: WrapperId, run: RunId)
    requires w !in s.used && w !in s.wrappers && Bound(s.reg, run) && !TerminalState(s.reg.runs[run].state)
             && run !in s.lease
    ensures Enabled(s, Open(w, run)) && Enabled(Do(s, Open(w, run)), Look(w))
    ensures Enabled(Do(Do(s, Open(w, run)), Look(w)), Acquire(w))
    ensures var t := Do(Do(Do(s, Open(w, run)), Look(w)), Acquire(w));
            && At(t, w, Locked) && t.wrappers[w].run == run && t.reg == s.reg
            && t.launched == s.launched && t.reports == s.reports
  {
  }

  /**
   Whatever happened before, a registered run that may start and whose lease is free can be launched by a
   new wrapper, exactly once, and ends as its executor did; the wrapper reports the stored outcome.
   */
  lemma StartableRunCanComplete(s: State, w: WrapperId, run: RunId, x: Execution, now: Time, later: Time)
    returns (steps: seq<Step>)
    requires w !in s.used && w !in s.wrappers && run !in s.lease
    requires Bound(s.reg, run) && MayStart(s.reg, run) && !x.KeyboardInterrupt?
    ensures Legal(s, steps)
    ensures var t := Exec(s, steps);
            && t.launched == s.launched + [run] && run in t.reg.runs
            && t.reports == s.reports + [Report(run, t.reg.runs[run], x.Exited?)]
            && t.reg == Launched(s.reg, run, x, now, later)
            && t.reg.runs[run].state == (if x == Exited(0) then Completed else Failed)
            && t.reg.runs[run].exitCode == Some(if x.Exited? then x.exitCode else 1)
  {
    WrapperGetsTheLease(s, w, run);
    var s1 := Do(s, Open(w, run));
    var s2 := Do(s1, Look(w));
    var s3 := Do(s2, Acquire(w));
    var rest := ExecutionIsARun(s3, w, true, x, now, later);
    var three := Prepend(s2, Acquire(w), rest);
    var two := Prepend(s1, Look(w), three);
    steps := Prepend(s, Open(w, run), two);
  }

  /** A terminal run is answered as stored, without a lease. */
  lemma TerminalRunIsAnswered(s: State, w: WrapperId, run: RunId)
    requires w !in s.used && Bound(s.reg, run) && TerminalState(s.reg.runs[run].state)
    ensures Enabled(s, Open(w, run)) && Enabled(Do(s, Open(w, run)), Look(w))
    ensures var t := Do(Do(s, Open(w, run)), Look(w));
            t.reg == s.reg && t.launched == s.launched && t.reports == s.reports + [Report(run, s.reg.runs[run], false)]
  {
  }

  /** An abandoned run is failed as an orphan by the next wrapper, and answered so. */
  lemma OrphanIsFailed(s: State, w: WrapperId, run: RunId, now: Time) returns (steps: seq<Step>)
    requires w !in s.used && w !in s.wrappers && run !in s.lease && Bound(s.reg, run)
             && s.reg.runs[run].state == Running
    ensures Legal(s, steps)
    ensures var t := Exec(s, steps);
            && t.launched == s.launched && run in t.reg.runs && t.reg.runs[run].state == Failed
            && t.reg.runs[run].exitCode == Some(1) && t.reg.runs[run].note.Some?
            && t.reports == s.reports + [Report(run, t.reg.runs[run], false)]
  {
    WrapperGetsTheLease(s, w, run);
    var s1 := Do(s, Open(w, run));
    var s2 := Do(s1, Look(w));
    var rest := ExecutionIsARun(Do(s2, Acquire(w)), w, true, Exited(0), now, now);
    var three := Prepend(s2, Acquire(w), rest);
    var two := Prepend(s1, Look(w), three);
    steps := Prepend(s, Open(w, run), two);
  }
}
