/** `LedgerRegistry` as an object, and `RunService._execute_locked` driving it under the run's lease. */
module LedgerRegistryModel {
  import opened Basics
  import opened IsoText
  import opened RunRegistry
  import opened RunLifecycle

  class LedgerRegistry {
    var predictions: map<PredictionId, Prediction>
    var runs: map<RunId, Run>
    var bindings: map<RunId, Binding>
    var touched: set<Touch>
    var imports: map<(nat, nat), Import>
    var results: map<RunId, Result>

    function View(): Registry
      reads this
    {
      Registry(predictions, runs, bindings, touched, imports, results)
    }

    ghost predicate Valid()
      reads this
    {
      RegistryOk(View())
    }

    constructor ()
      ensures Valid() && View() == EMPTY
    {
      predictions, runs, bindings, touched, imports, results := map[], map[], map[], {}, map[], map[];
    }

    /** `UPDATE runs`, guarded by the lifecycle trigger. */
    method UpdateRun(run: RunId, n: Run) returns (accepted: bool)
      requires run in runs
      modifies this`runs
      ensures accepted <==> LifecycleAccepted(old(runs)[run], n)
      ensures runs == if accepted then old(runs)[run := n] else old(runs)
    {
      accepted := LifecycleAccepted(runs[run], n);
      if accepted { runs := runs[run := n]; }
    }

    /** `find_touched_window_overlap` */
    method OverlapsTouchedWindow(family: string, w: Window) returns (found: bool)
      ensures found <==> OverlapsTouched(touched, family, w)
    {
      var rest := touched;
      found := false;
      while rest != {}
        invariant rest <= touched
        invariant found <==> exists t ::
                    t in touched && t !in rest && t.0 == family
                    && TextOverlap(DateText(t.1.start), DateText(t.1.end), w)
        decreases |rest|
      {
        var t :| t in rest;
        var hit := t.0 == family && TextOverlap(DateText(t.1.start), DateText(t.1.end), w);
        ghost var before := found;
        found := found || hit;
        rest := rest - {t};
        if hit { assert t in touched && t !in rest; }
      }
    }

    /** The registry side of `capture`: refuse a touched window, else insert the prediction and its run. */
    method CommitCapture(id: PredictionId, p: Prediction) returns (ok: bool)
      requires Valid()
      modifies this
      ensures Valid() && (ok <==> MayCommit(old(View()), id, p, true))
      ensures View() == if ok then CommitPrediction(old(View()), id, p) else old(View())
      ensures ok ==>
                && predictions == old(predictions)[id := p]
                && runs == old(runs)[p.run := Run(Some(id), Registered, None, None, None, None)]
                && bindings == old(bindings) && touched == old(touched) && results == old(results)
                && imports == old(imports)
    {
      if id in predictions || p.run in runs || p.registration != Preregistered
          || !ValidWindow(p.window) { return false; }
      var family := NormalizeFamily(p.family);
      if family.None? { return false; }
      var overlap := OverlapsTouchedWindow(family.value, p.window);
      if overlap { return false; }
      CommitKeeps(View(), id, p);
      predictions := predictions[id := p];
      runs := runs[p.run := Run(Some(id), Registered, None, None, None, None)];
      return true;
    }

    /** `start_run`: claim the run and touch its window in one transaction. */
    method StartRun(run: RunId, at: Time) returns (ok: bool)
      requires Valid()
      modifies this`runs, this`touched
      ensures Valid() && (ok <==> MayStart(old(View()), run))
      ensures View() == if ok then Start(old(View()), run, at) else old(View())
      ensures ok ==>
                && run in old(runs) && WindowIsTouched(View(), run)
                && runs == old(runs)[run := old(runs)[run].(state := Running, executionStarted := Some(at))]
    {
      var identity := TouchIdentity(View(), run);
      if identity.None? || run !in runs || runs[run].state != Registered { return false; }
      StartKeeps(View(), run, at);
      StartTouches(View(), run, at);
      ghost var before := View();
      var accepted := UpdateRun(run, runs[run].(state := Running, executionStarted := Some(at)));
      assert accepted;
      touched := touched + {identity.value};
      assert View() == Start(before, run, at);
      return true;
    }

    /** `finish_run` */
    method FinishRun(run: RunId, at: Time, exitCode: int, note: Option<string>) returns (ok: bool)
      requires Valid()
      modifies this`runs
      ensures Valid() && (ok <==> run in old(runs) && old(runs)[run].state == Running)
      ensures View() == if ok then Finish(old(View()), run, at, exitCode, note) else old(View())
      ensures ok ==>
                var r := old(runs)[run];
                runs == old(runs)[run := Run(r.prediction, if exitCode == 0 && note.None? then Completed else Failed,
                                             r.executionStarted, Some(at), Some(exitCode), note)]
    {
      if run !in runs || runs[run].state != Running { return false; }
      FinishKeeps(View(), run, at, exitCode, note);
      var state := if exitCode == 0 && note.None? then Completed else Failed;
      var accepted := UpdateRun(run, runs[run].(state := state, completed := Some(at), exitCode := Some(exitCode),
          note := note));
      assert accepted;
      return true;
    }

    /** The registration and the binding of `create_external_run_import`. */
    method BindExternalRun(run: RunId, b: Binding)
      requires Valid() && run !in runs && run !in bindings && KeyFree(View(), b.key)
      requires b.registration == External && b.envelope.registration == External && b.envelope.strategy == b.strategy
      requires NormalizeFamily(b.strategy).Some? && ValidWindow(b.envelope.outOfSample)
      modifies this`runs, this`bindings
      ensures View() == Bind(old(View()).(runs := old(runs)[run := Run(None, Registered, None, None, None, None)]),
              run, b)
      ensures Valid() && MayStart(View(), run)
    {
      ImportedRunStarts(View(), run, b);
      runs := runs[run := Run(None, Registered, None, None, None, None)];
      bindings := bindings[run := b];
    }

    /** `create_external_run_import`: register, bind, start, touch, finish and record in one transaction. */
    method CreateExternalRunImport(run: RunId, key: Key, e: ExternalEvidence, ingested: Time)
      requires Valid() && MayImport(View(), run, key, e, ingested)
      modifies this
      ensures Valid() && View() == ImportExternal(old(View()), run, key, e, ingested)
    {
      ghost var reg := View();
      BindExternalRun(run, ExternalBinding(run, key, e));
      ghost var r0 := View();
      var started := StartRun(run, e.started);
      var finished := FinishRun(run, e.completed, e.exitCode, e.note);
      ghost var r2 := View();
      assert r2 == Finish(Start(r0, run, e.started), run, e.completed, e.exitCode, e.note);
      imports := imports[(e.system, e.sourceRun) := Import(run, e, ingested)];
      assert View() == r2.(imports := r2.imports[(e.system, e.sourceRun) := Import(run, e, ingested)]);
      assert View() == ImportExternal(reg, run, key, e, ingested);
      ImportKeeps(reg, run, key, e, ingested);
    }

    /** `MSMResultIngestor.ingest` */
    method IngestResult(e: Evidence, now: Time) returns (o: IngestOutcome)
      requires Valid()
      modifies this`results
      ensures Valid() && (View(), o) == Ingest(old(View()), e, now)
      ensures o == EvidenceConflict <==> e.run in old(results) && old(results)[e.run].evidence != e
      ensures o == Ingested(false) <==> e.run in old(results) && old(results)[e.run].evidence == e
      ensures o == Ingested(true) <==>
                && e.run !in old(results) && ProvenanceMatches(old(View()), e)
                && TimesMatch(runs[e.run], e.source, now) && forall r :: r in old(results) ==>
                      old(results)[r].evidence != e
      ensures results == if o == Ingested(true) then old(results)[e.run := Result(e, now)] else old(results)
    {
      IngestKeeps(View(), e, now);
      IngestExactly(View(), e, now);
      ghost var goal := Ingest(View(), e, now);
      assert RegistryOk(goal.0);
      o := StoreResult(e, now);
      assert View() == goal.0;
    }

    method StoreResult(e: Evidence, now: Time) returns (o: IngestOutcome)
      requires Valid()
      modifies this`results
      ensures (View(), o) == Ingest(old(View()), e, now)
    {
      if e.run in results {
        if results[e.run].evidence != e { return EvidenceConflict; }
        ResultRetryIsIdempotent(View(), e.run, now);
        return Ingested(false);
      }
      if !ProvenanceMatches(View(), e) || !TimesMatch(runs[e.run], e.source, now) { return EvidenceRejected; }
      if exists r :: r in results && results[r].evidence == e { return EvidenceRejected; }
      results := results[e.run := Result(e, now)];
      return Ingested(true);
    }
  }

  /** What the executor did, when it is called. */
  datatype Execution = Exited(exitCode: int) | ExecutorRaised(note: string) | KeyboardInterrupt

  /** Exit code, note and whether the process ran to its end, as `_execute_locked` records them. */
  function Recorded(x: Execution): (int, Option<string>, bool) {
    match x
    case Exited(code) => (code, ExitNote(code), true)
    case ExecutorRaised(text) => (1, Some(text), false)
    case KeyboardInterrupt => (130, Some(INTERRUPT_NOTE), false)
  }

  datatype RunAnswer = Answered(row: Run, executed: bool) | Refused

  datatype Executed = Executed(registry: Registry, answer: RunAnswer, launched: bool)

  function Launched(reg: Registry, run: RunId, x: Execution, now: Time, later: Time): Registry
    requires MayStart(reg, run)
  {
    Finish(Start(reg, run, now), run, later, Recorded(x).0, Recorded(x).1)
  }

  /**
   `_execute_locked`, with the lease held: a terminal run is answered as stored, a running one is an
   orphan and fails, a registered one is started and its executor called. `clean` says whether the
   envelope and the checkout verify.
   */
  function Execute(reg: Registry, run: RunId, clean: bool, x: Execution, now: Time, later: Time): Executed {
    if !Bound(reg, run) then Executed(reg, Refused, false)
    else if TerminalState(reg.runs[run].state) then Executed(reg, Answered(reg.runs[run], false), false)
    else if reg.runs[run].state == Running then
      var n := Finish(reg, run, now, 1, Some(ORPHAN_NOTE));
      Executed(n, Answered(n.runs[run], false), false)
    else if !clean || !MayStart(reg, run) then Executed(reg, Refused, false)
    else
      var n := Launched(reg, run, x, now, later);
      Executed(n, if x.KeyboardInterrupt? then Refused else Answered(n.runs[run], Recorded(x).2), true)
  }

  /** `_execute_locked` */
  method ExecuteLocked(registry: LedgerRegistry, run: RunId, clean: bool, x: Execution, now: Time, later: Time)
    returns (a: RunAnswer, launched: bool)
    requires registry.Valid()
    modifies registry
    ensures registry.Valid()
    ensures Executed(registry.View(), a, launched) == Execute(old(registry.View()), run, clean, x, now, later)
    // a launch stores what the executor did, between its two clock readings
    ensures launched ==>
              && run in registry.runs
              && var r := registry.runs[run];
                 && r.executionStarted == Some(now) && r.completed == Some(later)
                 && (x == Exited(0) <==> r.state == Completed)
                 && (x == Exited(0) ==> r.exitCode == Some(0) && r.note.None?)
                 && (x != Exited(0) ==> r.state == Failed && r.note.Some?)
                 && (x.Exited? ==> r.exitCode == Some(x.exitCode) && a == Answered(r, true))
                 && (x.ExecutorRaised? ==> r.exitCode == Some(1) && r.note == Some(x.note) && a == Answered(r, false))
                 && (x.KeyboardInterrupt? ==> r.exitCode == Some(130) && a == Refused)
    // without a launch: an orphan fails, a terminal run is answered as it stands, anything else changes nothing
    ensures !launched ==>
              if run in old(registry.runs) && run in old(registry.bindings)
                  && old(registry.runs)[run].state == Running then
                && run in registry.runs && registry.runs[run].state == Failed
                && registry.runs[run].exitCode == Some(1) && registry.runs[run].note.Some?
                && registry.runs[run].completed == Some(now) && a == Answered(registry.runs[run], false)
              else
                && registry.View() == old(registry.View())
                && a == if run in old(registry.runs) && run in old(registry.bindings)
                           && old(registry.runs)[run].state in {Completed, Failed}
                        then Answered(old(registry.runs)[run], false) else Refused
    ensures launched <==> clean && MayStart(old(registry.View()), run)
  {
    if run !in registry.runs || run !in registry.bindings { return Refused, false; }
    if registry.runs[run].state == Completed || registry.runs[run].state == Failed {
      return Answered(registry.runs[run], false), false;
    }
    if registry.runs[run].state == Running {
      var _ := registry.FinishRun(run, now, 1, Some(ORPHAN_NOTE));
      return Answered(registry.runs[run], false), false;
    }
    if !clean { return Refused, false; }
    var started := registry.StartRun(run, now);
    if !started { return Refused, false; }
    RunExecutor(registry, run, x, later);
    a := if x.KeyboardInterrupt? then Refused else Answered(registry.runs[run], Recorded(x).2);
    return a, true;
  }

  /** The executor and its three ways to end; each stores its outcome. */
  method RunExecutor(registry: LedgerRegistry, run: RunId, x: Execution, later: Time)
    requires registry.Valid() && run in registry.runs && registry.runs[run].state == Running
    modifies registry`runs
    ensures registry.Valid()
            && registry.View() == Finish(old(registry.View()), run, later, Recorded(x).0, Recorded(x).1)
  {
    match x {
      case Exited(code) => var _ := registry.FinishRun(run, later, code, ExitNote(code));
      case ExecutorRaised(text) => var _ := registry.FinishRun(run, later, 1, Some(text));
      case KeyboardInterrupt => var _ := registry.FinishRun(run, later, 130, Some(INTERRUPT_NOTE));
    }
  }

  /** What an execution keeps: the registry stays sound, and earlier rows stay. */
  lemma ExecutionKeeps(reg: Registry, run: RunId, clean: bool, x: Execution, now: Time, later: Time)
    requires RegistryOk(reg)
    ensures var e := Execute(reg, run, clean, x, now, later); RegistryOk(e.registry) && Extends(reg, e.registry)
  {
    ExecutionWrites(reg, run, clean, x, now, later);
    if Bound(reg, run) && reg.runs[run].state == Running {
      FinishKeeps(reg, run, now, 1, Some(ORPHAN_NOTE));
    } else if clean && MayStart(reg, run) {
      LaunchKeeps(reg, run, x, now, later);
    }
  }

  /** The registry an execution leaves: an orphan finished, a run launched, or what it was. */
  lemma ExecutionWrites(reg: Registry, run: RunId, clean: bool, x: Execution, now: Time, later: Time)
    ensures Execute(reg, run, clean, x, now, later).registry
            == if Bound(reg, run) && reg.runs[run].state == Running then Finish(reg, run, now, 1, Some(ORPHAN_NOTE))
               else if clean && MayStart(reg, run) then Launched(reg, run, x, now, later)
               else reg
  {
  }

  /** A launch ends terminal with its window touched, and an answer is the stored terminal outcome. */
  lemma ExecutionAnswers(reg: Registry, run: RunId, clean: bool, x: Execution, now: Time, later: Time)
    ensures var e := Execute(reg, run, clean, x, now, later);
            && (e.launched <==> Bound(reg, run) && clean && MayStart(reg, run))
            && (e.launched ==>
                  run in e.registry.runs && TerminalState(e.registry.runs[run].state)
                  && WindowIsTouched(e.registry, run))
            && (e.answer.Answered? ==>
                  run in e.registry.runs && e.answer.row == e.registry.runs[run] && TerminalState(e.answer.row.state))
  {
  }

  lemma LaunchKeeps(reg: Registry, run: RunId, x: Execution, now: Time, later: Time)
    requires RegistryOk(reg) && MayStart(reg, run)
    ensures var n := Launched(reg, run, x, now, later);
            && RegistryOk(n) && Extends(reg, n) && run in n.runs && TerminalState(n.runs[run].state)
            && WindowIsTouched(n, run)
  {
    StartKeeps(reg, run, now);
    StartTouches(reg, run, now);
    var r1 := Start(reg, run, now);
    FinishKeeps(r1, run, later, Recorded(x).0, Recorded(x).1);
    ExtendsTransitive(reg, r1, Launched(reg, run, x, now, later));
  }
}
