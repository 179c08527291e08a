/**
 What the registry's transactions must achieve: a captured prediction, an exploratory run and an
 external import can each be carried to stored evidence, and a window marked by hand stays closed.
 */
module RunProgress {
  import opened Basics
  import opened IsoText
  import opened RunRegistry
  import opened RunLifecycle
  import opened LedgerRegistryModel
  import opened RunRefinement

  lemma TransactIsARun(s: State, tx: Tx)
    requires TxEnabled(s.reg, tx)
    ensures Legal(s, [Transact(tx)]) && Exec(s, [Transact(tx)]) == s.(reg := TxDo(s.reg, tx))
  {
    var t := Do(s, Transact(tx));
    assert [Transact(tx)][1..] == [] && Legal(t, []) && Exec(t, []) == t;
  }

  lemma {:induction false} RunsChain(s: State, first: seq<Step>, second: seq<Step>)
    requires Legal(s, first) && Legal(Exec(s, first), second)
    ensures Legal(s, first + second) && Exec(s, first + second) == Exec(Exec(s, first), second)
    decreases |first|
  {
    if first == [] {
      assert first + second == second;
    } else {
      RunsChain(Do(s, first[0]), first[1..], second);
      assert (first + second)[1..] == first[1..] + second;
    }
  }

  /** What the wrapper freezes for a run, and the evidence a run that followed it returns. */
  datatype Plan = Plan(key: Key, request: nat, strategy: string, dataset: nat, gitCommit: nat, metrics: nat,
      inSample: Window, outOfSample: Window)

  function BindingOf(plan: Plan, run: RunId, prediction: Option<PredictionId>, kind: Registration): Binding {
    Binding(plan.key, plan.request, kind, plan.strategy, plan.dataset,
            Envelope(run, prediction, kind, plan.strategy, plan.dataset, plan.gitCommit, plan.metrics,
                plan.inSample, plan.outOfSample, plan.request))
  }

  function EvidenceOf(b: Binding, source: Time, payload: nat): Evidence {
    Evidence(b.envelope.run, b.envelope.prediction, b.registration, b.strategy, b.envelope, b.dataset,
             b.envelope.gitCommit, b.envelope.metrics, b.envelope.inSample, b.envelope.outOfSample, source, payload)
  }

  /** Clock readings of one life: start, completion, the evidence's own time and its ingestion. */
  datatype Times = Times(start: Time, end: Time, source: Time, ingest: Time)

  predicate InOrder(t: Times) {
    t.start <= t.source <= t.ingest && t.end <= t.ingest
  }

  /** The registry of a run that started, exited 0 and had its evidence stored. */
  ghost predicate Evidenced(reg: Registry, run: RunId, b: Binding, t: Times, payload: nat) {
    && run in reg.runs && run in reg.bindings && run in reg.results
    && reg.bindings[run] == b
    && reg.runs[run] == Run(b.envelope.prediction, Completed, Some(t.start), Some(t.end), Some(0), None)
    && reg.results[run] == Result(EvidenceOf(b, t.source, payload), t.ingest)
    && WindowIsTouched(reg, run)
  }

  lemma ResultsHaveRuns(reg: Registry)
    requires RegistryOk(reg)
    ensures forall r :: r in reg.results ==> r in reg.runs
  {
    forall r | r in reg.results ensures r in reg.runs { assert ResultOk(reg, r); }
  }

  /** After the launch, evidence that repeats the envelope is accepted. */
  lemma EvidenceIsAccepted(reg: Registry, run: RunId, b: Binding, t: Times, payload: nat)
    requires RegistryOk(reg) && InOrder(t) && run in reg.runs && run in reg.bindings && reg.bindings[run] == b
    requires b == BindingOf(Plan(b.key, b.request, b.strategy, b.dataset, b.envelope.gitCommit, b.envelope.metrics,
                 b.envelope.inSample, b.envelope.outOfSample), run, reg.runs[run].prediction, b.registration)
    requires reg.runs[run] == Run(b.envelope.prediction, Completed, Some(t.start), Some(t.end), Some(0), None)
    requires run !in reg.results
    ensures Ingest(reg, EvidenceOf(b, t.source, payload), t.ingest)
            == (reg.(results := reg.results[run := Result(EvidenceOf(b, t.source, payload), t.ingest)]), Ingested(true))
  {
    var e := EvidenceOf(b, t.source, payload);
    ProvenanceMeans(reg, e);
    IngestExactly(reg, e, t.ingest);
    forall r | r in reg.results ensures reg.results[r].evidence != e { assert ResultOk(reg, r); }
  }

  /** A bound run that may start can be launched, complete, and have its evidence stored. */
  lemma BoundRunCanBeEvidenced(s: State, w: WrapperId, run: RunId, plan: Plan, kind: Registration, t: Times,
      payload: nat) returns (steps: seq<Step>)
    requires RegistryOk(s.reg) && w !in s.used && w !in s.wrappers && run !in s.lease && InOrder(t)
    requires run in s.reg.runs && run in s.reg.bindings && run !in s.reg.results && MayStart(s.reg, run)
    requires s.reg.bindings[run] == BindingOf(plan, run, s.reg.runs[run].prediction, kind)
    ensures Legal(s, steps)
    ensures Exec(s, steps).launched == s.launched + [run]
    ensures Evidenced(Exec(s, steps).reg, run, s.reg.bindings[run], t, payload)
  {
    var b := s.reg.bindings[run];
    assert RunOk(s.reg, run);
    var first := StartableRunCanComplete(s, w, run, Exited(0), t.start, t.end);
    var s1 := Exec(s, first);
    LaunchKeeps(s.reg, run, Exited(0), t.start, t.end);
    EvidenceIsAccepted(s1.reg, run, b, t, payload);
    var tx := IngestTx(EvidenceOf(b, t.source, payload), t.ingest);
    TransactIsARun(s1, tx);
    RunsChain(s, first, [Transact(tx)]);
    steps := first + [Transact(tx)];
  }

  /** The capture's identifiers are new, its key is free and its days are untouched in its family. */
  ghost predicate NewCapture(reg: Registry, id: PredictionId, p: Prediction) {
    && id !in reg.predictions && p.run !in reg.runs
    && p.registration == Preregistered && ValidWindow(p.window) && NormalizeFamily(p.family).Some?
    && forall t :: t in reg.touched && t.0 == NormalizeFamily(p.family).value ==> !ShareADay(t.1, p.window)
  }

  lemma CaptureIsBound(s: State, id: PredictionId, p: Prediction, plan: Plan)
    requires RegistryOk(s.reg) && NewCapture(s.reg, id, p) && plan.outOfSample == p.window
    requires forall r :: r in s.reg.bindings ==> s.reg.bindings[r].key != plan.key
    ensures var b := BindingOf(plan, p.run, Some(id), Preregistered);
            var steps := [Transact(CommitTx(id, p, true))] + [Transact(BindTx(id, b))];
            && Legal(s, steps)
            && var s' := Exec(s, steps);
            && RegistryOk(s'.reg) && s' == s.(reg := s'.reg)
            && p.run in s'.reg.runs && p.run in s'.reg.bindings && p.run !in s'.reg.results
            && s'.reg.bindings[p.run] == b && s'.reg.runs[p.run].prediction == Some(id)
            && s'.reg.predictions == s.reg.predictions[id := p] && s'.reg.touched == s.reg.touched
            && MayStart(s'.reg, p.run)
  {
    var b := BindingOf(plan, p.run, Some(id), Preregistered);
    CaptureCommitsExactly(s.reg, id, p);
    CommitKeeps(s.reg, id, p);
    ResultsHaveRuns(s.reg);
    TransactIsARun(s, CommitTx(id, p, true));
    var s1 := s.(reg := CommitPrediction(s.reg, id, p));
    BindKeeps(s1.reg, p.run, b);
    TransactIsARun(s1, BindTx(id, b));
    RunsChain(s, [Transact(CommitTx(id, p, true))], [Transact(BindTx(id, b))]);
    StartsExactly(Bind(s1.reg, p.run, b), p.run);
  }

  /**
   From any sound state, a capture on a fresh window can be committed, bound, launched once and
   completed, and its evidence stored; its whole window is then touched under its lineage family.
   */
  lemma CaptureCanBeEvidenced(s: State, id: PredictionId, p: Prediction, plan: Plan, w: WrapperId, t: Times,
      payload: nat) returns (steps: seq<Step>)
    requires RegistryOk(s.reg) && NewCapture(s.reg, id, p) && plan.outOfSample == p.window && InOrder(t)
    requires forall r :: r in s.reg.bindings ==> s.reg.bindings[r].key != plan.key
    requires w !in s.used && w !in s.wrappers && p.run !in s.lease
    ensures Legal(s, steps)
    ensures Exec(s, steps).launched == s.launched + [p.run]
    ensures Evidenced(Exec(s, steps).reg, p.run, BindingOf(plan, p.run, Some(id), Preregistered), t, payload)
  {
    var b := BindingOf(plan, p.run, Some(id), Preregistered);
    CaptureIsBound(s, id, p, plan);
    var first := [Transact(CommitTx(id, p, true))] + [Transact(BindTx(id, b))];
    var second := BoundRunCanBeEvidenced(Exec(s, first), w, p.run, plan, Preregistered, t, payload);
    RunsChain(s, first, second);
    steps := first + second;
  }

  /** The same for an exploratory run, which needs no prediction: its strategy is its family. */
  lemma ExplorationCanBeEvidenced(s: State, run: RunId, plan: Plan, w: WrapperId, t: Times, payload: nat)
      returns (steps: seq<Step>)
    requires RegistryOk(s.reg) && run !in s.reg.runs && InOrder(t)
    requires forall r :: r in s.reg.bindings ==> s.reg.bindings[r].key != plan.key
    requires ValidWindow(plan.outOfSample) && NormalizeFamily(plan.strategy).Some?
    requires w !in s.used && w !in s.wrappers && run !in s.lease
    ensures Legal(s, steps)
    ensures Exec(s, steps).launched == s.launched + [run]
    ensures Evidenced(Exec(s, steps).reg, run, BindingOf(plan, run, None, Exploratory), t, payload)
  {
    var b := BindingOf(plan, run, None, Exploratory);
    ResultsHaveRuns(s.reg);
    ExploratoryKeeps(s.reg, run, b);
    TransactIsARun(s, ExploreTx(run, b));
    var s1 := s.(reg := CreateExploratory(s.reg, run, b));
    StartsExactly(s1.reg, run);
    var second := BoundRunCanBeEvidenced(s1, w, run, plan, Exploratory, t, payload);
    RunsChain(s, [Transact(ExploreTx(run, b))], second);
    steps := [Transact(ExploreTx(run, b))] + second;
  }

  /**
   External evidence is imported exactly when its source is new, its run and key are free and its
   times are in order.
   */
  lemma ImportsExactly(reg: Registry, run: RunId, key: Key, e: ExternalEvidence, at: Time)
    requires RegistryOk(reg)
    ensures TxEnabled(reg, ImportTx(run, key, e, at)) <==>
              && (forall i :: i in reg.imports ==>
                    (reg.imports[i].evidence.system, reg.imports[i].evidence.sourceRun) != (e.system, e.sourceRun))
              && (forall r :: r in reg.bindings ==> reg.bindings[r].key != key) && run !in reg.runs
              && e.started <= e.completed && e.completed <= at
              && NormalizeFamily(e.strategy).Some? && ValidWindow(e.outOfSample)
  {
    forall i | i in reg.imports ensures i == (reg.imports[i].evidence.system, reg.imports[i].evidence.sourceRun) {
      assert ImportOk(reg, i);
    }
  }

  /** An import of a run that exited 0 can be evidenced in turn, without a launch. */
  lemma ImportCanBeEvidenced(s: State, run: RunId, key: Key, e: ExternalEvidence, at: Time, t: Times, payload: nat)
      returns (steps: seq<Step>)
    requires RegistryOk(s.reg) && TxEnabled(s.reg, ImportTx(run, key, e, at)) && e.exitCode == 0 && e.note.None?
    requires InOrder(t) && t.start == e.started && t.end == e.completed
    ensures Legal(s, steps) && Exec(s, steps).launched == s.launched
    ensures var plan := Plan(key, e.payload, e.strategy, e.dataset, e.gitCommit, e.metrics, e.inSample, e.outOfSample);
            Evidenced(Exec(s, steps).reg, run, BindingOf(plan, run, None, External), t, payload)
  {
    var plan := Plan(key, e.payload, e.strategy, e.dataset, e.gitCommit, e.metrics, e.inSample, e.outOfSample);
    var b := BindingOf(plan, run, None, External);
    ResultsHaveRuns(s.reg);
    ImportKeeps(s.reg, run, key, e, at);
    ImportStores(s.reg, run, key, e, at);
    TransactIsARun(s, ImportTx(run, key, e, at));
    var s1 := s.(reg := ImportExternal(s.reg, run, key, e, at));
    assert RunOk(s1.reg, run);
    EvidenceIsAccepted(s1.reg, run, b, t, payload);
    var tx := IngestTx(EvidenceOf(b, t.source, payload), t.ingest);
    TransactIsARun(s1, tx);
    RunsChain(s, [Transact(ImportTx(run, key, e, at))], [Transact(tx)]);
    steps := [Transact(ImportTx(run, key, e, at))] + [Transact(tx)];
  }

  /** A window marked by hand is closed for ever: no later capture of its family commits one of its days. */
  lemma MarkedWindowIsClosed(s: State, family: string, win: Window, more: seq<Step>, id: PredictionId, p: Prediction)
    requires Inv(s) && ValidWindow(win) && NormalizeFamily(family).Some?
    requires Legal(s.(reg := TxDo(s.reg, MarkTx(family, win))), more)
    requires Enabled(Exec(s.(reg := TxDo(s.reg, MarkTx(family, win))), more), Transact(CommitTx(id, p, true)))
    ensures NormalizeFamily(p.family) == NormalizeFamily(family) ==> !ShareADay(win, p.window)
  {
    var s1 := Do(s, Transact(MarkTx(family, win)));
    StepKeepsInv(s, Transact(MarkTx(family, win)));
    RunKeepsInv(s1, more);
    RunExtends(s1, more);
    CaptureCommitsExactly(Exec(s1, more).reg, id, p);
    assert (NormalizeFamily(family).value, win) in s1.reg.touched;
  }
}
