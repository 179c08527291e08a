/** The registry tables behind runs, windows and results, their triggers, and each transaction on them. */
module RunRegistry {
  import opened Basics
  import opened IsoText

  type RunId = nat
  type PredictionId = nat
  type Key = nat
  type Time = int

  datatype RunState = Registered | Running | Completed | Failed
  datatype Registration = Preregistered | Exploratory | External

  datatype Run = Run(prediction: Option<PredictionId>, state: RunState, executionStarted: Option<Time>,
                     completed: Option<Time>, exitCode: Option<int>, note: Option<string>)

  /** The frozen provenance of a run; it stands for its own hash. */
  datatype Envelope = Envelope(
    run: RunId, prediction: Option<PredictionId>, registration: Registration, strategy: string,
    dataset: nat, gitCommit: nat, metrics: nat, inSample: Window, outOfSample: Window, request: nat)

  datatype Binding = Binding(
    key: Key, request: nat, registration: Registration, strategy: string, dataset: nat, envelope: Envelope)

  datatype Prediction = Prediction(run: RunId, registration: Registration, family: string, window: Window)

  datatype Evidence = Evidence(
    run: RunId, prediction: Option<PredictionId>, registration: Registration, strategy: string,
    envelope: Envelope, dataset: nat, gitCommit: nat, metrics: nat,
    inSample: Window, outOfSample: Window, source: Time, payload: nat)

  datatype Result = Result(evidence: Evidence, ingested: Time)

  datatype ExternalEvidence = ExternalEvidence(
    system: nat, sourceRun: nat, strategy: string, dataset: nat, gitCommit: nat, metrics: nat,
    inSample: Window, outOfSample: Window, started: Time, completed: Time, exitCode: int,
    note: Option<string>, payload: nat)

  datatype Import = Import(run: RunId, evidence: ExternalEvidence, ingested: Time)

  /** A touched window: its family, first day and last day; the days are stored as ISO text. */
  type Touch = (string, Window)

  datatype Registry = Registry(
    predictions: map<PredictionId, Prediction>,
    runs: map<RunId, Run>,
    bindings: map<RunId, Binding>,
    touched: set<Touch>,
    imports: map<(nat, nat), Import>,
    results: map<RunId, Result>)

  const EMPTY := Registry(map[], map[], map[], {}, map[], map[])

  // ---------------------------------------------------------------- triggers

  /** `runs_lifecycle_transitions` with `runs_identity_write_once_update` */
  predicate LifecycleAccepted(o: Run, n: Run) {
    && n.prediction == o.prediction
    && (|| (&& o.state == Registered && n.state == Running && o.executionStarted.None? && n.executionStarted.Some?
            && n.completed.None? && n.exitCode.None? && n.note.None?)
        || (&& o.state == Running && n.state in {Completed, Failed} && n.executionStarted == o.executionStarted
            && n.completed.Some? && n.exitCode.Some?
            && (if n.state == Completed
                then n.exitCode.value == 0 && n.note.None? else n.exitCode.value != 0 || n.note.Some?)))
  }

  predicate Successful(r: Run) {
    r.state == Completed && r.exitCode == Some(0) && r.note.None?
  }

  /** `external_run_imports_require_low_integrity_terminal_run` */
  predicate ImportAccepted(reg: Registry, run: RunId) {
    && run in reg.runs && run in reg.bindings
    && reg.runs[run].prediction.None? && reg.runs[run].state in {Completed, Failed}
    && reg.bindings[run].registration == External
  }

  /** `run_results_require_successful_bound_run` */
  predicate ResultAccepted(reg: Registry, run: RunId) {
    run in reg.runs && run in reg.bindings && Successful(reg.runs[run])
  }

  // ---------------------------------------------------------------- touched windows

  /** `find_touched_window_overlap` finds a row. */
  ghost predicate OverlapsTouched(touched: set<Touch>, family: string, w: Window) {
    exists t :: t in touched && t.0 == family && TextOverlap(DateText(t.1.start), DateText(t.1.end), w)
  }

  /** `_touch_identity_for_run`: the lineage family of a preregistered run, else its strategy. */
  function TouchIdentity(reg: Registry, run: RunId): Option<(string, Window)> {
    if run !in reg.runs || run !in reg.bindings then None
    else
      var b := reg.bindings[run];
      var r := reg.runs[run];
      if b.envelope.registration != b.registration || b.envelope.strategy != b.strategy
          || !ValidWindow(b.envelope.outOfSample) then None
      else if b.registration == Preregistered
          && (r.prediction.None? || r.prediction.value !in reg.predictions) then None
      else
        var family := if b.registration == Preregistered
            then reg.predictions[r.prediction.value].family else b.strategy;
        var n := NormalizeFamily(family);
        if n.None? then None else Some((n.value, b.envelope.outOfSample))
  }

  // ---------------------------------------------------------------- transactions

  /** A new prediction with its allocated run; through `capture`, or through plain `write`. */
  ghost predicate MayCommit(reg: Registry, id: PredictionId, p: Prediction, viaCapture: bool) {
    && id !in reg.predictions && p.run !in reg.runs
    && (viaCapture ==>
          && p.registration == Preregistered && ValidWindow(p.window)
          && NormalizeFamily(p.family).Some?
          && !OverlapsTouched(reg.touched, NormalizeFamily(p.family).value, p.window))
  }

  function CommitPrediction(reg: Registry, id: PredictionId, p: Prediction): Registry {
    reg.(predictions := reg.predictions[id := p],
        runs := reg.runs[p.run := Run(Some(id), Registered, None, None, None, None)])
  }

  predicate KeyFree(reg: Registry, key: Key) {
    forall r :: r in reg.bindings ==> reg.bindings[r].key != key
  }

  /** `_prepare_preregistered` when the key is new. */
  predicate MayBindPreregistered(reg: Registry, id: PredictionId, b: Binding) {
    && KeyFree(reg, b.key)
    && id in reg.predictions && reg.predictions[id].registration == Preregistered
    && var run := reg.predictions[id].run;
       && run in reg.runs && run !in reg.bindings && reg.runs[run].state == Registered
       && reg.runs[run].prediction == Some(id)
       && b.registration == Preregistered
       && b.envelope.run == run && b.envelope.prediction == Some(id) && b.envelope.registration == Preregistered
       && b.envelope.strategy == b.strategy && b.envelope.dataset == b.dataset
       && b.envelope.outOfSample == reg.predictions[id].window
  }

  function Bind(reg: Registry, run: RunId, b: Binding): Registry {
    reg.(bindings := reg.bindings[run := b])
  }

  /** `_prepare_exploratory` when the key is new. */
  predicate MayCreateExploratory(reg: Registry, run: RunId, b: Binding) {
    && KeyFree(reg, b.key) && run !in reg.runs && run !in reg.bindings
    && b.registration == Exploratory && b.envelope.run == run && b.envelope.prediction.None?
    && b.envelope.registration == Exploratory && b.envelope.strategy == b.strategy && b.envelope.dataset == b.dataset
  }

  function CreateExploratory(reg: Registry, run: RunId, b: Binding): Registry {
    Bind(reg.(runs := reg.runs[run := Run(None, Registered, None, None, None, None)]), run, b)
  }

  /** `start_run` succeeds. */
  predicate MayStart(reg: Registry, run: RunId) {
    run in reg.runs && reg.runs[run].state == Registered && TouchIdentity(reg, run).Some?
  }

  function Start(reg: Registry, run: RunId, at: Time): Registry
    requires MayStart(reg, run)
  {
    reg.(runs := reg.runs[run := reg.runs[run].(state := Running, executionStarted := Some(at))],
         touched := reg.touched + {TouchIdentity(reg, run).value})
  }

  function Terminal(r: Run, at: Time, exitCode: int, note: Option<string>): Run {
    r.(state := if exitCode == 0
        && note.None? then Completed else Failed, completed := Some(at), exitCode := Some(exitCode), note := note)
  }

  /** `finish_run` */
  function Finish(reg: Registry, run: RunId, at: Time, exitCode: int, note: Option<string>): Registry
    requires run in reg.runs
  {
    reg.(runs := reg.runs[run := Terminal(reg.runs[run], at, exitCode, note)])
  }

  function ExternalBinding(run: RunId, key: Key, e: ExternalEvidence): Binding {
    Binding(key, e.payload, External, e.strategy, e.dataset,
            Envelope(run, None, External, e.strategy, e.dataset, e.gitCommit, e.metrics, e.inSample, e.outOfSample,
                e.payload))
  }

  /** `ExternalRunIngestor.ingest` for a new source identity. */
  predicate MayImport(reg: Registry, run: RunId, key: Key, e: ExternalEvidence, ingested: Time) {
    && (e.system, e.sourceRun) !in reg.imports
    && (forall i :: i in reg.imports ==> reg.imports[i].evidence != e)
    && KeyFree(reg, key) && run !in reg.runs && run !in reg.bindings
    && e.started <= e.completed <= ingested
    && NormalizeFamily(e.strategy).Some? && ValidWindow(e.outOfSample)
  }

  /** One transaction: register, bind, start, touch, finish, record the import. */
  function ImportExternal(reg: Registry, run: RunId, key: Key, e: ExternalEvidence, ingested: Time): Registry
    requires MayImport(reg, run, key, e, ingested)
  {
    var r0 := Bind(reg.(runs := reg.runs[run := Run(None, Registered, None, None, None, None)]), run,
        ExternalBinding(run, key, e));
    var r1 := Start(r0, run, e.started);
    var r2 := Finish(r1, run, e.completed, e.exitCode, e.note);
    r2.(imports := r2.imports[(e.system, e.sourceRun) := Import(run, e, ingested)])
  }

  /** `_validate_run_binding` */
  predicate ProvenanceMatches(reg: Registry, e: Evidence) {
    && e.run in reg.runs && e.run in reg.bindings && Successful(reg.runs[e.run])
    && var b, env, r := reg.bindings[e.run], reg.bindings[e.run].envelope, reg.runs[e.run];
       && e.run == env.run
       && e.prediction == r.prediction == env.prediction
       && e.registration == b.registration == env.registration
       && e.strategy == b.strategy == env.strategy
       && e.envelope == env
       && e.dataset == b.dataset == env.dataset
       && e.gitCommit == env.gitCommit && e.metrics == env.metrics
       && e.inSample == env.inSample && e.outOfSample == env.outOfSample
  }

  /** `_validate_times` */
  predicate TimesMatch(r: Run, source: Time, ingested: Time) {
    && r.executionStarted.Some? && r.completed.Some?
    && r.executionStarted.value <= source <= ingested && r.completed.value <= ingested
  }

  datatype IngestOutcome = Ingested(created: bool) | EvidenceConflict | EvidenceRejected

  /** `MSMResultIngestor.ingest` */
  function Ingest(reg: Registry, e: Evidence, now: Time): (Registry, IngestOutcome) {
    if e.run in reg.results then
      if reg.results[e.run].evidence != e then (reg, EvidenceConflict)
      else if !ProvenanceMatches(reg, e)
          || !TimesMatch(reg.runs[e.run], e.source, reg.results[e.run].ingested) then (reg, EvidenceRejected)
      else (reg, Ingested(false))
    else if !ProvenanceMatches(reg, e) || !TimesMatch(reg.runs[e.run], e.source, now) then (reg, EvidenceRejected)
    else if exists r :: r in reg.results && reg.results[r].evidence == e then (reg, EvidenceRejected)
    else (reg.(results := reg.results[e.run := Result(e, now)]), Ingested(true))
  }

  /** `mark_window_touched` */
  function MarkTouched(reg: Registry, family: string, w: Window): Registry
    requires NormalizeFamily(family).Some?
  {
    reg.(touched := reg.touched + {(NormalizeFamily(family).value, w)})
  }

  // ---------------------------------------------------------------- invariant

  ghost predicate RunOk(reg: Registry, run: RunId)
    requires run in reg.runs
  {
    var r := reg.runs[run];
    && (r.state == Registered <==> r.executionStarted.None?)
    && (r.state in {Registered, Running} ==> r.completed.None? && r.exitCode.None? && r.note.None?)
    && (r.state == Completed ==> r.completed.Some? && r.exitCode == Some(0) && r.note.None?)
    && (r.state == Failed ==> r.completed.Some? && r.exitCode.Some? && (r.exitCode.value != 0 || r.note.Some?))
    && (r.prediction.Some? ==> r.prediction.value in reg.predictions)
    && (r.executionStarted.Some? ==> WindowIsTouched(reg, run))
  }

  /**
   In terms of the rows: the lineage family of a preregistered run's prediction, or the strategy of any
   other run, stands normalized in the touched set with the whole out-of-sample window of the envelope.
   */
  ghost predicate WindowIsTouched(reg: Registry, run: RunId)
    requires run in reg.runs
  {
    && run in reg.bindings
    && var b, r := reg.bindings[run], reg.runs[run];
       && (b.registration == Preregistered ==> r.prediction.Some? && r.prediction.value in reg.predictions)
       && var family := NormalizeFamily(
            if b.registration == Preregistered then reg.predictions[r.prediction.value].family else b.strategy);
          family.Some? && (family.value, b.envelope.outOfSample) in reg.touched
  }

  ghost predicate ResultOk(reg: Registry, run: RunId)
    requires run in reg.results
  {
    var e := reg.results[run].evidence;
    && e.run == run && ProvenanceMatches(reg, e) && TimesMatch(reg.runs[run], e.source, reg.results[run].ingested)
  }

  ghost predicate ImportOk(reg: Registry, i: (nat, nat))
    requires i in reg.imports
  {
    var m := reg.imports[i];
    && i == (m.evidence.system, m.evidence.sourceRun) && ImportAccepted(reg, m.run)
    && reg.runs[m.run] == Terminal(Run(None, Running, Some(m.evidence.started), None, None, None),
        m.evidence.completed, m.evidence.exitCode, m.evidence.note)
    && m.evidence.completed <= m.ingested
  }

  ghost predicate RegistryOk(reg: Registry) {
    && (forall r :: r in reg.runs ==> RunOk(reg, r))
    && (forall r :: r in reg.bindings ==> r in reg.runs)
    && (forall r :: r in reg.results ==> ResultOk(reg, r))
    && (forall i :: i in reg.imports ==> ImportOk(reg, i))
    && (forall t :: t in reg.touched ==> ValidWindow(t.1))
    && (forall i, j :: i in reg.bindings && j in reg.bindings && reg.bindings[i].key == reg.bindings[j].key ==> i == j)
  }

  /** What every transaction keeps: rows stay, terminal runs and evidence never change, windows only grow. */
  ghost predicate Extends(o: Registry, n: Registry) {
    && o.touched <= n.touched
    && (forall p :: p in o.predictions ==> p in n.predictions && n.predictions[p] == o.predictions[p])
    && (forall r :: r in o.bindings ==> r in n.bindings && n.bindings[r] == o.bindings[r])
    && (forall r :: r in o.runs ==> r in n.runs && n.runs[r].prediction == o.runs[r].prediction)
    && (forall r :: r in o.runs && o.runs[r].state in {Completed, Failed} ==> n.runs[r] == o.runs[r])
    && (forall r :: r in o.runs && o.runs[r].executionStarted.Some? ==>
          n.runs[r].executionStarted == o.runs[r].executionStarted)
    && (forall r :: r in o.results ==> r in n.results && n.results[r] == o.results[r])
    && (forall i :: i in o.imports ==> i in n.imports && n.imports[i] == o.imports[i])
  }

  /** A touched window stays touched: it depends only on rows that are never rewritten. */
  lemma StaysTouched(reg: Registry, n: Registry, run: RunId)
    requires Extends(reg, n) && run in reg.runs && WindowIsTouched(reg, run)
    ensures WindowIsTouched(n, run)
  {
  }

  /** Whatever extends a sound registry, and is sound on the runs it changed, is sound. */
  lemma ExtensionKeeps(reg: Registry, n: Registry, changed: set<RunId>)
    requires RegistryOk(reg) && Extends(reg, n)
    requires forall r :: r in n.runs && r !in changed ==>
               r in reg.runs && n.runs[r] == reg.runs[r] && (r in n.bindings ==> r in reg.bindings)
    requires forall r :: r in n.runs && r in changed ==> RunOk(n, r)
    requires forall r :: r in n.bindings ==> r in n.runs
    requires forall r :: r in n.results && r !in reg.results ==> ResultOk(n, r)
    requires forall i :: i in n.imports && i !in reg.imports ==> ImportOk(n, i)
    requires forall t :: t in n.touched && t !in reg.touched ==> ValidWindow(t.1)
    requires forall i, j :: i in n.bindings && j in n.bindings && n.bindings[i].key == n.bindings[j].key ==> i == j
    ensures RegistryOk(n)
  {
    forall r | r in n.runs ensures RunOk(n, r) {
      if r !in changed {
        assert RunOk(reg, r);
        if WindowIsTouched(reg, r) { StaysTouched(reg, n, r); }
      }
    }
    forall r | r in n.results ensures ResultOk(n, r) { if r in reg.results { assert ResultOk(reg, r); } }
    forall i | i in n.imports ensures ImportOk(n, i) { if i in reg.imports { assert ImportOk(reg, i); } }
  }

  lemma RunUpdateExtends(reg: Registry, n: Registry, run: RunId)
    requires run in reg.runs && run in n.runs && RunOk(reg, run) && LifecycleAccepted(reg.runs[run], n.runs[run])
    requires n == reg.(runs := reg.runs[run := n.runs[run]], touched := n.touched) && reg.touched <= n.touched
    ensures Extends(reg, n)
  {
  }

  /** A changed run row that the lifecycle trigger accepts keeps the registry in order. */
  lemma RunUpdateKeeps(reg: Registry, n: Registry, run: RunId)
    requires RegistryOk(reg) && run in reg.runs && run in n.runs && LifecycleAccepted(reg.runs[run], n.runs[run])
    requires n == reg.(runs := reg.runs[run := n.runs[run]], touched := n.touched) && reg.touched <= n.touched
    requires WindowIsTouched(n, run) && forall t :: t in n.touched && t !in reg.touched ==> ValidWindow(t.1)
    ensures RegistryOk(n) && Extends(reg, n)
  {
    assert RunOk(reg, run);
    RunUpdateExtends(reg, n, run);
    assert RunOk(n, run);
    ExtensionKeeps(reg, n, {run});
  }

  lemma StartTouches(reg: Registry, run: RunId, at: Time)
    requires MayStart(reg, run)
    ensures WindowIsTouched(Start(reg, run, at), run)
    ensures forall t :: t in Start(reg, run, at).touched && t !in reg.touched ==> ValidWindow(t.1)
  {
  }

  lemma StartKeeps(reg: Registry, run: RunId, at: Time)
    requires RegistryOk(reg) && MayStart(reg, run)
    ensures RegistryOk(Start(reg, run, at)) && Extends(reg, Start(reg, run, at))
    ensures LifecycleAccepted(reg.runs[run], Start(reg, run, at).runs[run])
  {
    assert RunOk(reg, run);
    StartTouches(reg, run, at);
    RunUpdateKeeps(reg, Start(reg, run, at), run);
  }

  lemma FinishKeeps(reg: Registry, run: RunId, at: Time, exitCode: int, note: Option<string>)
    requires RegistryOk(reg) && run in reg.runs && reg.runs[run].state == Running
    ensures RegistryOk(Finish(reg, run, at, exitCode, note)) && Extends(reg, Finish(reg, run, at, exitCode, note))
    ensures LifecycleAccepted(reg.runs[run], Finish(reg, run, at, exitCode, note).runs[run])
  {
    assert RunOk(reg, run);
    assert WindowIsTouched(Finish(reg, run, at, exitCode, note), run);
    RunUpdateKeeps(reg, Finish(reg, run, at, exitCode, note), run);
  }

  lemma CommitKeeps(reg: Registry, id: PredictionId, p: Prediction)
    requires RegistryOk(reg) && id !in reg.predictions && p.run !in reg.runs
    ensures RegistryOk(CommitPrediction(reg, id, p)) && Extends(reg, CommitPrediction(reg, id, p))
  {
    var n := CommitPrediction(reg, id, p);
    assert RunOk(n, p.run);
    assert Extends(reg, n);
    ExtensionKeeps(reg, n, {p.run});
  }

  lemma BindKeeps(reg: Registry, run: RunId, b: Binding)
    requires RegistryOk(reg) && run in reg.runs && run !in reg.bindings && reg.runs[run].state == Registered
             && KeyFree(reg, b.key)
    ensures RegistryOk(Bind(reg, run, b)) && Extends(reg, Bind(reg, run, b))
  {
    var n := Bind(reg, run, b);
    assert RunOk(reg, run);
    assert RunOk(n, run);
    assert Extends(reg, n);
    ExtensionKeeps(reg, n, {run});
  }

  lemma NewRunKeeps(reg: Registry, run: RunId)
    requires RegistryOk(reg) && run !in reg.runs
    ensures var n := reg.(runs := reg.runs[run := Run(None, Registered, None, None, None, None)]);
            RegistryOk(n) && Extends(reg, n)
  {
    var n := reg.(runs := reg.runs[run := Run(None, Registered, None, None, None, None)]);
    assert RunOk(n, run);
    assert Extends(reg, n);
    ExtensionKeeps(reg, n, {run});
  }

  lemma ExtendsTransitive(a: Registry, b: Registry, c: Registry)
    requires Extends(a, b) && Extends(b, c)
    ensures Extends(a, c)
  {
  }

  lemma ExploratoryKeeps(reg: Registry, run: RunId, b: Binding)
    requires RegistryOk(reg) && MayCreateExploratory(reg, run, b)
    ensures RegistryOk(CreateExploratory(reg, run, b)) && Extends(reg, CreateExploratory(reg, run, b))
  {
    NewRunKeeps(reg, run);
    var n := reg.(runs := reg.runs[run := Run(None, Registered, None, None, None, None)]);
    BindKeeps(n, run, b);
    ExtendsTransitive(reg, n, Bind(n, run, b));
  }

  /** Register and bind inside the import transaction; the run is then ready to start. */
  lemma ImportedRunStarts(reg: Registry, run: RunId, b: Binding)
    requires RegistryOk(reg) && run !in reg.runs && run !in reg.bindings && KeyFree(reg, b.key)
    requires b.registration == External && b.envelope.registration == External && b.envelope.strategy == b.strategy
    requires NormalizeFamily(b.strategy).Some? && ValidWindow(b.envelope.outOfSample)
    ensures var r0 := Bind(reg.(runs := reg.runs[run := Run(None, Registered, None, None, None, None)]), run, b);
            MayStart(r0, run) && RegistryOk(r0) && Extends(reg, r0)
  {
    NewRunKeeps(reg, run);
    var n := reg.(runs := reg.runs[run := Run(None, Registered, None, None, None, None)]);
    BindKeeps(n, run, b);
    ExtendsTransitive(reg, n, Bind(n, run, b));
  }

  /** Start and finish: both updates pass the lifecycle trigger. */
  lemma StartedRunFinishes(r0: Registry, run: RunId, started: Time, completed: Time, exitCode: int,
      note: Option<string>)
    requires RegistryOk(r0) && MayStart(r0, run)
    ensures var r2 := Finish(Start(r0, run, started), run, completed, exitCode, note);
            && RegistryOk(r2) && Extends(r0, r2)
            && r2.runs[run] == Terminal(r0.runs[run].(state := Running, executionStarted := Some(started)), completed,
                exitCode, note)
  {
    StartKeeps(r0, run, started);
    var r1 := Start(r0, run, started);
    FinishKeeps(r1, run, completed, exitCode, note);
    ExtendsTransitive(r0, r1, Finish(r1, run, completed, exitCode, note));
  }

  /** The import keeps the registry in order, and its row passes its own trigger. */
  lemma ImportKeeps(reg: Registry, run: RunId, key: Key, e: ExternalEvidence, ingested: Time)
    requires RegistryOk(reg) && MayImport(reg, run, key, e, ingested)
    ensures var n := ImportExternal(reg, run, key, e, ingested);
            RegistryOk(n) && Extends(reg, n) && ImportAccepted(n, run)
  {
    ImportedRunStarts(reg, run, ExternalBinding(run, key, e));
    var r0 := Bind(reg.(runs := reg.runs[run := Run(None, Registered, None, None, None, None)]), run,
        ExternalBinding(run, key, e));
    var r2 := Finish(Start(r0, run, e.started), run, e.completed, e.exitCode, e.note);
    StartedRunFinishes(r0, run, e.started, e.completed, e.exitCode, e.note);
    ExtendsTransitive(reg, r0, r2);
    ImportRowKeeps(reg, r2, Import(run, e, ingested));
  }

  lemma ImportRowKeeps(reg: Registry, r2: Registry, m: Import)
    requires RegistryOk(r2) && Extends(reg, r2) && r2.imports == reg.imports
    requires (m.evidence.system, m.evidence.sourceRun) !in r2.imports && ImportAccepted(r2, m.run)
             && m.evidence.completed <= m.ingested
    requires r2.runs[m.run] == Terminal(Run(None, Running, Some(m.evidence.started), None, None, None),
             m.evidence.completed, m.evidence.exitCode, m.evidence.note)
    ensures var n := r2.(imports := r2.imports[(m.evidence.system, m.evidence.sourceRun) := m]);
            RegistryOk(n) && Extends(reg, n) && ImportAccepted(n, m.run)
  {
    var i := (m.evidence.system, m.evidence.sourceRun);
    var n := r2.(imports := r2.imports[i := m]);
    assert Extends(r2, n);
    assert ImportOk(n, i);
    assert RegistryOk(n) by { ExtensionKeeps(r2, n, {}); }
    assert Extends(reg, n) by { ExtendsTransitive(reg, r2, n); }
  }

  lemma StoreResultKeeps(reg: Registry, e: Evidence, now: Time)
    requires RegistryOk(reg) && e.run !in reg.results && ProvenanceMatches(reg, e)
             && TimesMatch(reg.runs[e.run], e.source, now)
    ensures var n := reg.(results := reg.results[e.run := Result(e, now)]); RegistryOk(n) && Extends(reg, n)
  {
    var n := reg.(results := reg.results[e.run := Result(e, now)]);
    assert ResultOk(n, e.run);
    assert Extends(reg, n);
    ExtensionKeeps(reg, n, {});
  }

  lemma IngestKeeps(reg: Registry, e: Evidence, now: Time)
    requires RegistryOk(reg)
    ensures RegistryOk(Ingest(reg, e, now).0) && Extends(reg, Ingest(reg, e, now).0)
    ensures Ingest(reg, e, now).1 == Ingested(true) ==> ResultAccepted(reg, e.run)
  {
    if e.run !in reg.results && ProvenanceMatches(reg, e) && TimesMatch(reg.runs[e.run], e.source, now) {
      StoreResultKeeps(reg, e, now);
    } else {
      assert Ingest(reg, e, now).0 == reg;
    }
  }

  lemma MarkKeeps(reg: Registry, family: string, w: Window)
    requires RegistryOk(reg) && ValidWindow(w) && NormalizeFamily(family).Some?
    ensures RegistryOk(MarkTouched(reg, family, w)) && Extends(reg, MarkTouched(reg, family, w))
  {
    ExtensionKeeps(reg, MarkTouched(reg, family, w), {});
  }

  // ---------------------------------------------------------------- what a transaction promises

  /** An exact retry of stored evidence is accepted and changes nothing. */
  lemma ResultRetryIsIdempotent(reg: Registry, run: RunId, now: Time)
    requires RegistryOk(reg) && run in reg.results
    ensures Ingest(reg, reg.results[run].evidence, now) == (reg, Ingested(false))
  {
    assert ResultOk(reg, run);
  }

  /** Freshness: a capture that commits shares no calendar day with the window of any started run of its family. */
  lemma CaptureIsFresh(reg: Registry, id: PredictionId, p: Prediction, run: RunId)
    requires RegistryOk(reg) && MayCommit(reg, id, p, true)
    requires run in reg.runs && reg.runs[run].executionStarted.Some?
    ensures run in reg.bindings
    ensures var b, r := reg.bindings[run], reg.runs[run];
            && (b.registration == Preregistered ==> r.prediction.Some? && r.prediction.value in reg.predictions)
            && var family := if b.registration == Preregistered
                then reg.predictions[r.prediction.value].family else b.strategy;
               NormalizeFamily(family) == NormalizeFamily(p.family) ==> !ShareADay(b.envelope.outOfSample, p.window)
  {
    assert RunOk(reg, run);
    var b, r := reg.bindings[run], reg.runs[run];
    var family := if b.registration == Preregistered then reg.predictions[r.prediction.value].family else b.strategy;
    var w := b.envelope.outOfSample;
    if NormalizeFamily(family) == NormalizeFamily(p.family) {
      assert (NormalizeFamily(family).value, w) in reg.touched;
      assert !TextOverlap(DateText(w.start), DateText(w.end), p.window);
      OverlapIsExact(w, p.window);
    }
  }

  /**
   A capture commits exactly when its identifiers are new and no touched window of its family
   shares a day with it.
   */
  lemma CaptureCommitsExactly(reg: Registry, id: PredictionId, p: Prediction)
    requires RegistryOk(reg)
    ensures MayCommit(reg, id, p, true) <==>
              && id !in reg.predictions && p.run !in reg.runs && p.registration == Preregistered
              && ValidWindow(p.window)
              && NormalizeFamily(p.family).Some?
              && forall t :: t in reg.touched && t.0 == NormalizeFamily(p.family).value ==> !ShareADay(t.1, p.window)
  {
    if ValidWindow(p.window) {
      forall t | t in reg.touched
        ensures TextOverlap(DateText(t.1.start), DateText(t.1.end), p.window) <==> ShareADay(t.1, p.window)
      {
        OverlapIsExact(t.1, p.window);
      }
    }
  }

  /** A run may start exactly when it is registered and bound, and its envelope, window and family verify. */
  lemma StartsExactly(reg: Registry, run: RunId)
    ensures MayStart(reg, run) <==>
              && run in reg.runs && reg.runs[run].state == Registered && run in reg.bindings
              && var b, r := reg.bindings[run], reg.runs[run];
                 && b.envelope.registration == b.registration && b.envelope.strategy == b.strategy
                 && ValidWindow(b.envelope.outOfSample)
                 && (b.registration == Preregistered ==> r.prediction.Some? && r.prediction.value in reg.predictions)
                 && NormalizeFamily(
                      if b.registration == Preregistered then reg.predictions[r.prediction.value].family
                      else b.strategy).Some?
  {
  }

  /**
   What starting stores: the state, the time, and the run's whole window under its normalized
   family; nothing else.
   */
  lemma StartStores(reg: Registry, run: RunId, at: Time)
    requires MayStart(reg, run)
    ensures var n, b, r := Start(reg, run, at), reg.bindings[run], reg.runs[run];
            var family := NormalizeFamily(
              if b.registration == Preregistered then reg.predictions[r.prediction.value].family else b.strategy);
            && n.runs == reg.runs[run := Run(r.prediction, Running, Some(at), r.completed, r.exitCode, r.note)]
            && n.touched == reg.touched + {(family.value, b.envelope.outOfSample)}
            && n.predictions == reg.predictions && n.bindings == reg.bindings
            && n.imports == reg.imports && n.results == reg.results
  {
  }

  /**
   What an import stores: a terminal unpredicted run with the evidence's outcome, its binding, its
   window, its row.
   */
  lemma ImportStores(reg: Registry, run: RunId, key: Key, e: ExternalEvidence, at: Time)
    requires MayImport(reg, run, key, e, at)
    ensures var n := ImportExternal(reg, run, key, e, at);
            && n.imports == reg.imports[(e.system, e.sourceRun) := Import(run, e, at)]
            && n.runs == reg.runs[run := Run(None, if e.exitCode == 0 && e.note.None? then Completed else Failed,
                                             Some(e.started), Some(e.completed), Some(e.exitCode), e.note)]
            && n.touched == reg.touched + {(NormalizeFamily(e.strategy).value, e.outOfSample)}
            && n.predictions == reg.predictions && n.results == reg.results
            && n.bindings.Keys == reg.bindings.Keys + {run}
            && (forall r :: r in reg.bindings ==> n.bindings[r] == reg.bindings[r])
            && var b := n.bindings[run];
               && b.key == key && b.registration == External && b.strategy == e.strategy && b.dataset == e.dataset
               && b.envelope.run == run && b.envelope.prediction.None? && b.envelope.outOfSample == e.outOfSample
               && b.envelope.inSample == e.inSample && b.envelope.gitCommit == e.gitCommit
               && b.envelope.metrics == e.metrics && b.request == e.payload
  {
  }

  // ---------------------------------------------------------------- ingestion

  /** Evidence that a run's rows bear out, field by field. */
  lemma ProvenanceMeans(reg: Registry, e: Evidence)
    ensures ProvenanceMatches(reg, e) <==>
              && e.run in reg.runs && e.run in reg.bindings
              && reg.runs[e.run].state == Completed && reg.runs[e.run].exitCode == Some(0) && reg.runs[e.run].note.None?
              && var b, r := reg.bindings[e.run], reg.runs[e.run];
                 && e.envelope == b.envelope && b.envelope.run == e.run
                 && e.prediction == r.prediction && b.envelope.prediction == r.prediction
                 && e.registration == b.registration && b.envelope.registration == b.registration
                 && e.strategy == b.strategy && b.envelope.strategy == b.strategy
                 && e.dataset == b.dataset && b.envelope.dataset == b.dataset
                 && e.gitCommit == b.envelope.gitCommit && e.metrics == b.envelope.metrics
                 && e.inSample == b.envelope.inSample && e.outOfSample == b.envelope.outOfSample
  {
  }

  /**
   Ingestion, exactly: evidence is stored when the run has none, its provenance and times match and no
   other run holds it; it conflicts when the run holds other evidence; every other answer stores nothing.
   */
  lemma IngestExactly(reg: Registry, e: Evidence, now: Time)
    requires RegistryOk(reg)
    ensures var (n, o) := Ingest(reg, e, now);
            && (o == EvidenceConflict <==> e.run in reg.results && reg.results[e.run].evidence != e)
            && (o == Ingested(false) <==> e.run in reg.results && reg.results[e.run].evidence == e)
            && (o == Ingested(true) <==>
                  && e.run !in reg.results && ProvenanceMatches(reg, e)
                  && reg.runs[e.run].executionStarted.Some? && reg.runs[e.run].completed.Some?
                  && reg.runs[e.run].executionStarted.value <= e.source <= now && reg.runs[e.run].completed.value <= now
                  && forall r :: r in reg.results ==> reg.results[r].evidence != e)
            && n == reg.(results := if o == Ingested(true) then reg.results[e.run := Result(e, now)] else reg.results)
  {
    if e.run in reg.results && reg.results[e.run].evidence == e {
      ResultRetryIsIdempotent(reg, e.run, now);
    }
  }
}
