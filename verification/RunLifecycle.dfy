/**
 Several wrapper processes racing and crashing around one registry: at-most-once launch, orphan
 reconciliation under the per-run lease, permanent touched windows and result evidence, over every
 interleaving.
 */
module RunLifecycle {
  import opened Basics
  import opened IsoText
  import opened RunRegistry

  type WrapperId = nat

  /** Where a wrapper stands in `_execute` / `_execute_locked`. */
  datatype Pc =
    | Looking | Leasing                    // before the lease
    | Locked | Orphaning | Starting        // holding it, before `start_run`
    | Started | Executing                  // around the executor call
    | Recording(exitCode: int, note: Option<string>, executed: bool, raises: bool)
    | Reporting(executed: bool)

  datatype Wrapper = Wrapper(run: RunId, pc: Pc)
  datatype Report = Report(run: RunId, row: Run, executed: bool)

  datatype State = State(
    reg: Registry,
    wrappers: map<WrapperId, Wrapper>,
    used: set<WrapperId>,
    lease: map<RunId, WrapperId>,
    starter: map<RunId, WrapperId>,
    launched: seq<RunId>,
    reports: seq<Report>)

  const INIT := State(EMPTY, map[], {}, map[], map[], [], [])

  /** Transactions of the other services, which share the registry. */
  datatype Tx =
    | CommitTx(id: PredictionId, p: Prediction, viaCapture: bool)
    | BindTx(id: PredictionId, b: Binding)
    | ExploreTx(run: RunId, b: Binding)
    | ImportTx(run: RunId, key: Key, e: ExternalEvidence, at: Time)
    | IngestTx(ev: Evidence, at: Time)
    | MarkTx(family: string, w: Window)

  ghost predicate TxEnabled(reg: Registry, tx: Tx) {
    match tx
    case CommitTx(id, p, viaCapture) => MayCommit(reg, id, p, viaCapture)
    case BindTx(id, b) => MayBindPreregistered(reg, id, b)
    case ExploreTx(run, b) => MayCreateExploratory(reg, run, b)
    case ImportTx(run, key, e, at) => MayImport(reg, run, key, e, at)
    case IngestTx(_, _) => true
    case MarkTx(family, w) => ValidWindow(w) && NormalizeFamily(family).Some?
  }

  ghost function TxDo(reg: Registry, tx: Tx): Registry
    requires TxEnabled(reg, tx)
  {
    match tx
    case CommitTx(id, p, _) => CommitPrediction(reg, id, p)
    case BindTx(id, b) => Bind(reg, reg.predictions[id].run, b)
    case ExploreTx(run, b) => CreateExploratory(reg, run, b)
    case ImportTx(run, key, e, at) => ImportExternal(reg, run, key, e, at)
    case IngestTx(ev, at) => Ingest(reg, ev, at).0
    case MarkTx(family, w) => MarkTouched(reg, family, w)
  }

  datatype Step =
    | Transact(tx: Tx)
    | Open(w: WrapperId, run: RunId)
    | Look(w: WrapperId)
    | Acquire(w: WrapperId)
    | Decide(w: WrapperId)
    | Leave(w: WrapperId)                          // a refusal, an exception or a crash, at any point
    | OrphanFinish(w: WrapperId, at: Time)
    | StartRun(w: WrapperId, at: Time)
    | Launch(w: WrapperId)                         // the executor is called
    | Returned(w: WrapperId, exitCode: int)
    | Raised(w: WrapperId, note: string)
    | Interrupted(w: WrapperId)
    | FinishRun(w: WrapperId, at: Time)
    | Answer(w: WrapperId)

  predicate HoldsLease(pc: Pc) {
    !pc.Looking? && !pc.Leasing?
  }

  predicate TerminalState(r: RunState) {
    r == Completed || r == Failed
  }

  predicate Bound(reg: Registry, run: RunId) {
    run in reg.runs && run in reg.bindings
  }

  predicate At(s: State, w: WrapperId, pc: Pc) {
    w in s.wrappers && s.wrappers[w].pc == pc
  }

  ghost predicate Enabled(s: State, step: Step) {
    match step
    case Transact(tx) => TxEnabled(s.reg, tx)
    case Open(w, _) => w !in s.used
    case Look(w) => At(s, w, Looking)
    case Acquire(w) => At(s, w, Leasing) && s.wrappers[w].run !in s.lease
    case Decide(w) => At(s, w, Locked)
    case Leave(w) => w in s.wrappers
    case OrphanFinish(w, _) => At(s, w, Orphaning)
    case StartRun(w, _) => At(s, w, Starting) && MayStart(s.reg, s.wrappers[w].run)
    case Launch(w) => At(s, w, Started)
    case Returned(w, _) => At(s, w, Executing)
    case Raised(w, _) => At(s, w, Executing)
    case Interrupted(w) => At(s, w, Executing)
    case FinishRun(w, _) => w in s.wrappers && s.wrappers[w].pc.Recording?
    case Answer(w) => w in s.wrappers && s.wrappers[w].pc.Reporting?
  }

  function Moved(s: State, w: WrapperId, pc: Pc): State
    requires w in s.wrappers
  {
    s.(wrappers := s.wrappers[w := s.wrappers[w].(pc := pc)])
  }

  /** The wrapper is gone and its process-owned lease with it. */
  function Gone(s: State, w: WrapperId): State {
    s.(wrappers := s.wrappers - {w}, lease := map r | r in s.lease && s.lease[r] != w :: s.lease[r])
  }

  function Reported(s: State, run: RunId, executed: bool): State {
    if run in s.reg.runs then s.(reports := s.reports + [Report(run, s.reg.runs[run], executed)]) else s
  }

  /** `failure_note` of a process that returned. */
  function ExitNote(exitCode: int): Option<string> {
    if exitCode == 0 then None else Some("process exited with code " + IntText(exitCode))
  }

  const INTERRUPT_NOTE := "wrapper interrupted"
  const ORPHAN_NOTE := "wrapper exited before recording process completion"

  ghost function Do(s: State, step: Step): State
    requires Enabled(s, step)
  {
    match step
    case Transact(tx) => s.(reg := TxDo(s.reg, tx))
    case Open(w, run) => s.(wrappers := s.wrappers[w := Wrapper(run, Looking)], used := s.used + {w})
    case Look(w) => AfterLook(s, w)
    case Acquire(w) => Moved(s.(lease := s.lease[s.wrappers[w].run := w]), w, Locked)
    case Decide(w) => AfterDecide(s, w)
    case Leave(w) => Gone(s, w)
    case OrphanFinish(w, at) => Finished(s, w, at, 1, Some(ORPHAN_NOTE), false)
    case StartRun(w, at) =>
      Moved(s.(reg := Start(s.reg, s.wrappers[w].run, at), starter := s.starter[s.wrappers[w].run := w]), w, Started)
    case Launch(w) => Moved(s.(launched := s.launched + [s.wrappers[w].run]), w, Executing)
    case Returned(w, exitCode) =>
      Moved(s, w, Recording(exitCode, ExitNote(exitCode), true, false))
    case Raised(w, note) => Moved(s, w, Recording(1, Some(note), false, false))
    case Interrupted(w) => Moved(s, w, Recording(130, Some(INTERRUPT_NOTE), false, true))
    case FinishRun(w, at) => AfterRecording(s, w, at)
    case Answer(w) => Gone(Reported(s, s.wrappers[w].run, s.wrappers[w].pc.executed), w)
  }

  /** The first read of `_execute`, before any lease. */
  function AfterLook(s: State, w: WrapperId): State
    requires w in s.wrappers
  {
    var run := s.wrappers[w].run;
    if !Bound(s.reg, run) then Gone(s, w)
    else if TerminalState(s.reg.runs[run].state) then Gone(Reported(s, run, false), w)
    else Moved(s, w, Leasing)
  }

  /** The read of `_execute_locked`, under the lease. */
  function AfterDecide(s: State, w: WrapperId): State
    requires w in s.wrappers
  {
    var run := s.wrappers[w].run;
    if !Bound(s.reg, run) then Gone(s, w)
    else match s.reg.runs[run].state
      case Running => Moved(s, w, Orphaning)
      case Registered => Moved(s, w, Starting)
      case _ => Gone(Reported(s, run, false), w)
  }

  /** `finish_run`, which raises unless the run is running. */
  function Finished(s: State, w: WrapperId, at: Time, exitCode: int, note: Option<string>, executed: bool): State
    requires w in s.wrappers
  {
    var run := s.wrappers[w].run;
    if run in s.reg.runs && s.reg.runs[run].state == Running then
      Moved(s.(reg := Finish(s.reg, run, at, exitCode, note)), w, Reporting(executed))
    else Gone(s, w)
  }

  /** The outcome is stored; an interrupt is raised again, so its wrapper leaves without an answer. */
  function AfterRecording(s: State, w: WrapperId, at: Time): State
    requires w in s.wrappers && s.wrappers[w].pc.Recording?
  {
    var pc := s.wrappers[w].pc;
    var t := Finished(s, w, at, pc.exitCode, pc.note, pc.executed);
    if pc.raises then Gone(t, w) else t
  }

  ghost predicate Legal(s: State, steps: seq<Step>)
    decreases |steps|
  {
    steps == [] || (Enabled(s, steps[0]) && Legal(Do(s, steps[0]), steps[1..]))
  }

  ghost function Exec(s: State, steps: seq<Step>): State
    requires Legal(s, steps)
    decreases |steps|
  {
    if steps == [] then s else Exec(Do(s, steps[0]), steps[1..])
  }

  // ---------------------------------------------------------------- invariant

  ghost predicate LeaseOk(s: State) {
    && (forall r :: r in s.lease ==>
          s.lease[r] in s.wrappers && s.wrappers[s.lease[r]].run == r && HoldsLease(s.wrappers[s.lease[r]].pc))
    && (forall w :: w in s.wrappers && HoldsLease(s.wrappers[w].pc) ==>
          s.wrappers[w].run in s.lease && s.lease[s.wrappers[w].run] == w)
    && (forall w :: w in s.wrappers ==> w in s.used)
    && (forall r :: r in s.starter ==> s.starter[r] in s.used)
  }

  predicate Early(pc: Pc) {
    pc.Looking? || pc.Leasing? || pc.Locked? || pc.Orphaning? || pc.Starting?
  }

  predicate Active(pc: Pc) {
    pc.Started? || pc.Executing? || pc.Recording?
  }

  ghost predicate WrapperOk(s: State, w: WrapperId)
    requires w in s.wrappers
  {
    var run, pc := s.wrappers[w].run, s.wrappers[w].pc;
    && (Early(pc) ==> forall r :: r in s.starter ==> s.starter[r] != w)
    && (!pc.Looking? && !pc.Leasing? && !pc.Locked? ==> Bound(s.reg, run))
    && (pc.Orphaning? ==> s.reg.runs[run].state == Running)
    && (pc.Starting? ==> s.reg.runs[run].state == Registered)
    && (Active(pc) ==> s.reg.runs[run].state == Running && run in s.starter && s.starter[run] == w)
    && (pc.Started? ==> run !in s.launched)
    && (pc.Reporting? ==> TerminalState(s.reg.runs[run].state))
  }

  ghost predicate HistoryOk(s: State) {
    && (forall i :: 0 <= i < |s.launched| ==>
          s.launched[i] in s.reg.runs && s.reg.runs[s.launched[i]].state != Registered)
    && (forall i, j :: 0 <= i < j < |s.launched| ==> s.launched[i] != s.launched[j])
    && (forall r :: r in s.reports ==> r.run in s.reg.runs && r.row == s.reg.runs[r.run] && TerminalState(r.row.state))
  }

  ghost predicate WrappersOk(s: State) {
    && LeaseOk(s) && HistoryOk(s)
    && (forall w :: w in s.wrappers ==> WrapperOk(s, w))
  }

  ghost predicate Inv(s: State) {
    RegistryOk(s.reg) && WrappersOk(s)
  }

  // ---------------------------------------------------------------- preservation

  /** Other services never rewrite an existing run. */
  lemma TxKeeps(reg: Registry, tx: Tx)
    requires RegistryOk(reg) && TxEnabled(reg, tx)
    ensures RegistryOk(TxDo(reg, tx)) && Extends(reg, TxDo(reg, tx))
  {
    match tx
    case CommitTx(id, p, _) => CommitKeeps(reg, id, p);
    case BindTx(id, b) => BindKeeps(reg, reg.predictions[id].run, b);
    case ExploreTx(run, b) => ExploratoryKeeps(reg, run, b);
    case ImportTx(run, key, e, at) => ImportKeeps(reg, run, key, e, at);
    case IngestTx(ev, at) => IngestKeeps(reg, ev, at);
    case MarkTx(family, w) => MarkKeeps(reg, family, w);
  }

  lemma TxTouchesNoRun(reg: Registry, tx: Tx)
    requires TxEnabled(reg, tx)
    ensures forall r :: r in reg.runs ==> r in TxDo(reg, tx).runs && TxDo(reg, tx).runs[r] == reg.runs[r]
  {
    if tx.ImportTx? { ImportTouchesOneRun(reg, tx.run, tx.key, tx.e, tx.at); }
  }

  lemma ImportTouchesOneRun(reg: Registry, run: RunId, key: Key, e: ExternalEvidence, at: Time)
    requires MayImport(reg, run, key, e, at)
    ensures var n := ImportExternal(reg, run, key, e, at);
            forall r :: r in reg.runs ==> r in n.runs && n.runs[r] == reg.runs[r]
  {
  }

  lemma TransactKeepsInv(s: State, tx: Tx)
    requires Inv(s) && TxEnabled(s.reg, tx)
    ensures Inv(Do(s, Transact(tx)))
  {
    TxKeeps(s.reg, tx);
    TxTouchesNoRun(s.reg, tx);
    var s' := Do(s, Transact(tx));
    forall w | w in s'.wrappers ensures WrapperOk(s', w) { assert WrapperOk(s, w); }
  }

  lemma MovedKeepsInv(s: State, w: WrapperId, pc: Pc)
    requires Inv(s) && w in s.wrappers && HoldsLease(s.wrappers[w].pc) == HoldsLease(pc)
    requires WrapperOk(Moved(s, w, pc), w)
    ensures Inv(Moved(s, w, pc))
  {
    MovedKeepsWrappers(s, w, pc);
  }

  lemma MovedKeepsWrappers(s: State, w: WrapperId, pc: Pc)
    requires WrappersOk(s) && w in s.wrappers && HoldsLease(s.wrappers[w].pc) == HoldsLease(pc)
    requires WrapperOk(Moved(s, w, pc), w)
    ensures WrappersOk(Moved(s, w, pc))
  {
    var s' := Moved(s, w, pc);
    forall v | v in s'.wrappers ensures WrapperOk(s', v) { if v != w { assert WrapperOk(s, v); } }
  }

  lemma GoneKeepsInv(s: State, w: WrapperId)
    requires Inv(s)
    ensures Inv(Gone(s, w))
  {
    var s' := Gone(s, w);
    forall v | v in s'.wrappers ensures WrapperOk(s', v) { assert WrapperOk(s, v); }
  }

  lemma ReportedKeepsInv(s: State, run: RunId, executed: bool)
    requires Inv(s) && run in s.reg.runs && TerminalState(s.reg.runs[run].state)
    ensures Inv(Reported(s, run, executed))
  {
    var s' := Reported(s, run, executed);
    forall v | v in s'.wrappers ensures WrapperOk(s', v) { assert WrapperOk(s, v); }
  }

  lemma OpenKeepsInv(s: State, w: WrapperId, run: RunId)
    requires Inv(s) && w !in s.used
    ensures Inv(Do(s, Open(w, run)))
  {
    var s' := Do(s, Open(w, run));
    forall v | v in s'.wrappers ensures WrapperOk(s', v) { if v != w { assert WrapperOk(s, v); } }
  }

  lemma AcquireKeepsInv(s: State, w: WrapperId)
    requires Inv(s) && Enabled(s, Acquire(w))
    ensures Inv(Do(s, Acquire(w)))
  {
    var s' := Do(s, Acquire(w));
    assert WrapperOk(s, w);
    forall v | v in s'.wrappers ensures WrapperOk(s', v) { if v != w { assert WrapperOk(s, v); } }
  }

  /** A lease holder's update of its own run disturbs no other wrapper. */
  lemma OwnRunUpdateKeeps(s: State, s': State, w: WrapperId, pc: Pc)
    requires WrappersOk(s) && w in s.wrappers && HoldsLease(s.wrappers[w].pc) && HoldsLease(pc)
    requires Extends(s.reg, s'.reg)
    requires s'.used == s.used && s'.lease == s.lease && s'.reports == s.reports
             && s'.wrappers == s.wrappers[w := s.wrappers[w].(pc := pc)]
    requires s'.launched == s.launched && (s'.starter == s.starter || s'.starter == s.starter[s.wrappers[w].run := w])
    requires forall r :: r in s.reg.runs && r != s.wrappers[w].run ==> s'.reg.runs[r] == s.reg.runs[r]
    requires s.wrappers[w].run in s.reg.runs && s'.reg.runs[s.wrappers[w].run].state != Registered
    requires WrapperOk(s', w)
    ensures WrappersOk(s')
  {
    assert LeaseOk(s');
    forall v | v in s'.wrappers ensures WrapperOk(s', v) {
      if v != w { OthersKeep(s, s', w, v); }
    }
    HistoryKeeps(s, s', s.wrappers[w].run);
  }

  lemma OthersKeep(s: State, s': State, w: WrapperId, v: WrapperId)
    requires LeaseOk(s) && w in s.wrappers && v in s.wrappers && v != w && HoldsLease(s.wrappers[w].pc)
    requires v in s'.wrappers && s'.wrappers[v] == s.wrappers[v] && WrapperOk(s, v)
    requires Extends(s.reg, s'.reg) && s'.launched == s.launched
    requires s'.starter == s.starter || s'.starter == s.starter[s.wrappers[w].run := w]
    requires forall r :: r in s.reg.runs && r != s.wrappers[w].run ==> s'.reg.runs[r] == s.reg.runs[r]
    ensures WrapperOk(s', v)
  {
    assert HoldsLease(s.wrappers[v].pc) ==> s.wrappers[v].run != s.wrappers[w].run;
  }

  lemma HistoryKeeps(s: State, s': State, run: RunId)
    requires HistoryOk(s) && Extends(s.reg, s'.reg) && s'.launched == s.launched && s'.reports == s.reports
    requires forall r :: r in s.reg.runs && r != run ==> s'.reg.runs[r] == s.reg.runs[r]
    requires run in s.reg.runs && s'.reg.runs[run].state != Registered
    ensures HistoryOk(s')
  {
  }

  lemma StartOk(s: State, w: WrapperId, at: Time)
    requires Inv(s) && Enabled(s, StartRun(w, at))
    ensures WrapperOk(Do(s, StartRun(w, at)), w)
    ensures s.wrappers[w].run in s.reg.runs
  {
    assert WrapperOk(s, w);
    assert s.wrappers[w].run !in s.launched;
  }

  lemma StartKeepsWrappers(s: State, w: WrapperId, at: Time)
    requires WrappersOk(s) && Enabled(s, StartRun(w, at)) && Extends(s.reg, Start(s.reg, s.wrappers[w].run, at))
    requires WrapperOk(Do(s, StartRun(w, at)), w)
    ensures WrappersOk(Do(s, StartRun(w, at)))
  {
    OwnRunUpdateKeeps(s, Do(s, StartRun(w, at)), w, Started);
  }

  lemma StartKeepsInv(s: State, w: WrapperId, at: Time)
    requires Inv(s) && Enabled(s, StartRun(w, at))
    ensures Inv(Do(s, StartRun(w, at)))
  {
    StartOk(s, w, at);
    StartKeeps(s.reg, s.wrappers[w].run, at);
    StartKeepsWrappers(s, w, at);
  }

  lemma FinishedOk(s: State, w: WrapperId, at: Time, exitCode: int, note: Option<string>, executed: bool)
    requires Inv(s) && w in s.wrappers && (s.wrappers[w].pc.Orphaning? || s.wrappers[w].pc.Recording?)
    ensures s.wrappers[w].run in s.reg.runs && s.reg.runs[s.wrappers[w].run].state == Running
    ensures w in Finished(s, w, at, exitCode, note, executed).wrappers
            && WrapperOk(Finished(s, w, at, exitCode, note, executed), w)
  {
    assert WrapperOk(s, w);
  }

  lemma FinishedKeepsWrappers(s: State, w: WrapperId, at: Time, exitCode: int, note: Option<string>, executed: bool)
    requires WrappersOk(s) && w in s.wrappers && (s.wrappers[w].pc.Orphaning? || s.wrappers[w].pc.Recording?)
    requires s.wrappers[w].run in s.reg.runs && s.reg.runs[s.wrappers[w].run].state == Running
    requires Extends(s.reg, Finish(s.reg, s.wrappers[w].run, at, exitCode, note))
    requires WrapperOk(Finished(s, w, at, exitCode, note, executed), w)
    ensures WrappersOk(Finished(s, w, at, exitCode, note, executed))
  {
    OwnRunUpdateKeeps(s, Finished(s, w, at, exitCode, note, executed), w, Reporting(executed));
  }

  lemma FinishedKeepsInv(s: State, w: WrapperId, at: Time, exitCode: int, note: Option<string>, executed: bool)
    requires Inv(s) && w in s.wrappers && (s.wrappers[w].pc.Orphaning? || s.wrappers[w].pc.Recording?)
    ensures Inv(Finished(s, w, at, exitCode, note, executed))
    ensures s.wrappers[w].run in s.reg.runs && s.reg.runs[s.wrappers[w].run].state == Running
  {
    FinishedOk(s, w, at, exitCode, note, executed);
    FinishKeeps(s.reg, s.wrappers[w].run, at, exitCode, note);
    FinishedKeepsWrappers(s, w, at, exitCode, note, executed);
  }

  /** The launch list stays free of repeats: a started run is not yet in it. */
  lemma LaunchHistory(s: State, w: WrapperId)
    requires HistoryOk(s) && Enabled(s, Launch(w)) && WrapperOk(s, w)
    ensures HistoryOk(Do(s, Launch(w)))
  {
  }

  lemma LaunchKeepsWrappers(s: State, w: WrapperId)
    requires WrappersOk(s) && Enabled(s, Launch(w))
    ensures WrappersOk(Do(s, Launch(w)))
  {
    var s' := Do(s, Launch(w));
    assert WrapperOk(s, w);
    LaunchHistory(s, w);
    forall v | v in s'.wrappers ensures WrapperOk(s', v) {
      assert WrapperOk(s, v);
      assert v != w && HoldsLease(s.wrappers[v].pc) ==> s.wrappers[v].run != s.wrappers[w].run;
    }
  }

  lemma LaunchKeepsInv(s: State, w: WrapperId)
    requires Inv(s) && Enabled(s, Launch(w))
    ensures Inv(Do(s, Launch(w)))
  {
    LaunchKeepsWrappers(s, w);
  }

  lemma OutcomeKeepsInv(s: State, w: WrapperId, pc: Pc)
    requires Inv(s) && At(s, w, Executing) && pc.Recording?
    ensures Inv(Moved(s, w, pc))
  {
    assert WrapperOk(s, w);
    MovedKeepsInv(s, w, pc);
  }

  lemma RecordingKeepsInv(s: State, w: WrapperId, at: Time)
    requires Inv(s) && Enabled(s, FinishRun(w, at))
    ensures Inv(AfterRecording(s, w, at))
  {
    var pc := s.wrappers[w].pc;
    FinishedKeepsInv(s, w, at, pc.exitCode, pc.note, pc.executed);
    if pc.raises { GoneKeepsInv(Finished(s, w, at, pc.exitCode, pc.note, pc.executed), w); }
  }

  lemma AnswerKeepsInv(s: State, w: WrapperId)
    requires Inv(s) && Enabled(s, Answer(w))
    ensures Inv(Do(s, Answer(w)))
  {
    assert WrapperOk(s, w);
    ReportedKeepsInv(s, s.wrappers[w].run, s.wrappers[w].pc.executed);
    GoneKeepsInv(Reported(s, s.wrappers[w].run, s.wrappers[w].pc.executed), w);
  }

  /** Steps before a run starts, and departures. */
  lemma EarlyStepKeepsInv(s: State, step: Step)
    requires Inv(s) && Enabled(s, step)
    requires step.Transact? || step.Open? || step.Look? || step.Acquire? || step.Decide? || step.Leave?
    ensures Inv(Do(s, step))
  {
    match step
    case Transact(tx) => TransactKeepsInv(s, tx);
    case Open(w, run) => OpenKeepsInv(s, w, run);
    case Look(w) => LookKeepsInv(s, w);
    case Acquire(w) => AcquireKeepsInv(s, w);
    case Decide(w) => DecideKeepsInv(s, w);
    case Leave(w) => GoneKeepsInv(s, w);
  }

  lemma StepKeepsInv(s: State, step: Step)
    requires Inv(s) && Enabled(s, step)
    ensures Inv(Do(s, step))
  {
    match step
    case OrphanFinish(w, at) => FinishedKeepsInv(s, w, at, 1, Some(ORPHAN_NOTE), false);
    case StartRun(w, at) => StartKeepsInv(s, w, at);
    case Launch(w) => LaunchKeepsInv(s, w);
    case Returned(w, exitCode) =>
      OutcomeKeepsInv(s, w, Recording(exitCode, ExitNote(exitCode), true, false));
    case Raised(w, note) => OutcomeKeepsInv(s, w, Recording(1, Some(note), false, false));
    case Interrupted(w) => OutcomeKeepsInv(s, w, Recording(130, Some(INTERRUPT_NOTE), false, true));
    case FinishRun(w, at) => RecordingKeepsInv(s, w, at);
    case Answer(w) => AnswerKeepsInv(s, w);
    case _ => EarlyStepKeepsInv(s, step);
  }

  lemma LookKeepsInv(s: State, w: WrapperId)
    requires Inv(s) && Enabled(s, Look(w))
    ensures Inv(Do(s, Look(w)))
  {
    var run := s.wrappers[w].run;
    assert WrapperOk(s, w);
    if !Bound(s.reg, run) { GoneKeepsInv(s, w); }
    else if TerminalState(s.reg.runs[run].state) { ReportedKeepsInv(s, run, false);
        GoneKeepsInv(Reported(s, run, false), w); }
    else { MovedKeepsInv(s, w, Leasing); }
  }

  lemma DecideKeepsInv(s: State, w: WrapperId)
    requires Inv(s) && Enabled(s, Decide(w))
    ensures Inv(Do(s, Decide(w)))
  {
    var run := s.wrappers[w].run;
    assert WrapperOk(s, w);
    if !Bound(s.reg, run) { GoneKeepsInv(s, w); }
    else if s.reg.runs[run].state == Running { MovedKeepsInv(s, w, Orphaning); }
    else if s.reg.runs[run].state == Registered { MovedKeepsInv(s, w, Starting); }
    else { ReportedKeepsInv(s, run, false); GoneKeepsInv(Reported(s, run, false), w); }
  }

  lemma {:induction false} RunKeepsInv(s: State, steps: seq<Step>)
    requires Inv(s) && Legal(s, steps)
    ensures Inv(Exec(s, steps))
    decreases |steps|
  {
    if steps != [] {
      StepKeepsInv(s, steps[0]);
      RunKeepsInv(Do(s, steps[0]), steps[1..]);
    }
  }

  // ---------------------------------------------------------------- theorems

  /** The executor is called at most once per run. */
  lemma AtMostOnceLaunch(steps: seq<Step>, i: nat, j: nat)
    requires Legal(INIT, steps) && i < j < |Exec(INIT, steps).launched|
    ensures Exec(INIT, steps).launched[i] != Exec(INIT, steps).launched[j]
  {
    RunKeepsInv(INIT, steps);
  }

  /** A run is failed as orphaned only when whoever started it no longer holds the lease or runs. */
  lemma OrphansAreAbandoned(steps: seq<Step>, w: WrapperId, at: Time)
    requires Legal(INIT, steps) && Enabled(Exec(INIT, steps), OrphanFinish(w, at))
    ensures var s := Exec(INIT, steps);
            var run := s.wrappers[w].run;
            && run in s.reg.runs && s.reg.runs[run].state == Running && run in s.lease && s.lease[run] == w
            && (run in s.starter ==> s.starter[run] != w)
            && forall v :: v in s.wrappers && s.wrappers[v].run == run ==> !Active(s.wrappers[v].pc)
  {
    RunKeepsInv(INIT, steps);
    var s := Exec(INIT, steps);
    assert WrapperOk(s, w);
    forall v | v in s.wrappers && s.wrappers[v].run == s.wrappers[w].run ensures !Active(s.wrappers[v].pc) {
      assert WrapperOk(s, v);
    }
  }

  /** Every answer after a terminal state is the stored outcome, the same for every retry. */
  lemma RetriesAgree(steps: seq<Step>, i: nat, j: nat)
    requires Legal(INIT, steps)
    requires var rs := Exec(INIT, steps).reports; i < |rs| && j < |rs| && rs[i].run == rs[j].run
    ensures var s := Exec(INIT, steps);
            && s.reports[i].row == s.reports[j].row && s.reports[i].run in s.reg.runs
            && s.reports[i].row == s.reg.runs[s.reports[i].run]
            && TerminalState(s.reports[i].row.state)
  {
    RunKeepsInv(INIT, steps);
    var rs := Exec(INIT, steps).reports;
    assert rs[i] in rs && rs[j] in rs;
  }

  lemma FinishedExtends(s: State, w: WrapperId, at: Time, exitCode: int, note: Option<string>, executed: bool)
    requires Inv(s) && w in s.wrappers && (s.wrappers[w].pc.Orphaning? || s.wrappers[w].pc.Recording?)
    ensures Extends(s.reg, Finished(s, w, at, exitCode, note, executed).reg)
  {
    assert WrapperOk(s, w);
    FinishKeeps(s.reg, s.wrappers[w].run, at, exitCode, note);
  }

  lemma OtherStepsLeaveRegistry(s: State, step: Step)
    requires Enabled(s, step) && !step.Transact? && !step.StartRun? && !step.OrphanFinish? && !step.FinishRun?
    ensures Do(s, step).reg == s.reg
  {
  }

  lemma StepExtends(s: State, step: Step)
    requires Inv(s) && Enabled(s, step)
    ensures Extends(s.reg, Do(s, step).reg)
  {
    match step
    case Transact(tx) => TxKeeps(s.reg, tx);
    case StartRun(w, at) => StartKeeps(s.reg, s.wrappers[w].run, at);
    case OrphanFinish(w, at) => FinishedExtends(s, w, at, 1, Some(ORPHAN_NOTE), false);
    case FinishRun(w, at) => FinishedExtends(s, w, at, s.wrappers[w].pc.exitCode, s.wrappers[w].pc.note,
        s.wrappers[w].pc.executed);
    case _ => OtherStepsLeaveRegistry(s, step);
  }

  /** Terminal runs, bindings, evidence and touched windows are permanent. */
  lemma {:induction false} RunExtends(s: State, steps: seq<Step>)
    requires Inv(s) && Legal(s, steps)
    ensures Extends(s.reg, Exec(s, steps).reg)
    decreases |steps|
  {
    if steps != [] {
      StepExtends(s, steps[0]);
      StepKeepsInv(s, steps[0]);
      RunExtends(Do(s, steps[0]), steps[1..]);
      ExtendsTransitive(s.reg, Do(s, steps[0]).reg, Exec(s, steps).reg);
    }
  }

  /** Freshness for ever: once a run has started, no later capture of its family commits one of its days. */
  lemma FreshForever(steps: seq<Step>, more: seq<Step>, run: RunId, id: PredictionId, p: Prediction)
    requires Legal(INIT, steps) && Legal(Exec(INIT, steps), more)
    requires run in Exec(INIT, steps).reg.runs && Exec(INIT, steps).reg.runs[run].executionStarted.Some?
    requires Enabled(Exec(Exec(INIT, steps), more), Transact(CommitTx(id, p, true)))
    ensures run in Exec(INIT, steps).reg.bindings
    ensures var reg, later := Exec(INIT, steps).reg, Exec(Exec(INIT, steps), more).reg;
            var b, r := reg.bindings[run], reg.runs[run];
            && (b.registration == Preregistered ==> r.prediction.Some? && r.prediction.value in reg.predictions)
            && var family := NormalizeFamily(
                 if b.registration == Preregistered then reg.predictions[r.prediction.value].family else b.strategy);
               && family.Some? && (family.value, b.envelope.outOfSample) in later.touched
               && (NormalizeFamily(p.family) == family ==> !ShareADay(b.envelope.outOfSample, p.window))
  {
    RunKeepsInv(INIT, steps);
    var s := Exec(INIT, steps);
    RunKeepsInv(s, more);
    RunExtends(s, more);
    var t := Exec(s, more);
    assert RunOk(s.reg, run) && RunOk(t.reg, run);
    CaptureIsFresh(t.reg, id, p, run);
  }

  /** Stored evidence belongs, for ever, to a completed run whose provenance and times it matches. */
  lemma EvidenceIsBound(steps: seq<Step>, more: seq<Step>, run: RunId)
    requires Legal(INIT, steps) && Legal(Exec(INIT, steps), more) && run in Exec(INIT, steps).reg.results
    ensures var reg := Exec(Exec(INIT, steps), more).reg;
            && run in reg.results && reg.results[run] == Exec(INIT, steps).reg.results[run]
            && var e := reg.results[run].evidence;
               && e.run == run && run in reg.runs && run in reg.bindings
               && reg.runs[run].state == Completed && reg.runs[run].exitCode == Some(0) && reg.runs[run].note.None?
               && reg.runs[run].executionStarted.Some?
               && reg.runs[run].executionStarted.value <= e.source <= reg.results[run].ingested
               && var b, r := reg.bindings[run], reg.runs[run];
                  && e.envelope == b.envelope && e.prediction == r.prediction && e.registration == b.registration
                  && e.strategy == b.strategy && e.dataset == b.dataset
                  && e.gitCommit == b.envelope.gitCommit && e.metrics == b.envelope.metrics
                  && e.inSample == b.envelope.inSample && e.outOfSample == b.envelope.outOfSample
  {
    RunKeepsInv(INIT, steps);
    var s := Exec(INIT, steps);
    RunKeepsInv(s, more);
    RunExtends(s, more);
    assert ResultOk(Exec(s, more).reg, run);
    ProvenanceMeans(Exec(s, more).reg, Exec(s, more).reg.results[run].evidence);
  }
}
