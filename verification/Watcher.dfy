/**
 The vault watcher on snapshot files: raw events are normalized against the last known fingerprint,
 merged by the debouncer and dispatched as violations. Paths here lie beneath the snapshot directory
 and are not the writer's temporaries, so every delivery goes through `_dispatch_snapshot`.
 */
module WatcherModel {
  import opened Basics
  import opened DebouncerModel

  datatype Change = Created | Modified | Moved | Deleted | Replaced
  datatype Fingerprint = Fingerprint(inode: nat, size: nat, mtime: int)
  datatype Reason = SnapshotRewritten | SnapshotDeleted | UnregisteredSnapshot

  /** `_normalize_change`: the new entry of `_known_files` for the path, and the change to submit. */
  function Normalize(known: Option<Fingerprint>, raw: Change, disk: Option<Fingerprint>): (Option<Fingerprint>,
      Option<Change>) {
    if raw == Deleted || disk.None? then (None, if known.Some? then Some(Deleted) else None)
    else if known == disk then (known, None)
    else if known.None? then (disk, Some(if raw != Moved then Created else raw))
    else (disk, Some(Modified))
  }

  /** `_merge_path_events`; the debouncer's key is the path, so both events are about one file. */
  function MergeChanges(previous: Change, current: Change): Change {
    if current == Deleted then Deleted
    else if previous == Deleted then Replaced
    else if previous == Created then Created
    else current
  }

  /** `_dispatch_snapshot`: what is reported, and whether the path is forgotten. */
  function DispatchSnapshot(change: Change, exists_: bool, registered: bool): (Option<Reason>, bool) {
    if change == Deleted then (Some(SnapshotDeleted), false)
    else if change == Modified || change == Replaced then (Some(SnapshotRewritten), false)
    else if !exists_ then (None, true)
    else if !registered then (Some(UnregisteredSnapshot), false)
    else (None, false)
  }

  // ---------------------------------------------------------------- the machine

  datatype Report = Report(path: Key, reason: Reason)
  datatype Watch = Watch(known: map<Key, Fingerprint>, queue: State<Change>, reports: seq<Report>)

  /** A raw event with the fingerprint read while handling it, or a step of the debouncer. */
  datatype Act =
    | Observe(path: Key, raw: Change, disk: Option<Fingerprint>)
    | Expire(timer: nat)
    | Shut(flush: bool, order: seq<Key>)
    | Dispatch(position: nat, exists_: bool, registered: bool)

  function Lookup(known: map<Key, Fingerprint>, p: Key): Option<Fingerprint> {
    if p in known then Some(known[p]) else None
  }

  function Remember(known: map<Key, Fingerprint>, p: Key, f: Option<Fingerprint>): map<Key, Fingerprint> {
    if f.Some? then known[p := f.value] else known - {p}
  }

  predicate CanAct(w: Watch, a: Act) {
    match a
    case Observe(_, raw, _) => raw != Replaced
    case Expire(timer) => timer < |w.queue.timers|
    case Shut(_, order) => Lists(order, w.queue.pending.Keys)
    case Dispatch(i, _, _) => i < |w.queue.popped| && i !in w.queue.delivered
  }

  function SubmitChange(q: State<Change>, p: Key, c: Option<Change>): State<Change> {
    if c.None? then q else DoSubmit(MergeChanges, q, p, c.value)
  }

  function Act1(w: Watch, a: Act): Watch
    requires CanAct(w, a)
  {
    match a
    case Observe(p, raw, disk) =>
      var (f, c) := Normalize(Lookup(w.known, p), raw, disk);
      w.(known := Remember(w.known, p, f), queue := SubmitChange(w.queue, p, c))
    case Expire(timer) => w.(queue := DoFire(w.queue, timer))
    case Shut(flush, order) => w.(queue := DoClose(w.queue, flush, order))
    case Dispatch(i, exists_, registered) =>
      var e := w.queue.popped[i];
      var (reason, forget) := DispatchSnapshot(e.event, exists_, registered);
      Watch(if forget then w.known - {e.key} else w.known,
            w.queue.(delivered := w.queue.delivered + [i]),
            if reason.Some? then w.reports + [Report(e.key, reason.value)] else w.reports)
  }

  predicate Feasible(w: Watch, acts: seq<Act>)
    decreases |acts|
  {
    acts == [] || (CanAct(w, acts[0]) && Feasible(Act1(w, acts[0]), acts[1..]))
  }

  function Watched(w: Watch, acts: seq<Act>): Watch
    requires Feasible(w, acts)
    decreases |acts|
  {
    if acts == [] then w else Watched(Act1(w, acts[0]), acts[1..])
  }

  predicate Flushes(acts: seq<Act>) {
    forall i :: 0 <= i < |acts| ==> acts[i].Shut? ==> acts[i].flush
  }

  // ---------------------------------------------------------------- no swallowed change

  /** The observation shows something other than the baseline file. */
  predicate Differs(a: Act, p: Key, baseline: Fingerprint) {
    a.Observe? && a.path == p && (a.raw == Deleted || a.disk != Some(baseline))
  }

  /** Some observation made before the watcher was shut differs from the baseline. */
  predicate SawChange(w: Watch, acts: seq<Act>, p: Key, baseline: Fingerprint)
    requires Feasible(w, acts)
    decreases |acts|
  {
    acts != [] && ((!w.queue.closed && Differs(acts[0], p, baseline))
        || SawChange(Act1(w, acts[0]), acts[1..], p, baseline))
  }

  predicate Alarming(c: Change) {
    c == Deleted || c == Modified || c == Replaced
  }

  predicate Alarms(r: Report, p: Key) {
    r.path == p && (r.reason == SnapshotDeleted || r.reason == SnapshotRewritten)
  }

  /** A rewritten or deleted violation of the path is among the reports. */
  predicate Alarmed(reports: seq<Report>, p: Key) {
    exists j :: 0 <= j < |reports| && Alarms(reports[j], p)
  }

  predicate Pops(q: State<Change>, p: Key, i: nat) {
    i < |q.popped| && q.popped[i].key == p
  }

  /** The oldest popped event of the path. */
  ghost predicate FirstPop(q: State<Change>, p: Key, i: nat) {
    Pops(q, p, i) && forall j: nat :: j < i ==> !Pops(q, p, j)
  }

  /** Nothing has been noticed: the file is known as it was, and the queue holds nothing about it. */
  ghost predicate Untouched(w: Watch, p: Key, baseline: Fingerprint) {
    && (!w.queue.closed ==> Lookup(w.known, p) == Some(baseline))
    && p !in w.queue.pending && (forall i: nat :: !Pops(w.queue, p, i))
    && forall i :: 0 <= i < |w.reports| ==> w.reports[i].path != p
  }

  /** A change is waiting in the first debounce window. */
  ghost predicate Waiting(w: Watch, p: Key) {
    && !w.queue.closed && p in w.queue.pending && (forall i: nat :: !Pops(w.queue, p, i))
    && var c := w.queue.pending[p].event;
       if p in w.known then c == Modified || c == Replaced else c == Deleted
  }

  /** A deleted snapshot is reported as deleted, every other change of a known one as a rewrite. */
  function AlarmFor(c: Change): Reason {
    if c == Deleted then SnapshotDeleted else SnapshotRewritten
  }

  /** The first window has closed on an alarming change, which is reported once delivered. */
  ghost predicate Raised(w: Watch, p: Key, i: nat) {
    && FirstPop(w.queue, p, i) && Alarming(w.queue.popped[i].event)
    && (i in w.queue.delivered ==> Report(p, AlarmFor(w.queue.popped[i].event)) in w.reports)
  }

  ghost predicate Noticed(w: Watch, p: Key) {
    Waiting(w, p) || exists i: nat :: Raised(w, p, i)
  }

  lemma ObserveUntouched(w: Watch, a: Act, p: Key, baseline: Fingerprint)
    requires Untouched(w, p, baseline) && CanAct(w, a) && a.Observe?
    ensures !w.queue.closed && Differs(a, p, baseline) ==> Waiting(Act1(w, a), p)
    ensures w.queue.closed || !Differs(a, p, baseline) ==> Untouched(Act1(w, a), p, baseline)
  {
    var w' := Act1(w, a);
    assert w'.queue.popped == w.queue.popped;
    assert forall i: nat :: Pops(w'.queue, p, i) ==> Pops(w.queue, p, i);
  }

  lemma ObserveWaiting(w: Watch, a: Act, p: Key)
    requires Waiting(w, p) && CanAct(w, a) && a.Observe?
    ensures Waiting(Act1(w, a), p)
  {
    var w' := Act1(w, a);
    assert w'.queue.popped == w.queue.popped;
    assert forall i: nat :: Pops(w'.queue, p, i) ==> Pops(w.queue, p, i);
  }

  /** Appending to the popped list leaves the first pop where it is. */
  lemma LaterPops(w: Watch, w': Watch, p: Key, i: nat)
    requires Raised(w, p, i) && w.queue.popped <= w'.queue.popped && w'.queue.delivered == w.queue.delivered
             && w'.reports == w.reports
    ensures Raised(w', p, i)
  {
    forall j: nat | j < i ensures !Pops(w'.queue, p, j) { assert !Pops(w.queue, p, j); }
  }

  lemma DispatchUntouched(w: Watch, a: Act, p: Key, baseline: Fingerprint)
    requires Untouched(w, p, baseline) && CanAct(w, a) && a.Dispatch?
    ensures Untouched(Act1(w, a), p, baseline)
  {
    var w' := Act1(w, a);
    assert !Pops(w.queue, p, a.position);
    assert forall i: nat :: Pops(w'.queue, p, i) ==> Pops(w.queue, p, i);
  }

  lemma DispatchWaiting(w: Watch, a: Act, p: Key)
    requires Waiting(w, p) && CanAct(w, a) && a.Dispatch?
    ensures Waiting(Act1(w, a), p)
  {
    var w' := Act1(w, a);
    assert !Pops(w.queue, p, a.position);
    assert forall i: nat :: Pops(w'.queue, p, i) ==> Pops(w.queue, p, i);
  }

  lemma DispatchRaised(w: Watch, a: Act, p: Key, i: nat)
    requires Raised(w, p, i) && CanAct(w, a) && a.Dispatch?
    ensures Raised(Act1(w, a), p, i)
  {
    var w' := Act1(w, a);
    forall j: nat | j < i ensures !Pops(w'.queue, p, j) { assert !Pops(w.queue, p, j); }
    assert forall r :: r in w.reports ==> r in w'.reports;
    if a.position == i { assert Report(p, AlarmFor(w.queue.popped[i].event)) == w'.reports[|w.reports|]; }
  }

  /** Popping the waiting change makes it the first pop, and an alarming one. */
  lemma PopWaiting(w: Watch, w': Watch, p: Key, i: nat)
    requires Waiting(w, p) && w.queue.popped <= w'.queue.popped && |w.queue.popped| <= i < |w'.queue.popped|
    requires w'.queue.popped[i] == Entry(p, w.queue.pending[p].event)
    requires forall j :: |w.queue.popped| <= j < i ==> w'.queue.popped[j].key != p
    requires w'.queue.delivered == w.queue.delivered && i !in w.queue.delivered
    ensures Raised(w', p, i)
  {
    forall j: nat | j < i ensures !Pops(w'.queue, p, j) {
      if j < |w.queue.popped| { assert !Pops(w.queue, p, j); }
    }
  }

  lemma ExpireKeeps(w: Watch, a: Act, p: Key)
    requires Noticed(w, p) && TimersOk(w.queue) && CanAct(w, a) && a.Expire?
    ensures Noticed(Act1(w, a), p)
  {
    var w' := Act1(w, a);
    if Waiting(w, p) {
      var key := w.queue.timers[a.timer];
      if key == p {
        PopWaiting(w, w', p, |w.queue.popped|);
      } else {
        assert forall i: nat :: Pops(w'.queue, p, i) ==> Pops(w.queue, p, i);
        assert Waiting(w', p);
      }
    } else {
      var i: nat :| Raised(w, p, i);
      LaterPops(w, w', p, i);
    }
  }

  lemma ExpireUntouched(w: Watch, a: Act, p: Key, baseline: Fingerprint)
    requires Untouched(w, p, baseline) && CanAct(w, a) && a.Expire?
    ensures Untouched(Act1(w, a), p, baseline)
  {
    var w' := Act1(w, a);
    assert forall i: nat :: Pops(w'.queue, p, i) ==> Pops(w.queue, p, i);
  }

  lemma ShutUntouched(w: Watch, a: Act, p: Key, baseline: Fingerprint)
    requires Untouched(w, p, baseline) && CanAct(w, a) && a.Shut?
    ensures Untouched(Act1(w, a), p, baseline)
  {
    var w' := Act1(w, a);
    forall i: nat ensures !Pops(w'.queue, p, i) {
      if i < |w.queue.popped| { assert !Pops(w.queue, p, i); }
    }
  }

  lemma ShutKeeps(w: Watch, a: Act, p: Key)
    requires Noticed(w, p) && TimersOk(w.queue) && CanAct(w, a) && a.Shut? && a.flush
    ensures Noticed(Act1(w, a), p)
  {
    var w' := Act1(w, a);
    if Waiting(w, p) {
      assert p in w.queue.pending.Keys;
      var n :| 0 <= n < |a.order| && a.order[n] == p;
      PopWaiting(w, w', p, |w.queue.popped| + n);
    } else {
      var i: nat :| Raised(w, p, i);
      LaterPops(w, w', p, i);
    }
  }

  lemma TimersKept(w: Watch, a: Act)
    requires TimersOk(w.queue) && CanAct(w, a)
    ensures TimersOk(Act1(w, a).queue)
  {
    match a
    case Observe(p, raw, disk) =>
      var c := Normalize(Lookup(w.known, p), raw, disk).1;
      if c.Some? { SubmitTimers(MergeChanges, w.queue, p, c.value); }
    case Expire(timer) => FireTimers(w.queue, timer);
    case Shut(_, _) =>
    case Dispatch(_, _, _) =>
  }

  lemma NoticedStays(w: Watch, a: Act, p: Key)
    requires Noticed(w, p) && TimersOk(w.queue) && CanAct(w, a) && (a.Shut? ==> a.flush)
    ensures Noticed(Act1(w, a), p)
  {
    match a
    case Observe(_, _, _) =>
      if Waiting(w, p) {
        ObserveWaiting(w, a, p);
      } else {
        var i: nat :| Raised(w, p, i);
        LaterPops(w, Act1(w, a), p, i);
      }
    case Expire(_) => ExpireKeeps(w, a, p);
    case Shut(_, _) => ShutKeeps(w, a, p);
    case Dispatch(_, _, _) =>
      if Waiting(w, p) {
        DispatchWaiting(w, a, p);
      } else {
        var i: nat :| Raised(w, p, i);
        DispatchRaised(w, a, p, i);
      }
  }

  lemma {:induction false} NoticedForever(w: Watch, acts: seq<Act>, p: Key)
    requires Noticed(w, p) && TimersOk(w.queue) && Feasible(w, acts) && Flushes(acts)
    ensures Noticed(Watched(w, acts), p) && TimersOk(Watched(w, acts).queue)
    decreases |acts|
  {
    if acts != [] {
      NoticedStays(w, acts[0], p);
      TimersKept(w, acts[0]);
      NoticedForever(Act1(w, acts[0]), acts[1..], p);
    }
  }

  lemma UntouchedStep(w: Watch, a: Act, p: Key, baseline: Fingerprint)
    requires Untouched(w, p, baseline) && CanAct(w, a)
    ensures !w.queue.closed && Differs(a, p, baseline) ==> Noticed(Act1(w, a), p)
    ensures w.queue.closed || !Differs(a, p, baseline) ==> Untouched(Act1(w, a), p, baseline)
  {
    match a
    case Observe(_, _, _) => ObserveUntouched(w, a, p, baseline);
    case Expire(_) => ExpireUntouched(w, a, p, baseline);
    case Shut(_, _) => ShutUntouched(w, a, p, baseline);
    case Dispatch(_, _, _) => DispatchUntouched(w, a, p, baseline);
  }

  lemma {:induction false} NoticedExactly(w: Watch, acts: seq<Act>, p: Key, baseline: Fingerprint)
    requires Untouched(w, p, baseline) && TimersOk(w.queue) && Feasible(w, acts) && Flushes(acts)
    ensures TimersOk(Watched(w, acts).queue)
    ensures if SawChange(w, acts, p, baseline) then Noticed(Watched(w, acts), p) else Untouched(Watched(w, acts), p,
            baseline)
    decreases |acts|
  {
    if acts != [] {
      var w' := Act1(w, acts[0]);
      UntouchedStep(w, acts[0], p, baseline);
      TimersKept(w, acts[0]);
      if !w.queue.closed && Differs(acts[0], p, baseline) {
        NoticedForever(w', acts[1..], p);
      } else {
        NoticedExactly(w', acts[1..], p, baseline);
      }
    }
  }

  function Seeded(known: map<Key, Fingerprint>): Watch {
    Watch(known, Start(), [])
  }

  /**
   No swallowed change and no false alarm: for a snapshot in the baseline, once all windows have
   closed and all callbacks have returned, a rewritten or deleted violation has been reported exactly
   when some observation showed a deletion or another fingerprint, however the observations fell
   into debounce windows.
   */
  lemma NoSwallowedChange(known: map<Key, Fingerprint>, acts: seq<Act>, p: Key)
    requires p in known && Feasible(Seeded(known), acts) && Flushes(acts)
    requires Quiet(Watched(Seeded(known), acts).queue)
    ensures SawChange(Seeded(known), acts, p, known[p])
            <==> Alarmed(Watched(Seeded(known), acts).reports, p)
  {
    NoticedExactly(Seeded(known), acts, p, known[p]);
    var w := Watched(Seeded(known), acts);
    if SawChange(Seeded(known), acts, p, known[p]) {
      QuietMeansReported(w, p);
    } else {
      assert Untouched(w, p, known[p]);
    }
  }

  lemma QuietMeansReported(w: Watch, p: Key)
    requires Noticed(w, p) && TimersOk(w.queue) && Quiet(w.queue)
    ensures Alarmed(w.reports, p)
  {
    assert !Waiting(w, p) by {
      assert p in w.queue.pending ==> w.queue.pending[p].timer in w.queue.armed;
    }
    var i: nat :| Raised(w, p, i);
    assert Pops(w.queue, p, i);
    var j :| 0 <= j < |w.reports| && w.reports[j] == Report(p, AlarmFor(w.queue.popped[i].event));
    assert Alarms(w.reports[j], p);
  }

  // ---------------------------------------------------------------- which alarm

  /** The file as the last observation showed it. */
  function LastSight(acts: seq<Act>, p: Key, baseline: Option<Fingerprint>): Option<Fingerprint>
    decreases |acts|
  {
    if acts == [] then baseline
    else
      var a := acts[|acts| - 1];
      if a.Observe? && a.path == p then if a.raw == Deleted then None else a.disk
      else LastSight(acts[..|acts| - 1], p, baseline)
  }

  lemma {:induction false} FeasibleSplits(w: Watch, first: seq<Act>, second: seq<Act>)
    requires Feasible(w, first + second)
    ensures Feasible(w, first) && Feasible(Watched(w, first), second)
    ensures Watched(w, first + second) == Watched(Watched(w, first), second)
    decreases |first|
  {
    if first == [] {
      assert first + second == second;
    } else {
      assert (first + second)[1..] == first[1..] + second;
      FeasibleSplits(Act1(w, first[0]), first[1..], second);
    }
  }

  lemma {:induction false} PoppedGrows(w: Watch, acts: seq<Act>)
    requires Feasible(w, acts)
    ensures w.queue.popped <= Watched(w, acts).queue.popped
    decreases |acts|
  {
    if acts != [] { PoppedGrows(Act1(w, acts[0]), acts[1..]); }
  }

  /** Until an event of the path is dispatched, what is known of it is what was seen last. */
  lemma {:induction false} KnownIsLastSight(w: Watch, acts: seq<Act>, p: Key)
    requires Feasible(w, acts) && forall i: nat :: !Pops(Watched(w, acts).queue, p, i)
    ensures Lookup(Watched(w, acts).known, p) == LastSight(acts, p, Lookup(w.known, p))
    decreases |acts|
  {
    if acts != [] {
      var n := |acts| - 1;
      assert acts == acts[..n] + [acts[n]];
      FeasibleSplits(w, acts[..n], [acts[n]]);
      var w' := Watched(w, acts[..n]);
      PoppedGrows(w', [acts[n]]);
      forall i: nat ensures !Pops(w'.queue, p, i) { assert !Pops(Watched(w, acts).queue, p, i); }
      KnownIsLastSight(w, acts[..n], p);
      if acts[n].Dispatch? { assert !Pops(w'.queue, p, acts[n].position); }
      assert [acts[n]][1..] == [];
      assert Watched(w, acts) == Act1(w', acts[n]);
    }
  }

  /** The step closes the path's debounce window: a timer of the path fires, or the watcher is shut. */
  predicate ClosesWindow(w: Watch, a: Act, p: Key) {
    CanAct(w, a) && (if a.Expire? then w.queue.timers[a.timer] == p else a.Shut? && a.flush)
  }

  lemma WindowCloses(w: Watch, a: Act, p: Key)
    requires Waiting(w, p) && TimersOk(w.queue) && ClosesWindow(w, a, p)
    ensures exists i: nat :: Raised(Act1(w, a), p, i) && Act1(w, a).queue.popped[i].event == w.queue.pending[p].event
  {
    var w' := Act1(w, a);
    if a.Expire? {
      PopWaiting(w, w', p, |w.queue.popped|);
    } else {
      assert p in w.queue.pending.Keys;
      var n :| 0 <= n < |a.order| && a.order[n] == p;
      PopWaiting(w, w', p, |w.queue.popped| + n);
    }
  }

  lemma {:induction false} RaisedForever(w: Watch, acts: seq<Act>, p: Key, i: nat)
    requires Raised(w, p, i) && Feasible(w, acts)
    ensures Raised(Watched(w, acts), p, i) && Watched(w, acts).queue.popped[i] == w.queue.popped[i]
    decreases |acts|
  {
    if acts != [] {
      var w' := Act1(w, acts[0]);
      if acts[0].Dispatch? { DispatchRaised(w, acts[0], p, i); } else { LaterPops(w, w', p, i); }
      RaisedForever(w', acts[1..], p, i);
    }
  }

  /**
   The first alarm of a snapshot says what happened to it: once everything is delivered, a snapshot
   that differed from its baseline is reported deleted if it was last seen absent when its window
   closed, and rewritten if it was last seen there.
   */
  lemma AlarmSaysWhatHappened(known: map<Key, Fingerprint>, before: seq<Act>, close: Act, after: seq<Act>, p: Key)
    requires p in known && Feasible(Seeded(known), before + ([close] + after)) && Flushes(before)
    requires Quiet(Watched(Seeded(known), before + ([close] + after)).queue)
    requires Feasible(Seeded(known), before) && SawChange(Seeded(known), before, p, known[p])
    requires var w := Watched(Seeded(known), before);
             ClosesWindow(w, close, p) && forall i: nat :: !Pops(w.queue, p, i)
    ensures Report(p, if LastSight(before, p, Some(known[p])).None? then SnapshotDeleted else SnapshotRewritten)
            in Watched(Seeded(known), before + ([close] + after)).reports
  {
    var w := Watched(Seeded(known), before);
    NoticedExactly(Seeded(known), before, p, known[p]);
    assert Waiting(w, p) by {
      if i: nat :| Raised(w, p, i) { assert Pops(w.queue, p, i); }
    }
    KnownIsLastSight(Seeded(known), before, p);
    FeasibleSplits(Seeded(known), before, [close] + after);
    assert ([close] + after)[1..] == after;
    WindowCloses(w, close, p);
    var i: nat :| Raised(Act1(w, close), p, i) && Act1(w, close).queue.popped[i].event == w.queue.pending[p].event;
    RaisedForever(Act1(w, close), after, p, i);
    assert Pops(Watched(Act1(w, close), after).queue, p, i);
  }

  /** Nothing is known of the path and nothing about it is under way. */
  ghost predicate Unknown(w: Watch, p: Key) {
    !w.queue.closed && p !in w.known && p !in w.queue.pending
  }

  /** Observations that show the path with a file. */
  predicate Sightings(acts: seq<Act>, p: Key) {
    forall i :: 0 <= i < |acts| ==>
      acts[i].Observe? && acts[i].path == p && acts[i].raw in {Created, Modified, Moved} && acts[i].disk.Some?
  }

  /** A change of this kind waits for the path, whose file is known. */
  predicate Awaits(w: Watch, p: Key, c: Change) {
    !w.queue.closed && p in w.known && p in w.queue.pending && w.queue.pending[p].event == c
  }

  lemma {:induction false} CreatedIsSticky(w: Watch, acts: seq<Act>, p: Key)
    requires Awaits(w, p, Created) && Sightings(acts, p)
    ensures Feasible(w, acts) && Awaits(Watched(w, acts), p, Created)
    decreases |acts|
  {
    if acts != [] { CreatedIsSticky(Act1(w, acts[0]), acts[1..], p); }
  }

  /** A file that appears and is written on within one window is still a new file when the window closes. */
  lemma NewFileStaysNew(w: Watch, acts: seq<Act>, p: Key)
    requires Unknown(w, p) && acts != [] && Sightings(acts, p) && acts[0].raw != Moved
    ensures Feasible(w, acts) && Awaits(Watched(w, acts), p, Created)
  {
    CreatedIsSticky(Act1(w, acts[0]), acts[1..], p);
  }

  /** Not so for one that is moved in: written on within its window, it is taken for a rewrite. */
  lemma MovedFileIsTakenForARewrite(w: Watch, p: Key, f: Fingerprint, raw: Change, g: Fingerprint)
    requires Unknown(w, p) && raw in {Created, Modified, Moved} && g != f
    ensures Awaits(Act1(w, Observe(p, Moved, Some(f))), p, Moved)
    ensures Awaits(Act1(Act1(w, Observe(p, Moved, Some(f))), Observe(p, raw, Some(g))), p, Modified)
  {
  }

  /**
   When its window has closed, a new snapshot is reported unless it is registered, and forgotten if it
   is gone again.
   */
  lemma NewSnapshotIsChecked(w: Watch, p: Key, c: Change, exists_: bool, registered: bool)
    requires Awaits(w, p, c) && c in {Created, Moved} && TimersOk(w.queue) && |w.queue.popped| !in w.queue.delivered
    ensures var expire := Expire(w.queue.pending[p].timer);
            var dispatch := Dispatch(|w.queue.popped|, exists_, registered);
            && CanAct(w, expire) && CanAct(Act1(w, expire), dispatch)
            && var w' := Act1(Act1(w, expire), dispatch);
            && w'.reports == w.reports + (if exists_ && !registered then [Report(p, UnregisteredSnapshot)] else [])
            && Lookup(w'.known, p) == (if exists_ then Lookup(w.known, p) else None)
            && p !in w'.queue.pending
  {
    assert w.queue.pending[p].timer < |w.queue.timers|;
  }

  // ---------------------------------------------------------------- reconciliation

  datatype Sent = Sent(path: Key, change: Change)

  /** What a pass must submit for a path. */
  function Missed(known: Option<Fingerprint>, disk: Option<Fingerprint>): Option<Change> {
    if known == disk then None
    else if known.None? then Some(Created)
    else if disk.None? then Some(Deleted)
    else Some(Modified)
  }

  function MissedAt(known: map<Key, Fingerprint>, disk: map<Key, Fingerprint>, p: Key): seq<Sent> {
    var c := Missed(Lookup(known, p), Lookup(disk, p));
    if c.Some? then [Sent(p, c.value)] else []
  }

  /** The files a pass can see: reconcilable paths are within the watched ones. */
  datatype Scope = Scope(reconcilable: set<Key>, watched: set<Key>)

  class VaultEventHandler {
    var known: map<Key, Fingerprint>
    const scope: Scope

    constructor (s: Scope)
      ensures scope == s && known == map[]
    {
      scope, known := s, map[];
    }

    /** `seed_baseline` */
    method SeedBaseline(disk: map<Key, Fingerprint>)
      modifies this`known
      ensures known == disk
    {
      var todo := disk.Keys;
      var baseline: map<Key, Fingerprint> := map[];
      while todo != {}
        invariant todo <= disk.Keys && baseline == disk - todo
        decreases |todo|
      {
        var p :| p in todo;
        baseline, todo := baseline[p := disk[p]], todo - {p};
      }
      known := baseline;
    }

    /** `_submit_path`, with the fingerprint read from the disk. */
    method SubmitPath(p: Key, raw: Change, disk: Option<Fingerprint>) returns (sent: seq<Sent>)
      modifies this`known
      ensures p !in scope.watched ==> known == old(known) && sent == []
      ensures p in scope.watched ==>
                var (f, c) := Normalize(Lookup(old(known), p), raw, disk);
                known == Remember(old(known), p, f) && sent == if c.Some? then [Sent(p, c.value)] else []
    {
      sent := [];
      if p !in scope.watched { return; }
      var (f, c) := Normalize(Lookup(known, p), raw, disk);
      known := Remember(known, p, f);
      if c.Some? { sent := [Sent(p, c.value)]; }
    }

    /** The first loop of `reconcile`, over the files on disk in any order. */
    method SubmitPresent(order: seq<Key>, current: map<Key, Fingerprint>, previous: map<Key, Fingerprint>)
        returns (sent: seq<Sent>)
      requires Lists(order, current.Keys) && current.Keys <= scope.watched
      requires forall p :: p in current ==> Lookup(previous, p) == Lookup(known, p)
      modifies this`known
      ensures known == Noted(old(known), order, current) && sent == Gather(order, previous, current)
    {
      sent := [];
      for n := 0 to |order|
        invariant known == Noted(old(known), order[..n], current) && sent == Gather(order[..n], previous, current)
      {
        var p := order[n];
        OneMore(order, n, old(known), previous, current);
        if Lookup(previous, p) != Some(current[p]) {
          var more := SubmitPath(p, if p !in previous then Created else Modified, Some(current[p]));
          sent := sent + more;
        } else {
          assert known == known[p := current[p]];
        }
      }
      assert order[..|order|] == order;
    }

    /** The second loop of `reconcile`, over the files not listed; `disk` is what a look at each finds. */
    method SubmitAbsent(order: seq<Key>, current: map<Key, Fingerprint>, previous: map<Key, Fingerprint>,
        disk: map<Key, Fingerprint>)
      returns (sent: seq<Sent>)
      requires Lists(order, previous.Keys - current.Keys) && previous.Keys <= scope.watched
      requires forall p :: p in previous && p !in current ==> Lookup(previous, p) == Lookup(known, p)
      modifies this`known
      ensures known == Noted(old(known), order, current) && sent == Gather(order, previous, current)
    {
      sent := [];
      for n := 0 to |order|
        invariant known == Noted(old(known), order[..n], current) && sent == Gather(order[..n], previous, current)
      {
        OneMore(order, n, old(known), previous, current);
        var more := SubmitPath(order[n], Deleted, Lookup(disk, order[n]));
        sent := sent + more;
      }
      assert order[..|order|] == order;
    }

    /**
     `reconcile` on a disk that does not change during the pass. `listed` are the paths `rglob` yields;
     `disk` holds every watched file under the reconciled roots, listed or not.
     */
    method Reconcile(listed: set<Key>, disk: map<Key, Fingerprint>) returns (sent: seq<Sent>)
      requires known.Keys <= scope.watched && disk.Keys <= scope.reconcilable <= scope.watched
      modifies this`known
      ensures known == Reconciled(old(known), scope, Within(disk, listed)) && known.Keys <= scope.watched
      ensures Exactly(sent, scope.reconcilable, old(known), Within(disk, listed))
    {
      var current, previous := Within(disk, listed), Within(known, scope.reconcilable);
      var one := Enumerate(current.Keys);
      var two := Enumerate(previous.Keys - current.Keys);
      var first := SubmitPresent(one, current, previous);
      forall p | p in previous && p !in current ensures Lookup(previous, p) == Lookup(known, p) {
        NotedAt(old(known), one, current, p);
      }
      var second := SubmitAbsent(two, current, previous, disk);
      sent := first + second;
      PassIsExact(one, two, scope.reconcilable, old(known), current);
      NotedIsReconciled(one, two, scope, old(known), current);
    }
  }

  /** Iterating a set or a dictionary visits each element once. */
  method Enumerate(keys: set<Key>) returns (order: seq<Key>)
    ensures Lists(order, keys)
  {
    var todo := keys;
    order := [];
    while todo != {}
      invariant todo <= keys && Lists(order, keys - todo)
      decreases |todo|
    {
      var p :| p in todo;
      ListsOneMore(order, keys - todo, p);
      assert keys - todo + {p} == keys - (todo - {p});
      order, todo := order + [p], todo - {p};
    }
    assert keys - todo == keys;
  }

  /** The known files once the listed paths have been brought up to date. */
  function Noted(known: map<Key, Fingerprint>, order: seq<Key>, current: map<Key, Fingerprint>): map<Key, Fingerprint> {
    if order == [] then known
    else Remember(Noted(known, order[..|order| - 1], current), order[|order| - 1], Lookup(current, order[|order| - 1]))
  }

  lemma {:induction false} NotedAt(known: map<Key, Fingerprint>, order: seq<Key>, current: map<Key, Fingerprint>,
      p: Key)
    ensures Lookup(Noted(known, order, current), p) == Lookup(if p in order then current else known, p)
    decreases |order|
  {
    if order != [] {
      var n := |order| - 1;
      NotedAt(known, order[..n], current, p);
      assert order == order[..n] + [order[n]];
    }
  }

  /** One turn of a loop, for a path not visited before. */
  lemma OneMore(order: seq<Key>, n: nat, known: map<Key, Fingerprint>, previous: map<Key, Fingerprint>,
      current: map<Key, Fingerprint>)
    requires n < |order| && forall i :: 0 <= i < n ==> order[i] != order[n]
    ensures Noted(known, order[..n + 1], current) == Remember(Noted(known, order[..n], current), order[n],
            Lookup(current, order[n]))
    ensures Gather(order[..n + 1], previous, current) == Gather(order[..n], previous, current)
            + MissedAt(previous, current, order[n])
    ensures Lookup(Noted(known, order[..n], current), order[n]) == Lookup(known, order[n])
  {
    assert order[..n + 1][..n] == order[..n];
    NotedAt(known, order[..n], current, order[n]);
  }

  lemma PassIsExact(one: seq<Key>, two: seq<Key>, keys: set<Key>, known: map<Key, Fingerprint>,
      current: map<Key, Fingerprint>)
    requires current.Keys <= keys && Lists(one, current.Keys) && Lists(two, Within(known, keys).Keys - current.Keys)
    ensures Exactly(Gather(one, Within(known, keys), current) + Gather(two, Within(known, keys), current), keys,
            known, current)
  {
    var previous := Within(known, keys);
    var first, second := Gather(one, previous, current), Gather(two, previous, current);
    GatherIsExact(one, current.Keys, previous, current);
    GatherIsExact(two, previous.Keys - current.Keys, previous, current);
    ExactlyJoin(first, current.Keys, second, previous.Keys - current.Keys, previous, current);
    ExactlyWidens(first + second, keys, known, current);
  }

  lemma NotedIsReconciled(one: seq<Key>, two: seq<Key>, scope: Scope, known: map<Key, Fingerprint>,
      current: map<Key, Fingerprint>)
    requires current.Keys <= scope.reconcilable && Lists(one, current.Keys)
             && Lists(two, Within(known, scope.reconcilable).Keys - current.Keys)
    ensures Noted(Noted(known, one, current), two, current) == Reconciled(known, scope, current)
  {
    var a, b := Noted(Noted(known, one, current), two, current), Reconciled(known, scope, current);
    forall p ensures Lookup(a, p) == Lookup(b, p) {
      NotedAt(known, one, current, p);
      NotedAt(Noted(known, one, current), two, current, p);
    }
    SameLookups(a, b);
  }

  lemma SameLookups(a: map<Key, Fingerprint>, b: map<Key, Fingerprint>)
    requires forall p :: Lookup(a, p) == Lookup(b, p)
    ensures a == b
  {
    forall p ensures p in a <==> p in b { assert Lookup(a, p) == Lookup(b, p); }
    forall p | p in a ensures a[p] == b[p] { assert Lookup(a, p) == Lookup(b, p); }
  }

  function Within(known: map<Key, Fingerprint>, keys: set<Key>): map<Key, Fingerprint> {
    map p | p in known && p in keys :: known[p]
  }

  /** The missed changes of the listed paths, in order. */
  function Gather(order: seq<Key>, known: map<Key, Fingerprint>, disk: map<Key, Fingerprint>): seq<Sent> {
    if order == [] then []
    else Gather(order[..|order| - 1], known, disk) + MissedAt(known, disk, order[|order| - 1])
  }

  lemma ListsOneMore(order: seq<Key>, keys: set<Key>, p: Key)
    requires Lists(order, keys) && p !in keys
    ensures Lists(order + [p], keys + {p})
  {
    forall k | k in keys + {p} ensures k in order + [p] { assert k == p || k in order; }
  }

  /** The submissions are the missed changes of `paths`, one for each path that has one. */
  ghost predicate Exactly(sent: seq<Sent>, paths: set<Key>, known: map<Key, Fingerprint>, disk: map<Key, Fingerprint>) {
    && (forall i :: 0 <= i < |sent| ==>
          && sent[i].path in paths
          && Missed(Lookup(known, sent[i].path), Lookup(disk, sent[i].path)) == Some(sent[i].change))
    && (forall i, j :: 0 <= i < j < |sent| ==> sent[i].path != sent[j].path)
    && forall p :: p in paths && Lookup(known, p) != Lookup(disk, p) ==> SentFor(sent, p)
  }

  predicate SentFor(sent: seq<Sent>, p: Key) {
    exists i :: 0 <= i < |sent| && sent[i].path == p
  }

  lemma ExactlyOneMore(sent: seq<Sent>, paths: set<Key>, known: map<Key, Fingerprint>, disk: map<Key, Fingerprint>,
      p: Key)
    requires Exactly(sent, paths, known, disk) && p !in paths
    ensures Exactly(sent + MissedAt(known, disk, p), paths + {p}, known, disk)
  {
    var all := sent + MissedAt(known, disk, p);
    forall q | q in paths + {p} && Lookup(known, q) != Lookup(disk, q) ensures SentFor(all, q) {
      if q == p {
        assert all[|sent|].path == q;
      } else {
        var i :| 0 <= i < |sent| && sent[i].path == q;
        assert all[i].path == q;
      }
    }
  }

  lemma ExactlyJoin(first: seq<Sent>, ka: set<Key>, second: seq<Sent>, kb: set<Key>, known: map<Key, Fingerprint>,
      disk: map<Key, Fingerprint>)
    requires Exactly(first, ka, known, disk) && Exactly(second, kb, known, disk) && ka !! kb
    ensures Exactly(first + second, ka + kb, known, disk)
  {
    var all := first + second;
    forall p | p in ka + kb && Lookup(known, p) != Lookup(disk, p) ensures SentFor(all, p) {
      if p in ka {
        var i :| 0 <= i < |first| && first[i].path == p;
        assert all[i].path == p;
      } else {
        var i :| 0 <= i < |second| && second[i].path == p;
        assert all[|first| + i].path == p;
      }
    }
  }

  lemma {:induction false} GatherIsExact(order: seq<Key>, paths: set<Key>, known: map<Key, Fingerprint>,
      disk: map<Key, Fingerprint>)
    requires Lists(order, paths)
    ensures Exactly(Gather(order, known, disk), paths, known, disk)
    decreases |order|
  {
    if order != [] {
      var n := |order| - 1;
      var init, p := order[..n], order[n];
      forall k | k in paths - {p} ensures k in init {
        var i :| 0 <= i < |order| && order[i] == k;
        assert init[i] == k;
      }
      GatherIsExact(init, paths - {p}, known, disk);
      ExactlyOneMore(Gather(init, known, disk), paths - {p}, known, disk, p);
      assert paths - {p} + {p} == paths;
    }
  }

  /** Paths known nowhere and absent from the disk may join the scope. */
  lemma ExactlyWidens(sent: seq<Sent>, keys: set<Key>, known0: map<Key, Fingerprint>, current: map<Key, Fingerprint>)
    requires current.Keys <= keys
    requires var previous := Within(known0, keys);
             Exactly(sent, current.Keys + (previous.Keys - current.Keys), previous, current)
    ensures Exactly(sent, keys, known0, current)
  {
    var previous := Within(known0, keys);
    forall p | p in keys ensures Lookup(known0, p) == Lookup(previous, p) {
    }
    forall p | p in keys && Lookup(known0, p) != Lookup(current, p) ensures SentFor(sent, p) {
      assert p in current || p in previous;
    }
  }

  /** The known files after a pass. */
  function Reconciled(known: map<Key, Fingerprint>, scope: Scope,
      current: map<Key, Fingerprint>): map<Key, Fingerprint> {
    (known - scope.reconcilable) + current
  }

  lemma SomethingDiffers(sent: seq<Sent>, paths: set<Key>, known: map<Key, Fingerprint>, disk: map<Key, Fingerprint>)
    requires Exactly(sent, paths, known, disk)
    ensures sent != [] ==> exists p :: p in paths && Lookup(known, p) != Lookup(disk, p)
  {
    if sent != [] {
      var p := sent[0].path;
      assert p in paths && Lookup(known, p) != Lookup(disk, p);
    }
  }

  /** After one pass a second one on the same disk has nothing to submit. */
  lemma NextPassIsSilent(known: map<Key, Fingerprint>, scope: Scope, current: map<Key, Fingerprint>, sent: seq<Sent>)
    requires current.Keys <= scope.reconcilable
    requires Exactly(sent, scope.reconcilable, Reconciled(known, scope, current), current)
    ensures sent == []
            && Reconciled(Reconciled(known, scope, current), scope, current) == Reconciled(known, scope, current)
  {
    var k := Reconciled(known, scope, current);
    SomethingDiffers(sent, scope.reconcilable, k, current);
    forall p | p in scope.reconcilable ensures Lookup(k, p) == Lookup(current, p) {
    }
  }

  /**
   A pass submits exactly the paths whose file differs from what is known, if and only if the listing
   covers the disk.
   */
  lemma ExactWhenListed(sent: seq<Sent>, paths: set<Key>, known: map<Key, Fingerprint>, listed: set<Key>,
      disk: map<Key, Fingerprint>)
    requires disk.Keys <= paths && Exactly(sent, paths, known, Within(disk, listed))
    ensures Exactly(sent, paths, known, disk) <==> forall p :: p in disk ==> p in listed
  {
    if p :| p in disk && p !in listed {
      UnlistedIsMistaken(sent, paths, known, listed, disk, p);
    } else {
      assert Within(disk, listed) == disk;
    }
  }

  /** An unlisted file is reported deleted if it was known, and not at all if it was not. */
  lemma UnlistedIsMistaken(sent: seq<Sent>, paths: set<Key>, known: map<Key, Fingerprint>, listed: set<Key>,
      disk: map<Key, Fingerprint>, p: Key)
    requires disk.Keys <= paths && Exactly(sent, paths, known, Within(disk, listed)) && p in disk && p !in listed
    ensures p in known ==> Sent(p, Deleted) in sent
    ensures p !in known ==> !SentFor(sent, p)
    ensures !Exactly(sent, paths, known, disk)
  {
    if p in known {
      assert Lookup(known, p) != Lookup(Within(disk, listed), p) && SentFor(sent, p);
      var i :| 0 <= i < |sent| && sent[i].path == p;
      assert sent[i] == Sent(p, Deleted);
      assert Missed(Lookup(known, p), Lookup(disk, p)) != Some(Deleted);
    } else {
      forall i | 0 <= i < |sent| ensures sent[i].path != p {
        assert Missed(Lookup(known, sent[i].path), Lookup(Within(disk, listed), sent[i].path)) == Some(sent[i].change);
      }
      assert Lookup(known, p) != Lookup(disk, p) && !SentFor(sent, p);
    }
  }

  // ---------------------------------------------------------------- which names are listed

  function Lower(c: char): char {
    if 'A' <= c <= 'Z' then c + ' ' else c
  }

  /** `rglob("*.md")`: the case matters. */
  predicate GlobLists(name: string) {
    |name| >= 3 && name[|name| - 3..] == ".md"
  }

  /** `path.suffix.lower() == ".md"`: it does not, and a leading dot starts no suffix. */
  predicate FilterWatches(name: string) {
    |name| > 3 && name[|name| - 3] == '.' && Lower(name[|name| - 2]) == 'm' && Lower(name[|name| - 1]) == 'd'
  }

  /**
   The failing input: `X.MD` is watched and not listed, so a pass over an unchanged disk that holds it
   (as path 0) reports it deleted.
   */
  lemma UpperCaseRecordIsReportedDeleted(f: Fingerprint, sent: seq<Sent>)
    requires Exactly(sent, {0}, map[0 := f], Within(map[0 := f], {}))
    ensures FilterWatches("X.MD") && !GlobLists("X.MD")
    ensures Sent(0, Deleted) in sent && !Exactly(sent, {0}, map[0 := f], map[0 := f])
  {
    assert "X.MD"[1..] == ".MD" && ".MD"[1] != ".md"[1];
    UnlistedIsMistaken(sent, {0}, map[0 := f], {}, map[0 := f], 0);
  }
}
