/**
 The watcher's trailing-edge debouncer as a step machine. Timer callbacks are steps of their own: a
 timer that was cancelled too late may still fire, and a popped event is delivered after the lock is
 released, in any order.
 */
module DebouncerModel {
  import opened Basics

  /** A path; only its identity matters. */
  type Key = nat
  type Merge<!E> = (E, E) -> E

  datatype Entry<E> = Entry(key: Key, event: E)
  datatype Pending<E> = Pending(event: E, timer: nat)

  /**
   `timers` gives the key of every timer ever started and `armed` those neither cancelled nor fired.
   `accepted` and `popped` are histories; `delivered` holds positions in `popped`.
   */
  datatype State<E> = State(
    pending: map<Key, Pending<E>>, closed: bool,
    timers: seq<Key>, armed: set<nat>,
    accepted: seq<Entry<E>>, popped: seq<Entry<E>>, delivered: seq<nat>)

  datatype Op<E> = Submit(key: Key, event: E) | Fire(timer: nat) | Close(flush: bool,
      order: seq<Key>) | Deliver(position: nat)

  function Start<E>(): State<E> {
    State(map[], false, [], {}, [], [], [])
  }

  function Folded<E>(merge: Merge<E>, before: E, event: E): E {
    merge(before, event)
  }

  /** `submit` */
  function DoSubmit<E>(merge: Merge<E>, s: State<E>, key: Key, event: E): State<E> {
    if s.closed then s
    else
      var again := key in s.pending;
      var event' := if again then Folded(merge, s.pending[key].event, event) else event;
      var cancelled := if again then {s.pending[key].timer} else {};
      var id := |s.timers|;
      s.(pending := s.pending[key := Pending(event', id)], timers := s.timers + [key],
         armed := s.armed - cancelled + {id}, accepted := s.accepted + [Entry(key, event)])
  }

  /** `_fire`, up to the release of the lock. */
  function DoFire<E>(s: State<E>, timer: nat): State<E>
    requires timer < |s.timers|
  {
    var key := s.timers[timer];
    var s' := s.(armed := s.armed - {timer}, pending := s.pending - {key});
    if key !in s.pending || s.closed then s'
    else s'.(popped := s.popped + [Entry(key, s.pending[key].event)])
  }

  function Entries<E>(pending: map<Key, Pending<E>>, order: seq<Key>): seq<Entry<E>>
    requires forall i :: 0 <= i < |order| ==> order[i] in pending
  {
    seq(|order|, i requires 0 <= i < |order| => Entry(order[i], pending[order[i]].event))
  }

  /** `order` lists the pending keys, each once. */
  predicate Lists(order: seq<Key>, keys: set<Key>) {
    (forall i :: 0 <= i < |order| ==> order[i] in keys) && (forall k :: k in keys ==> k in order)
    && forall i, j :: 0 <= i < j < |order| ==> order[i] != order[j]
  }

  /** `close`, up to the release of the lock. */
  function DoClose<E>(s: State<E>, flush: bool, order: seq<Key>): State<E>
    requires Lists(order, s.pending.Keys)
  {
    if s.closed then s
    else
      var cancelled := set k | k in s.pending :: s.pending[k].timer;
      s.(closed := true, pending := map[], armed := s.armed - cancelled,
         popped := s.popped + if flush then Entries(s.pending, order) else [])
  }

  predicate Enabled<E(==)>(s: State<E>, op: Op<E>) {
    match op
    case Submit(_, _) => true
    case Fire(timer) => timer < |s.timers|
    case Close(_, order) => Lists(order, s.pending.Keys)
    case Deliver(i) => i < |s.popped| && i !in s.delivered
  }

  function Step<E>(merge: Merge<E>, s: State<E>, op: Op<E>): State<E>
    requires Enabled(s, op)
  {
    match op
    case Submit(key, event) => DoSubmit(merge, s, key, event)
    case Fire(timer) => DoFire(s, timer)
    case Close(flush, order) => DoClose(s, flush, order)
    case Deliver(i) => s.(delivered := s.delivered + [i])
  }

  /** The schedule is possible from `s`. */
  ghost predicate Possible<E(!new)>(merge: Merge<E>, s: State<E>, ops: seq<Op<E>>)
    decreases |ops|
  {
    ops == [] || (Enabled(s, ops[0]) && Possible(merge, Step(merge, s, ops[0]), ops[1..]))
  }

  ghost function Run<E(!new)>(merge: Merge<E>, s: State<E>, ops: seq<Op<E>>): State<E>
    requires Possible(merge, s, ops)
    decreases |ops|
  {
    if ops == [] then s else Run(merge, Step(merge, s, ops[0]), ops[1..])
  }

  // ---------------------------------------------------------------- accounts

  /** Fold of a group of events, oldest first. */
  function Fold<E>(merge: Merge<E>, group: seq<E>): E
    requires group != []
  {
    if |group| == 1 then group[0] else Folded(merge, Fold(merge, group[..|group| - 1]), group[|group| - 1])
  }

  /** The events accepted for one key, in order. */
  function ForKey<E>(log: seq<Entry<E>>, k: Key): seq<E> {
    if log == [] then []
    else ForKey(log[..|log| - 1], k) + if log[|log| - 1].key == k then [log[|log| - 1].event] else []
  }

  /** The groups behind the popped events of one key, joined in pop order. */
  function Joined<E>(popped: seq<Entry<E>>, groups: seq<seq<E>>, k: Key): seq<E>
    requires |groups| == |popped|
  {
    if popped == [] then []
    else
      var n := |popped| - 1;
      Joined(popped[..n], groups[..n], k) + if popped[n].key == k then groups[n] else []
  }

  function At<E>(m: map<Key, seq<E>>, k: Key): seq<E> {
    if k in m then m[k] else []
  }

  /** Which accepted events went where: one group per popped event, the open groups, the discarded ones. */
  datatype Books<E> = Books(groups: seq<seq<E>>, open: map<Key, seq<E>>, lost: map<Key, seq<E>>)

  ghost predicate Balanced<E(!new)>(s: State<E>, b: Books<E>) {
    && |b.groups| == |s.popped|
    && forall k :: ForKey(s.accepted, k) == Joined(s.popped, b.groups, k) + At(b.lost, k) + At(b.open, k)
  }

  ghost predicate GroupsFold<E(!new)>(merge: Merge<E>, s: State<E>, b: Books<E>) {
    && |b.groups| == |s.popped|
    && (forall i :: 0 <= i < |b.groups| ==> b.groups[i] != [] && s.popped[i].event == Fold(merge, b.groups[i]))
    && b.open.Keys == s.pending.Keys
    && forall k :: k in b.open ==> b.open[k] != [] && s.pending[k].event == Fold(merge, b.open[k])
  }

  ghost predicate TimersOk<E(!new)>(s: State<E>) {
    && (forall k :: k in s.pending ==>
          s.pending[k].timer in s.armed && s.pending[k].timer < |s.timers| && s.timers[s.pending[k].timer] == k)
    && (s.closed ==> s.pending == map[])
    && (forall i, j :: 0 <= i < j < |s.delivered| ==> s.delivered[i] != s.delivered[j])
    && forall i :: 0 <= i < |s.delivered| ==> s.delivered[i] < |s.popped|
  }

  ghost predicate Inv<E(!new)>(merge: Merge<E>, s: State<E>, b: Books<E>) {
    Balanced(s, b) && GroupsFold(merge, s, b) && TimersOk(s) && (!s.closed ==> b.lost == map[])
  }

  lemma FoldAppend<E>(merge: Merge<E>, group: seq<E>, e: E)
    requires group != []
    ensures Fold(merge, group + [e]) == Folded(merge, Fold(merge, group), e)
  {
    assert (group + [e])[..|group|] == group;
  }

  lemma JoinedAppend<E>(popped: seq<Entry<E>>, groups: seq<seq<E>>, p: Entry<E>, g: seq<E>, k: Key)
    requires |groups| == |popped|
    ensures Joined(popped + [p], groups + [g], k) == Joined(popped, groups, k) + if p.key == k then g else []
  {
    assert (popped + [p])[..|popped|] == popped && (groups + [g])[..|popped|] == groups;
  }

  lemma ForKeyAppend<E>(log: seq<Entry<E>>, e: Entry<E>, k: Key)
    ensures ForKey(log + [e], k) == ForKey(log, k) + if e.key == k then [e.event] else []
  {
    assert (log + [e])[..|log|] == log;
  }

  // ---------------------------------------------------------------- steps keep the accounts

  function SubmitBooks<E>(s: State<E>, b: Books<E>, key: Key, event: E): Books<E> {
    if s.closed then b else b.(open := b.open[key := At(b.open, key) + [event]])
  }

  lemma SubmitBalances<E(!new)>(merge: Merge<E>, s: State<E>, b: Books<E>, key: Key, event: E)
    requires Balanced(s, b)
    ensures Balanced(DoSubmit(merge, s, key, event), SubmitBooks(s, b, key, event))
  {
    var s', b' := DoSubmit(merge, s, key, event), SubmitBooks(s, b, key, event);
    if !s.closed {
      forall k ensures ForKey(s'.accepted, k) == Joined(s'.popped, b'.groups, k) + At(b'.lost, k) + At(b'.open, k) {
        ForKeyAppend(s.accepted, Entry(key, event), k);
        assert ForKey(s.accepted, k) == Joined(s.popped, b.groups, k) + At(b.lost, k) + At(b.open, k);
      }
    }
  }

  lemma SubmitFolds<E(!new)>(merge: Merge<E>, s: State<E>, b: Books<E>, key: Key, event: E)
    requires GroupsFold(merge, s, b)
    ensures GroupsFold(merge, DoSubmit(merge, s, key, event), SubmitBooks(s, b, key, event))
  {
    if !s.closed && key in s.pending { FoldAppend(merge, b.open[key], event); }
  }

  function FireBooks<E>(s: State<E>, b: Books<E>, key: Key): Books<E> {
    if key !in b.open then b else Books(b.groups + [b.open[key]], b.open - {key}, b.lost)
  }

  lemma FireBalances<E(!new)>(merge: Merge<E>, s: State<E>, b: Books<E>, timer: nat)
    requires Inv(merge, s, b) && timer < |s.timers|
    ensures Balanced(DoFire(s, timer), FireBooks(s, b, s.timers[timer]))
  {
    var key := s.timers[timer];
    var s', b' := DoFire(s, timer), FireBooks(s, b, key);
    if key in b.open {
      assert b.lost == map[];
      forall k ensures ForKey(s'.accepted, k) == Joined(s'.popped, b'.groups, k) + At(b'.lost, k) + At(b'.open, k) {
        JoinedAppend(s.popped, b.groups, Entry(key, s.pending[key].event), b.open[key], k);
        assert ForKey(s.accepted, k) == Joined(s.popped, b.groups, k) + At(b.lost, k) + At(b.open, k);
      }
    }
  }

  lemma FireFolds<E(!new)>(merge: Merge<E>, s: State<E>, b: Books<E>, timer: nat)
    requires Inv(merge, s, b) && timer < |s.timers|
    ensures GroupsFold(merge, DoFire(s, timer), FireBooks(s, b, s.timers[timer]))
  {
  }

  lemma FireTimers<E(!new)>(s: State<E>, timer: nat)
    requires TimersOk(s) && timer < |s.timers|
    ensures TimersOk(DoFire(s, timer))
  {
  }

  lemma SubmitTimers<E(!new)>(merge: Merge<E>, s: State<E>, key: Key, event: E)
    requires TimersOk(s)
    ensures TimersOk(DoSubmit(merge, s, key, event))
  {
  }

  function OpenGroups<E>(open: map<Key, seq<E>>, order: seq<Key>): seq<seq<E>>
    requires forall i :: 0 <= i < |order| ==> order[i] in open
  {
    seq(|order|, i requires 0 <= i < |order| => open[order[i]])
  }

  function CloseBooks<E>(s: State<E>, b: Books<E>, flush: bool, order: seq<Key>): Books<E>
    requires forall i :: 0 <= i < |order| ==> order[i] in b.open
  {
    if s.closed then b
    else if flush then Books(b.groups + OpenGroups(b.open, order), map[], b.lost)
    else Books(b.groups, map[], b.open)
  }

  lemma FlushOneMore<E>(popped: seq<Entry<E>>, groups: seq<seq<E>>, pending: map<Key, Pending<E>>,
      open: map<Key, seq<E>>, init: seq<Key>, last: Key)
    requires pending.Keys == open.Keys && last in open
    requires forall i :: 0 <= i < |init| ==> init[i] in open
    ensures forall i :: 0 <= i < |init + [last]| ==> (init + [last])[i] in open
    ensures popped + Entries(pending, init + [last]) == (popped + Entries(pending, init))
            + [Entry(last, pending[last].event)]
    ensures groups + OpenGroups(open, init + [last]) == (groups + OpenGroups(open, init)) + [open[last]]
  {
  }

  /** Appending the entries of distinct keys appends each listed key's group and no other's. */
  lemma {:induction false} JoinedFlush<E>(popped: seq<Entry<E>>, groups: seq<seq<E>>, pending: map<Key, Pending<E>>,
      open: map<Key, seq<E>>, order: seq<Key>, k: Key)
    requires |groups| == |popped| && pending.Keys == open.Keys
    requires forall i :: 0 <= i < |order| ==> order[i] in open
    requires forall i, j :: 0 <= i < j < |order| ==> order[i] != order[j]
    ensures Joined(popped + Entries(pending, order), groups + OpenGroups(open, order), k)
         == Joined(popped, groups, k) + if k in order then open[k] else []
    decreases |order|
  {
    if order == [] {
      assert popped + Entries(pending, order) == popped && groups + OpenGroups(open, order) == groups;
    } else {
      var n := |order| - 1;
      var init, last := order[..n], order[n];
      JoinedFlush(popped, groups, pending, open, init, k);
      FlushOneMore(popped, groups, pending, open, init, last);
      JoinedAppend(popped + Entries(pending, init), groups + OpenGroups(open, init), Entry(last, pending[last].event),
          open[last], k);
      assert order == init + [last];
      assert k == last ==> k !in init;
    }
  }

  lemma FlushBalances<E(!new)>(s: State<E>, b: Books<E>, order: seq<Key>, k: Key)
    requires |b.groups| == |s.popped| && b.open.Keys == s.pending.Keys && b.lost == map[]
    requires Lists(order, s.pending.Keys)
    requires ForKey(s.accepted, k) == Joined(s.popped, b.groups, k) + At(b.lost, k) + At(b.open, k)
    ensures ForKey(s.accepted, k) == Joined(s.popped + Entries(s.pending, order), b.groups
            + OpenGroups(b.open, order), k)
  {
    JoinedFlush(s.popped, b.groups, s.pending, b.open, order, k);
    assert k in order <==> k in b.open;
    assert At(b.lost, k) == [];
    assert Joined(s.popped, b.groups, k) + [] == Joined(s.popped, b.groups, k);
  }

  lemma CloseBalances<E(!new)>(merge: Merge<E>, s: State<E>, b: Books<E>, flush: bool, order: seq<Key>)
    requires Inv(merge, s, b) && Lists(order, s.pending.Keys)
    ensures Balanced(DoClose(s, flush, order), CloseBooks(s, b, flush, order))
  {
    var s', b' := DoClose(s, flush, order), CloseBooks(s, b, flush, order);
    if !s.closed {
      forall k ensures ForKey(s'.accepted, k) == Joined(s'.popped, b'.groups, k) + At(b'.lost, k) + At(b'.open, k) {
        assert ForKey(s.accepted, k) == Joined(s.popped, b.groups, k) + At(b.lost, k) + At(b.open, k);
        if flush {
          FlushBalances(s, b, order, k);
          assert At(b'.lost, k) == [] && At(b'.open, k) == [];
        } else {
          assert s'.popped == s.popped;
          assert At(b.lost, k) == [] && At(b'.open, k) == [];
        }
      }
    }
  }

  lemma CloseFolds<E(!new)>(merge: Merge<E>, s: State<E>, b: Books<E>, flush: bool, order: seq<Key>)
    requires Inv(merge, s, b) && Lists(order, s.pending.Keys)
    ensures GroupsFold(merge, DoClose(s, flush, order), CloseBooks(s, b, flush, order))
  {
    if !s.closed && flush {
      var e, g := Entries(s.pending, order), OpenGroups(b.open, order);
      forall i | 0 <= i < |order| ensures g[i] != [] && e[i].event == Fold(merge, g[i]) { assert order[i] in b.open; }
    }
  }

  function NextBooks<E>(s: State<E>, b: Books<E>, op: Op<E>): Books<E>
    requires Enabled(s, op) && b.open.Keys == s.pending.Keys
  {
    match op
    case Submit(key, event) => SubmitBooks(s, b, key, event)
    case Fire(timer) => FireBooks(s, b, s.timers[timer])
    case Close(flush, order) => CloseBooks(s, b, flush, order)
    case Deliver(_) => b
  }

  lemma StepKeepsInv<E(!new)>(merge: Merge<E>, s: State<E>, b: Books<E>, op: Op<E>)
    requires Inv(merge, s, b) && Enabled(s, op)
    ensures Inv(merge, Step(merge, s, op), NextBooks(s, b, op))
  {
    match op
    case Submit(key, event) =>
      SubmitBalances(merge, s, b, key, event);
      SubmitFolds(merge, s, b, key, event);
      SubmitTimers(merge, s, key, event);
    case Fire(timer) =>
      FireBalances(merge, s, b, timer);
      FireFolds(merge, s, b, timer);
      FireTimers(s, timer);
    case Close(flush, order) =>
      CloseBalances(merge, s, b, flush, order);
      CloseFolds(merge, s, b, flush, order);
    case Deliver(_) =>
  }

  predicate NeverDiscards<E(==)>(ops: seq<Op<E>>) {
    forall i :: 0 <= i < |ops| ==> ops[i].Close? ==> ops[i].flush
  }

  lemma {:induction false} RunKeepsInv<E(!new)>(merge: Merge<E>, s: State<E>, b: Books<E>, ops: seq<Op<E>>)
      returns (b': Books<E>)
    requires Inv(merge, s, b) && Possible(merge, s, ops)
    ensures Inv(merge, Run(merge, s, ops), b')
    ensures NeverDiscards(ops) && b.lost == map[] ==> b'.lost == map[]
    decreases |ops|
  {
    if ops == [] {
      b' := b;
    } else {
      StepKeepsInv(merge, s, b, ops[0]);
      b' := RunKeepsInv(merge, Step(merge, s, ops[0]), NextBooks(s, b, ops[0]), ops[1..]);
    }
  }

  /**
   Conservation. Under every schedule there is a division of the accepted events into consecutive
   groups, key by key, such that each popped event is the fold of its own group in order, what is
   pending is the fold of the last group, and nothing else exists unless `close` was told to discard.
   */
  lemma DebounceConserves<E(!new)>(merge: Merge<E>, ops: seq<Op<E>>)
    requires Possible(merge, Start(), ops)
    ensures var s := Run(merge, Start(), ops);
            exists b: Books<E> :: Balanced(s, b) && GroupsFold(merge, s, b) && TimersOk(s) && (NeverDiscards(ops) ==>
                  b.lost == map[])
  {
    var b0: Books<E> := Books([], map[], map[]);
    assert Inv(merge, Start(), b0);
    var b := RunKeepsInv(merge, Start(), b0, ops);
  }

  /** What was submitted before the debouncer was closed. */
  function Offered<E>(ops: seq<Op<E>>): seq<Entry<E>> {
    if ops == [] || ops[0].Close? then []
    else (if ops[0].Submit? then [Entry(ops[0].key, ops[0].event)] else []) + Offered(ops[1..])
  }

  lemma AcceptsOne<E(!new)>(merge: Merge<E>, s: State<E>, op: Op<E>)
    requires Enabled(s, op)
    ensures Step(merge, s, op).closed == (s.closed || op.Close?)
    ensures Step(merge, s, op).accepted == s.accepted + Accepted(s, op)
  {
  }

  function Accepted<E>(s: State<E>, op: Op<E>): seq<Entry<E>> {
    if op.Submit? && !s.closed then [Entry(op.key, op.event)] else []
  }

  lemma OfferedStep<E>(closed: bool, before: seq<Entry<E>>, ops: seq<Op<E>>, final: seq<Entry<E>>)
    requires ops != []
    requires final == before + (if ops[0].Submit? && !closed then [Entry(ops[0].key, ops[0].event)] else [])
                      + (if closed || ops[0].Close? then [] else Offered(ops[1..]))
    ensures final == before + if closed then [] else Offered(ops)
  {
  }

  /** Every event submitted before the close is accepted, in order, and none after it. */
  lemma {:induction false} AcceptsEverySubmission<E(!new)>(merge: Merge<E>, s: State<E>, ops: seq<Op<E>>)
    requires Possible(merge, s, ops)
    ensures Run(merge, s, ops).accepted == s.accepted + if s.closed then [] else Offered(ops)
    decreases |ops|
  {
    if ops == [] {
      assert s.accepted + [] == s.accepted;
    } else {
      AcceptsOne(merge, s, ops[0]);
      AcceptsEverySubmission(merge, Step(merge, s, ops[0]), ops[1..]);
      OfferedStep(s.closed, s.accepted, ops, Run(merge, s, ops).accepted);
    }
  }

  predicate Quiet<E>(s: State<E>) {
    (s.closed || s.armed == {}) && forall i :: 0 <= i < |s.popped| ==> i in s.delivered
  }

  /**
   Once closed with a flush, or once every live timer has fired, with all callbacks returned: each
   popped event was delivered once, and the groups are the accepted events, none lost or repeated.
   */
  lemma EveryEventIsDeliveredOnce<E(!new)>(merge: Merge<E>, ops: seq<Op<E>>)
    requires Possible(merge, Start(), ops) && NeverDiscards(ops)
    requires Quiet(Run(merge, Start(), ops))
    ensures var s := Run(merge, Start(), ops);
            && (forall i, j :: 0 <= i < j < |s.delivered| ==> s.delivered[i] != s.delivered[j])
            && (forall i :: i in s.delivered <==> 0 <= i < |s.popped|)
            && exists groups: seq<seq<E>> :: Groups(merge, s, groups)
  {
    DebounceConserves(merge, ops);
    var s := Run(merge, Start(), ops);
    var b: Books<E> :| Balanced(s, b) && GroupsFold(merge, s, b) && TimersOk(s) && b.lost == map[];
    forall k | k in s.pending ensures s.pending[k].timer in s.armed {
    }
    assert s.pending == map[];
    assert Groups(merge, s, b.groups) by {
      forall k ensures ForKey(s.accepted, k) == Joined(s.popped, b.groups, k) {
        assert ForKey(s.accepted, k) == Joined(s.popped, b.groups, k) + At(b.lost, k) + At(b.open, k);
      }
    }
  }

  ghost predicate Groups<E(!new)>(merge: Merge<E>, s: State<E>, groups: seq<seq<E>>) {
    && |groups| == |s.popped|
    && (forall i :: 0 <= i < |groups| ==> groups[i] != [] && s.popped[i].event == Fold(merge, groups[i]))
    && forall k :: ForKey(s.accepted, k) == Joined(s.popped, groups, k)
  }

  // ---------------------------------------------------------------- the class

  /** `_Debouncer`; `popped` records the calls of `dispatch` in the order the lock released them. */
  class Debouncer<E(!new)> {
    const merge: Merge<E>
    var pending: map<Key, Pending<E>>
    var closed: bool
    var timers: seq<Key>
    var armed: set<nat>
    ghost var accepted: seq<Entry<E>>
    var popped: seq<Entry<E>>
    ghost var delivered: seq<nat>

    ghost function Now(): State<E> reads this {
      State(pending, closed, timers, armed, accepted, popped, delivered)
    }

    constructor (m: Merge<E>)
      ensures merge == m && Now() == Start()
    {
      merge, pending, closed, timers, armed, accepted, popped, delivered := m, map[], false, [], {}, [], [], [];
    }

    method SubmitEvent(key: Key, event: E)
      modifies this
      ensures Now() == DoSubmit(merge, old(Now()), key, event)
    {
      if closed { return; }
      accepted := accepted + [Entry(key, event)];
      var event' := event;
      if key in pending {
        armed := armed - {pending[key].timer};
        event' := Folded(merge, pending[key].event, event);
      }
      var id := |timers|;
      timers := timers + [key];
      pending := pending[key := Pending(event', id)];
      armed := armed + {id};
    }

    method FireTimer(timer: nat)
      requires timer < |timers|
      modifies this
      ensures Now() == DoFire(old(Now()), timer)
    {
      armed := armed - {timer};
      var key := timers[timer];
      if key !in pending {
        assert pending - {key} == pending;
        return;
      }
      var event := pending[key].event;
      pending := pending - {key};
      if closed { return; }
      popped := popped + [Entry(key, event)];
    }

    /** The order of `pending.values()` is whatever the loop picks. */
    method CloseAll(flush: bool) returns (ghost order: seq<Key>)
      modifies this
      ensures Lists(order, old(pending.Keys)) && Now() == DoClose(old(Now()), flush, order)
    {
      order := [];
      var todo := pending.Keys;
      var batch: seq<Entry<E>> := [];
      var cancelled: set<nat> := {};
      while todo != {}
        invariant todo <= pending.Keys
        invariant forall i :: 0 <= i < |order| ==> order[i] in pending && order[i] !in todo
        invariant forall k :: k in pending && k !in todo ==> k in order
        invariant forall i, j :: 0 <= i < j < |order| ==> order[i] != order[j]
        invariant batch == Entries(pending, order)
        invariant cancelled == set k | k in pending && k !in todo :: pending[k].timer
        decreases |todo|
      {
        var k :| k in todo;
        order, batch, cancelled, todo := order + [k], batch + [Entry(k, pending[k].event)],
            cancelled + {pending[k].timer}, todo - {k};
      }
      if closed { return; }
      closed, pending, armed := true, map[], armed - cancelled;
      if flush {
        popped := popped + batch;
      } else {
        assert popped + [] == popped;
      }
    }
  }
}
