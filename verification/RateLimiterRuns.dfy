/** Whole runs of the limiter: calls in clock order, one fixed limit and window per key. */
module RateLimiterRuns {
  import opened RateLimiterModel

  datatype Call = Call(item: Item, now: real)
  datatype Rate = Rate(limit: int, window: int)
  datatype History = History(table: Table, admitted: seq<Call>)

  function LimitOf(policy: Item -> Rate, k: Item): int { policy(k).limit }
  function WindowOf(policy: Item -> Rate, k: Item): int { policy(k).window }

  /** Admissions at or before this time no longer count. */
  function Cutoff(policy: Item -> Rate, k: Item, now: real): real { now - WindowOf(policy, k) as real }

  ghost predicate Sensible(policy: Item -> Rate) {
    forall k: Item :: LimitOf(policy, k) >= 1 && WindowOf(policy, k) >= 1
  }

  predicate InClockOrder(calls: seq<Call>) {
    forall i, j :: 0 <= i < j < |calls| ==> calls[i].now <= calls[j].now
  }

  predicate Named(k: Item) {
    k.bucket != "" && k.key != ""
  }

  predicate AllNamed(calls: seq<Call>) {
    forall i :: 0 <= i < |calls| ==> Named(calls[i].item)
  }

  function HitBy(t: Table, maxKeys: nat, policy: Item -> Rate, c: Call): (Table, Outcome)
    requires Consistent(t)
  {
    Hit(t, maxKeys, c.item, LimitOf(policy, c.item), WindowOf(policy, c.item), c.now)
  }

  function Step(h: History, maxKeys: nat, policy: Item -> Rate, c: Call): (r: History)
    requires Consistent(h.table)
    ensures Consistent(r.table)
  {
    var (t, outcome) := HitBy(h.table, maxKeys, policy, c);
    History(t, if outcome.Admitted? then h.admitted + [c] else h.admitted)
  }

  function Run(maxKeys: nat, policy: Item -> Rate, calls: seq<Call>): (r: History)
    ensures Consistent(r.table)
  {
    if calls == [] then History(Table(map[], map[]), [])
    else Step(Run(maxKeys, policy, calls[..|calls| - 1]), maxKeys, policy, calls[|calls| - 1])
  }

  /** Times at which `k` was admitted, oldest first. */
  function Times(admitted: seq<Call>, k: Item): seq<real> {
    if admitted == [] then []
    else
      var c := admitted[|admitted| - 1];
      Times(admitted[..|admitted| - 1], k) + if c.item == k then [c.now] else []
  }

  function Deque(t: Table, k: Item): seq<real> {
    if k in t.events then t.events[k] else []
  }

  /** Admissions of `k` that still count at time `now`. */
  function Live(admitted: seq<Call>, policy: Item -> Rate, k: Item, now: real): seq<real> {
    Recent(Times(admitted, k), Cutoff(policy, k, now))
  }

  predicate WithinLimit(admitted: seq<Call>, policy: Item -> Rate, i: nat)
    requires i < |admitted|
  {
    var c := admitted[i];
    |Live(admitted[..i + 1], policy, c.item, c.now)| <= LimitOf(policy, c.item)
  }

  // ---------------------------------------------------------------- invariant

  ghost predicate TableOk(t: Table, maxKeys: nat, policy: Item -> Rate) {
    && Consistent(t) && |t.events| <= maxKeys
    && forall k :: k in t.events ==> t.windows[k] == WindowOf(policy, k) && t.events[k] != []
  }

  ghost predicate Inv(h: History, maxKeys: nat, policy: Item -> Rate, now: real) {
    && TableOk(h.table, maxKeys, policy)
    && InClockOrder(h.admitted) && (forall i :: 0 <= i < |h.admitted| ==>
          h.admitted[i].now <= now && Named(h.admitted[i].item))
    && (forall k :: Deque(h.table, k) == Live(h.admitted, policy, k, now))
    && forall i: nat :: i < |h.admitted| ==> WithinLimit(h.admitted, policy, i)
  }

  lemma {:induction false} RecentAppend(times: seq<real>, x: real, cutoff: real)
    requires x > cutoff
    ensures Recent(times + [x], cutoff) == Recent(times, cutoff) + [x]
    decreases |times|
  {
    if times != [] && times[0] <= cutoff {
      assert (times + [x])[1..] == times[1..] + [x];
      RecentAppend(times[1..], x, cutoff);
    }
  }

  lemma LiveLater(admitted: seq<Call>, policy: Item -> Rate, k: Item, now: real, later: real)
    requires now <= later
    ensures Recent(Live(admitted, policy, k, now), Cutoff(policy, k, later)) == Live(admitted, policy, k, later)
  {
    RecentTwice(Times(admitted, k), Cutoff(policy, k, now), Cutoff(policy, k, later));
  }

  lemma LiveAppend(admitted: seq<Call>, policy: Item -> Rate, c: Call, k: Item)
    requires WindowOf(policy, k) >= 1
    ensures Live(admitted + [c], policy, k, c.now) == Live(admitted, policy, k, c.now) + if c.item == k
            then [c.now] else []
  {
    assert (admitted + [c])[..|admitted|] == admitted;
    if c.item == k {
      RecentAppend(Times(admitted, k), c.now, Cutoff(policy, k, c.now));
    } else {
      assert Times(admitted, k) + [] == Times(admitted, k);
      assert Live(admitted, policy, k, c.now) + [] == Live(admitted, policy, k, c.now);
    }
  }

  lemma PruneShrinks(t: Table, now: real)
    requires Consistent(t)
    ensures |Prune(t, now).events| <= |t.events|
  {
    assert Prune(t, now).events.Keys <= t.events.Keys;
    Subset(Prune(t, now).events.Keys, t.events.Keys);
  }

  lemma {:induction false} Subset(a: set<Item>, b: set<Item>)
    requires a <= b
    ensures |a| <= |b|
  {
    assert b == a + (b - a);
  }

  /** After pruning, each deque is what still counts. */
  lemma PruneAdvances(h: History, maxKeys: nat, policy: Item -> Rate, now: real, later: real)
    requires Inv(h, maxKeys, policy, now) && now <= later
    ensures TableOk(Prune(h.table, later), maxKeys, policy)
    ensures forall k :: Deque(Prune(h.table, later), k) == Live(h.admitted, policy, k, later)
  {
    PruneShrinks(h.table, later);
    forall k ensures Deque(Prune(h.table, later), k) == Live(h.admitted, policy, k, later) {
      LiveLater(h.admitted, policy, k, now, later);
      assert Deque(h.table, k) == Live(h.admitted, policy, k, now);
    }
  }

  lemma PrefixLimits(admitted: seq<Call>, policy: Item -> Rate, c: Call)
    requires forall i: nat :: i < |admitted| ==> WithinLimit(admitted, policy, i)
    requires WithinLimit(admitted + [c], policy, |admitted|)
    ensures forall i: nat :: i < |admitted + [c]| ==> WithinLimit(admitted + [c], policy, i)
  {
    forall i: nat | i < |admitted| ensures WithinLimit(admitted + [c], policy, i) {
      assert WithinLimit(admitted, policy, i);
      assert (admitted + [c])[..i + 1] == admitted[..i + 1];
    }
  }

  lemma AdmissionTable(p: Table, maxKeys: nat, policy: Item -> Rate, c: Call, t: Table)
    requires Sensible(policy) && TableOk(p, maxKeys, policy)
    requires Decide(p, maxKeys, c.item, LimitOf(policy, c.item), WindowOf(policy, c.item), c.now) == (t, Admitted)
    ensures TableOk(t, maxKeys, policy)
  {
    assert t.events.Keys == p.events.Keys + {c.item};
    assert |t.events| == |t.events.Keys| && |p.events| == |p.events.Keys|;
    forall k | k in t.events ensures t.windows[k] == WindowOf(policy, k) && t.events[k] != [] {
      assert k != c.item ==> k in p.events && t.events[k] == p.events[k] && t.windows[k] == p.windows[k];
    }
  }

  lemma AdmissionAppends(p: Table, maxKeys: nat, policy: Item -> Rate, c: Call, t: Table)
    requires Sensible(policy) && TableOk(p, maxKeys, policy)
    requires Decide(p, maxKeys, c.item, LimitOf(policy, c.item), WindowOf(policy, c.item), c.now) == (t, Admitted)
    ensures Deque(t, c.item) == Deque(p, c.item) + [c.now] && |Deque(t, c.item)| <= LimitOf(policy, c.item)
    ensures forall k :: k != c.item ==> Deque(t, k) == Deque(p, k)
  {
  }

  lemma AdmissionDeques(admitted: seq<Call>, policy: Item -> Rate, c: Call, p: Table, t: Table)
    requires Sensible(policy) && forall k :: Deque(p, k) == Live(admitted, policy, k, c.now)
    requires Deque(t, c.item) == Deque(p, c.item) + [c.now]
    requires forall k :: k != c.item ==> Deque(t, k) == Deque(p, k)
    ensures forall k :: Deque(t, k) == Live(admitted + [c], policy, k, c.now)
  {
    forall k ensures Deque(t, k) == Live(admitted + [c], policy, k, c.now) {
      LiveAppend(admitted, policy, c, k);
      assert Deque(p, k) == Live(admitted, policy, k, c.now);
      if k != c.item {
        assert Deque(t, k) == Deque(p, k) && Deque(p, k) + [] == Deque(p, k);
      }
    }
  }

  lemma AdmissionLimit(admitted: seq<Call>, policy: Item -> Rate, c: Call)
    requires forall i: nat :: i < |admitted| ==> WithinLimit(admitted, policy, i)
    requires |Live(admitted + [c], policy, c.item, c.now)| <= LimitOf(policy, c.item)
    ensures forall i: nat :: i < |admitted + [c]| ==> WithinLimit(admitted + [c], policy, i)
  {
    var all := admitted + [c];
    assert all[..|admitted| + 1] == all;
    assert WithinLimit(all, policy, |admitted|);
    PrefixLimits(admitted, policy, c);
  }

  lemma AdmissionKeepsInv(h: History, maxKeys: nat, policy: Item -> Rate, now: real, c: Call, p: Table, t: Table)
    requires Sensible(policy) && Inv(h, maxKeys, policy, now) && now <= c.now && Named(c.item)
    requires TableOk(p, maxKeys, policy) && forall k :: Deque(p, k) == Live(h.admitted, policy, k, c.now)
    requires Decide(p, maxKeys, c.item, LimitOf(policy, c.item), WindowOf(policy, c.item), c.now) == (t, Admitted)
    ensures Inv(History(t, h.admitted + [c]), maxKeys, policy, c.now)
  {
    AdmissionTable(p, maxKeys, policy, c, t);
    AdmissionAppends(p, maxKeys, policy, c, t);
    AdmissionDeques(h.admitted, policy, c, p, t);
    assert Deque(t, c.item) == Live(h.admitted + [c], policy, c.item, c.now);
    AdmissionLimit(h.admitted, policy, c);
  }

  lemma StepKeepsInv(h: History, maxKeys: nat, policy: Item -> Rate, now: real, c: Call)
    requires Sensible(policy) && Inv(h, maxKeys, policy, now) && now <= c.now && Named(c.item)
    ensures Inv(Step(h, maxKeys, policy, c), maxKeys, policy, c.now)
  {
    PruneAdvances(h, maxKeys, policy, now, c.now);
    var p := Prune(h.table, c.now);
    var (t, outcome) := HitBy(h.table, maxKeys, policy, c);
    if outcome.Admitted? {
      AdmissionKeepsInv(h, maxKeys, policy, now, c, p, t);
    } else {
      assert t == p;
    }
  }

  lemma {:induction false} RunKeepsInv(maxKeys: nat, policy: Item -> Rate, calls: seq<Call>, now: real)
    requires Sensible(policy) && InClockOrder(calls) && AllNamed(calls)
    requires calls != [] ==> now == calls[|calls| - 1].now
    ensures Inv(Run(maxKeys, policy, calls), maxKeys, policy, now)
    decreases |calls|
  {
    if calls != [] {
      var init := calls[..|calls| - 1];
      var earlier := if init == [] then now else init[|init| - 1].now;
      RunKeepsInv(maxKeys, policy, init, earlier);
      StepKeepsInv(Run(maxKeys, policy, init), maxKeys, policy, earlier, calls[|calls| - 1]);
    }
  }

  // ---------------------------------------------------------------- main results

  /** The stored deque is the admitted history inside the window, and the table stays bounded. */
  lemma DequeIsTheWindow(maxKeys: nat, policy: Item -> Rate, calls: seq<Call>, k: Item)
    requires Sensible(policy) && InClockOrder(calls) && AllNamed(calls) && calls != []
    ensures var h := Run(maxKeys, policy, calls);
            Deque(h.table, k) == InWindow(Times(h.admitted, k), Cutoff(policy, k, calls[|calls| - 1].now))
    ensures |Run(maxKeys, policy, calls).table.events| <= maxKeys
  {
    var now := calls[|calls| - 1].now;
    RunKeepsInv(maxKeys, policy, calls, now);
    DequeWithInv(Run(maxKeys, policy, calls), maxKeys, policy, now, k);
  }

  lemma DequeWithInv(h: History, maxKeys: nat, policy: Item -> Rate, now: real, k: Item)
    requires Inv(h, maxKeys, policy, now)
    ensures Deque(h.table, k) == InWindow(Times(h.admitted, k), Cutoff(policy, k, now))
    ensures |h.table.events| <= maxKeys
  {
    assert Deque(h.table, k) == Live(h.admitted, policy, k, now);
    TimesAreSorted(h.admitted, k, now);
    RecentIsFilter(Times(h.admitted, k), Cutoff(policy, k, now));
  }

  /** The times strictly after a cutoff, as a filter. */
  function InWindow(times: seq<real>, cutoff: real): seq<real> {
    if times == [] then []
    else (if times[0] > cutoff then [times[0]] else []) + InWindow(times[1..], cutoff)
  }

  predicate SortedTimes(times: seq<real>) {
    forall i, j :: 0 <= i < j < |times| ==> times[i] <= times[j]
  }

  lemma {:induction false} RecentIsFilter(times: seq<real>, cutoff: real)
    requires SortedTimes(times)
    ensures Recent(times, cutoff) == InWindow(times, cutoff)
    decreases |times|
  {
    if times != [] {
      RecentIsFilter(times[1..], cutoff);
      if times[0] > cutoff {
        assert times[1..] != [] ==> times[1..][0] == times[1];
        assert Recent(times[1..], cutoff) == times[1..];
        assert times == [times[0]] + times[1..];
      }
    }
  }

  lemma {:induction false} TimesAreSorted(admitted: seq<Call>, k: Item, now: real)
    requires InClockOrder(admitted) && forall i :: 0 <= i < |admitted| ==> admitted[i].now <= now
    ensures SortedTimes(Times(admitted, k)) && forall i :: 0 <= i < |Times(admitted, k)| ==>
              Times(admitted, k)[i] <= now
    decreases |admitted|
  {
    if admitted != [] {
      var c := admitted[|admitted| - 1];
      TimesAreSorted(admitted[..|admitted| - 1], k, c.now);
    }
  }

  /** An interval of one window: open on the left and closed on the right, or the other way round. */
  datatype Interval = Interval(lo: real, hi: real, openLeft: bool)

  predicate Inside(t: real, i: Interval) {
    if i.openLeft then i.lo < t <= i.hi else i.lo <= t < i.hi
  }

  /** How many admissions of `k` fall in the interval. */
  function Count(admitted: seq<Call>, k: Item, i: Interval): nat {
    if admitted == [] then 0
    else
      var c := admitted[|admitted| - 1];
      Count(admitted[..|admitted| - 1], k, i) + if c.item == k && Inside(c.now, i) then 1 else 0
  }

  lemma {:induction false} InWindowAppend(times: seq<real>, x: real, cutoff: real)
    ensures InWindow(times + [x], cutoff) == InWindow(times, cutoff) + if x > cutoff then [x] else []
    decreases |times|
  {
    if times == [] {
      assert times + [x] == [x];
    } else {
      assert (times + [x])[1..] == times[1..] + [x];
      InWindowAppend(times[1..], x, cutoff);
    }
  }

  /** Admissions in an interval that ends no earlier than `cutoff + window` are all after the cutoff. */
  lemma {:induction false} CountIsCovered(admitted: seq<Call>, k: Item, i: Interval, cutoff: real)
    requires if i.openLeft then cutoff <= i.lo else cutoff < i.lo
    ensures Count(admitted, k, i) <= |InWindow(Times(admitted, k), cutoff)|
    decreases |admitted|
  {
    if admitted != [] {
      var init, c := admitted[..|admitted| - 1], admitted[|admitted| - 1];
      CountIsCovered(init, k, i, cutoff);
      if c.item == k {
        InWindowAppend(Times(init, k), c.now, cutoff);
      } else {
        assert Times(init, k) + [] == Times(init, k);
      }
    }
  }

  lemma {:induction false} CountWithinLimit(admitted: seq<Call>, policy: Item -> Rate, k: Item, i: Interval)
    requires Sensible(policy) && InClockOrder(admitted) && i.hi == i.lo + WindowOf(policy, k) as real
    requires forall j: nat :: j < |admitted| ==> WithinLimit(admitted, policy, j)
    ensures Count(admitted, k, i) <= LimitOf(policy, k)
    decreases |admitted|
  {
    if admitted != [] {
      var n := |admitted| - 1;
      var c := admitted[n];
      if c.item == k && Inside(c.now, i) {
        var cutoff := Cutoff(policy, k, c.now);
        CountIsCovered(admitted, k, i, cutoff);
        assert admitted[..n + 1] == admitted;
        assert WithinLimit(admitted, policy, n);
        TimesAreSorted(admitted, k, c.now);
        RecentIsFilter(Times(admitted, k), cutoff);
      } else {
        forall j: nat | j < n ensures WithinLimit(admitted[..n], policy, j) {
          assert WithinLimit(admitted, policy, j);
          assert admitted[..n][..j + 1] == admitted[..j + 1];
        }
        CountWithinLimit(admitted[..n], policy, k, i);
      }
    }
  }

  /** No interval of one window's length ever holds more than `limit` admissions of a key. */
  lemma SlidingWindow(maxKeys: nat, policy: Item -> Rate, calls: seq<Call>, k: Item, i: Interval)
    requires Sensible(policy) && InClockOrder(calls) && AllNamed(calls)
    requires i.hi == i.lo + WindowOf(policy, k) as real
    ensures Count(Run(maxKeys, policy, calls).admitted, k, i) <= LimitOf(policy, k)
  {
    RunKeepsInv(maxKeys, policy, calls, if calls == [] then 0.0 else calls[|calls| - 1].now);
    CountWithinLimit(Run(maxKeys, policy, calls).admitted, policy, k, i);
  }

  predicate Appends(calls: seq<Call>, c: Call) {
    InClockOrder(calls + [c]) && AllNamed(calls + [c])
  }

  lemma BeforeAppend(calls: seq<Call>, c: Call) returns (now: real)
    requires Appends(calls, c)
    ensures InClockOrder(calls) && AllNamed(calls) && Named(c.item) && now <= c.now
    ensures calls != [] ==> now == calls[|calls| - 1].now
  {
    var all := calls + [c];
    assert forall i :: 0 <= i < |calls| ==> all[i] == calls[i];
    assert all[|calls|] == c;
    now := if calls == [] then c.now else calls[|calls| - 1].now;
  }

  lemma LiveBounds(admitted: seq<Call>, policy: Item -> Rate, k: Item, now: real)
    requires InClockOrder(admitted) && forall i :: 0 <= i < |admitted| ==> admitted[i].now <= now
    ensures var es := Live(admitted, policy, k, now);
            es != [] ==> Cutoff(policy, k, now) < es[0] <= now
  {
    TimesAreSorted(admitted, k, now);
    RecentIsSuffix(Times(admitted, k), Cutoff(policy, k, now));
  }

  lemma {:induction false} RecentIsSuffix(times: seq<real>, cutoff: real)
    ensures |Recent(times, cutoff)| <= |times| && Recent(times, cutoff) == times[|times| - |Recent(times, cutoff)|..]
    ensures Recent(times, cutoff) != [] ==> Recent(times, cutoff)[0] > cutoff
    decreases |times|
  {
    if times != [] && times[0] <= cutoff { RecentIsSuffix(times[1..], cutoff); }
  }

  /** A refusal asks the caller to wait between one second and one window; no other refusal exists. */
  lemma RetryAfterIsBounded(maxKeys: nat, policy: Item -> Rate, calls: seq<Call>, c: Call)
    requires Sensible(policy) && Appends(calls, c)
    ensures var outcome := HitBy(Run(maxKeys, policy, calls).table, maxKeys, policy, c).1;
            outcome.Admitted? || (outcome.Limited? && 1 <= outcome.retryAfter <= WindowOf(policy, c.item))
  {
    var now := BeforeAppend(calls, c);
    var h := Run(maxKeys, policy, calls);
    RunKeepsInv(maxKeys, policy, calls, now);
    PruneAdvances(h, maxKeys, policy, now, c.now);
    LiveBounds(h.admitted, policy, c.item, c.now);
    var p := Prune(h.table, c.now);
    assert Deque(p, c.item) == Live(h.admitted, policy, c.item, c.now);
  }

  /** Admission in terms of the history alone: room in the table, and fewer than `limit` live admissions. */
  lemma AdmittedExactly(maxKeys: nat, policy: Item -> Rate, calls: seq<Call>, c: Call)
    requires Sensible(policy) && Appends(calls, c)
    ensures var h := Run(maxKeys, policy, calls);
            var live := Live(h.admitted, policy, c.item, c.now);
            HitBy(h.table, maxKeys, policy, c).1.Admitted?
            <==> if live == [] then |Prune(h.table, c.now).events| < maxKeys else |live| < LimitOf(policy, c.item)
  {
    var now := BeforeAppend(calls, c);
    var h := Run(maxKeys, policy, calls);
    RunKeepsInv(maxKeys, policy, calls, now);
    PruneAdvances(h, maxKeys, policy, now, c.now);
    var p := Prune(h.table, c.now);
    assert Deque(p, c.item) == Live(h.admitted, policy, c.item, c.now);
  }

  /** The pruned table holds a key exactly while it has live admissions. */
  lemma HeldIsLive(maxKeys: nat, policy: Item -> Rate, calls: seq<Call>, c: Call)
    requires Sensible(policy) && Appends(calls, c)
    ensures var h := Run(maxKeys, policy, calls);
            c.item in Prune(h.table, c.now).events <==> Live(h.admitted, policy, c.item, c.now) != []
  {
    var now := BeforeAppend(calls, c);
    var h := Run(maxKeys, policy, calls);
    RunKeepsInv(maxKeys, policy, calls, now);
    PruneAdvances(h, maxKeys, policy, now, c.now);
    assert Deque(Prune(h.table, c.now), c.item) == Live(h.admitted, policy, c.item, c.now);
  }

  predicate Avoids(calls: seq<Call>, k: Item) {
    forall i :: 0 <= i < |calls| ==> calls[i].item != k
  }

  lemma {:induction false} OthersLeaveTimes(maxKeys: nat, policy: Item -> Rate, calls: seq<Call>, more: seq<Call>,
      k: Item)
    requires Avoids(more, k)
    ensures Times(Run(maxKeys, policy, calls + more).admitted, k) == Times(Run(maxKeys, policy, calls).admitted, k)
    decreases |more|
  {
    if more == [] {
      assert calls + more == calls;
    } else {
      var init, c := more[..|more| - 1], more[|more| - 1];
      OthersLeaveTimes(maxKeys, policy, calls, init, k);
      assert (calls + more)[..|calls + more| - 1] == calls + init;
      assert (calls + more)[|calls + more| - 1] == c;
      var h := Run(maxKeys, policy, calls + init);
      assert (h.admitted + [c])[..|h.admitted|] == h.admitted;
      assert Times(h.admitted, k) + [] == Times(h.admitted, k);
    }
  }

  /** Popping past the oldest entry leaves at least one fewer. */
  lemma OldestExpires(times: seq<real>, a: real, b: real)
    requires a <= b && Recent(times, a) != [] && Recent(times, a)[0] <= b
    ensures |Recent(times, b)| < |Recent(times, a)|
  {
    RecentTwice(times, a, b);
    RecentIsSuffix(Recent(times, a)[1..], b);
  }

  /**
   A caller who was refused at `c` and waits the advertised time, while only other keys are used, is
   admitted, unless the table has no room for a key it does not hold.
   */
  lemma RetryAfterSuffices(maxKeys: nat, policy: Item -> Rate, calls: seq<Call>, c: Call, others: seq<Call>,
      again: Call)
    requires Sensible(policy) && Appends(calls + [c] + others, again) && Appends(calls, c)
    requires Avoids(others, c.item) && again.item == c.item
    requires var outcome := HitBy(Run(maxKeys, policy, calls).table, maxKeys, policy, c).1;
             outcome.Limited? && again.now >= c.now + outcome.retryAfter as real
    requires var p := Prune(Run(maxKeys, policy, calls + [c] + others).table, again.now);
             c.item in p.events || |p.events| < maxKeys
    ensures HitBy(Run(maxKeys, policy, calls + [c] + others).table, maxKeys, policy, again).1.Admitted?
  {
    var k := c.item;
    var now := BeforeAppend(calls, c);
    RunKeepsInv(maxKeys, policy, calls, now);
    RefusedLeavesTimes(maxKeys, policy, calls, c);
    OthersLeaveTimes(maxKeys, policy, calls + [c], others, k);
    RetryAfterIsBounded(maxKeys, policy, calls, c);
    WaitingFreesASlot(Run(maxKeys, policy, calls), maxKeys, policy, now, c, again.now);
    AdmittedExactly(maxKeys, policy, calls + [c] + others, again);
    HeldIsLive(maxKeys, policy, calls + [c] + others, again);
  }

  /** What a refusal says: one window when the table is full, else the whole seconds until the oldest expires. */
  lemma RefusalIsExact(maxKeys: nat, policy: Item -> Rate, calls: seq<Call>, c: Call)
    requires Sensible(policy) && Appends(calls, c)
    ensures var h := Run(maxKeys, policy, calls);
            var live := Live(h.admitted, policy, c.item, c.now);
            var outcome := HitBy(h.table, maxKeys, policy, c).1;
            !outcome.Admitted? ==>
              && outcome.Limited?
              && (live == [] ==> outcome.retryAfter == WindowOf(policy, c.item))
              && (live != [] ==>
                    && |live| == LimitOf(policy, c.item)
                    && c.now + outcome.retryAfter as real - 1.0 < live[0] + WindowOf(policy, c.item) as real
                    && live[0] + WindowOf(policy, c.item) as real <= c.now + outcome.retryAfter as real)
  {
    var now := BeforeAppend(calls, c);
    var h := Run(maxKeys, policy, calls);
    RunKeepsInv(maxKeys, policy, calls, now);
    PruneAdvances(h, maxKeys, policy, now, c.now);
    LiveWithinLimit(h.admitted, policy, c.item, c.now);
    var p := Prune(h.table, c.now);
    assert Deque(p, c.item) == Live(h.admitted, policy, c.item, c.now);
  }

  lemma {:induction false} NothingExpires(times: seq<real>, a: real, b: real)
    requires Recent(times, a) != [] && a <= b < Recent(times, a)[0]
    ensures Recent(times, b) == Recent(times, a)
  {
    RecentTwice(times, a, b);
  }

  /**
   The advertised time is the least number of whole seconds: a caller at its limit who comes back a
   second earlier, while only other keys are used, is refused again.
   */
  lemma RetryAfterIsLeast(maxKeys: nat, policy: Item -> Rate, calls: seq<Call>, c: Call, others: seq<Call>,
      again: Call)
    requires Sensible(policy) && Appends(calls + [c] + others, again) && Appends(calls, c)
    requires Avoids(others, c.item) && again.item == c.item && c.now <= again.now
    requires Live(Run(maxKeys, policy, calls).admitted, policy, c.item, c.now) != []
    requires var outcome := HitBy(Run(maxKeys, policy, calls).table, maxKeys, policy, c).1;
             outcome.Limited? && again.now <= c.now + outcome.retryAfter as real - 1.0
    ensures HitBy(Run(maxKeys, policy, calls + [c] + others).table, maxKeys, policy, again).1.Limited?
  {
    var k := c.item;
    RefusalIsExact(maxKeys, policy, calls, c);
    RefusedLeavesTimes(maxKeys, policy, calls, c);
    OthersLeaveTimes(maxKeys, policy, calls + [c], others, k);
    NothingExpires(Times(Run(maxKeys, policy, calls).admitted, k), Cutoff(policy, k, c.now),
        Cutoff(policy, k, again.now));
    AdmittedExactly(maxKeys, policy, calls + [c] + others, again);
    RetryAfterIsBounded(maxKeys, policy, calls + [c] + others, again);
  }

  lemma RefusedLeavesTimes(maxKeys: nat, policy: Item -> Rate, calls: seq<Call>, c: Call)
    requires HitBy(Run(maxKeys, policy, calls).table, maxKeys, policy, c).1.Limited?
    ensures Run(maxKeys, policy, calls + [c]).admitted == Run(maxKeys, policy, calls).admitted
  {
    assert (calls + [c])[..|calls|] == calls;
  }

  lemma WaitingFreesASlot(h: History, maxKeys: nat, policy: Item -> Rate, now: real, c: Call, later: real)
    requires Sensible(policy) && Inv(h, maxKeys, policy, now) && now <= c.now && Named(c.item)
    requires var outcome := HitBy(h.table, maxKeys, policy, c).1;
             outcome.Limited? && c.now <= later && later >= c.now + outcome.retryAfter as real
    ensures |Live(h.admitted, policy, c.item, later)| < LimitOf(policy, c.item)
  {
    var k := c.item;
    PruneAdvances(h, maxKeys, policy, now, c.now);
    assert Deque(Prune(h.table, c.now), k) == Live(h.admitted, policy, k, c.now);
    LiveWithinLimit(h.admitted, policy, k, c.now);
    var a, b := Cutoff(policy, k, c.now), Cutoff(policy, k, later);
    if Live(h.admitted, policy, k, c.now) != [] {
      OldestExpires(Times(h.admitted, k), a, b);
    } else {
      RecentTwice(Times(h.admitted, k), a, b);
    }
  }

  /** The live admissions of one key never exceed its limit. */
  lemma {:induction false} LiveWithinLimit(admitted: seq<Call>, policy: Item -> Rate, k: Item, now: real)
    requires Sensible(policy)
    requires forall j: nat :: j < |admitted| ==> WithinLimit(admitted, policy, j) && admitted[j].now <= now
    ensures |Live(admitted, policy, k, now)| <= LimitOf(policy, k)
    decreases |admitted|
  {
    if admitted != [] {
      var n := |admitted| - 1;
      var c := admitted[n];
      assert admitted[..n + 1] == admitted;
      if c.item == k {
        assert WithinLimit(admitted, policy, n);
        LiveLater(admitted, policy, k, c.now, now);
        RecentIsSuffix(Live(admitted, policy, k, c.now), Cutoff(policy, k, now));
      } else {
        forall j: nat | j < n ensures WithinLimit(admitted[..n], policy, j) {
          assert WithinLimit(admitted, policy, j);
          assert admitted[..n][..j + 1] == admitted[..j + 1];
        }
        LiveWithinLimit(admitted[..n], policy, k, now);
        assert Times(admitted[..n], k) + [] == Times(admitted[..n], k);
      }
    }
  }
}
