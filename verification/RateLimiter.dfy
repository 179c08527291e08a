/**
 The console's sliding-window limiter: one deque of admission times per key, pruned before every
 attempt, with a bounded number of keys.
 */
module RateLimiterModel {
  datatype Item = Item(bucket: string, key: string)
  datatype Table = Table(events: map<Item, seq<real>>, windows: map<Item, int>)
  datatype Outcome = Admitted | Limited(retryAfter: int) | WindowChanged | BadParameters

  function Ceil(x: real): (n: int)
    ensures n as real >= x && (n - 1) as real < x
  {
    -((-x).Floor)
  }

  /** Pop from the left while the oldest time is at or before the cutoff. */
  function Recent(times: seq<real>, cutoff: real): seq<real> {
    if times != [] && times[0] <= cutoff then Recent(times[1..], cutoff) else times
  }

  predicate Consistent(t: Table) {
    t.events.Keys == t.windows.Keys
  }

  function RecentOf(t: Table, k: Item, now: real): seq<real>
    requires Consistent(t) && k in t.events
  {
    Recent(t.events[k], now - t.windows[k] as real)
  }

  function Prune(t: Table, now: real): (p: Table)
    requires Consistent(t)
    ensures Consistent(p)
  {
    Table(map k | k in t.events && RecentOf(t, k, now) != [] :: RecentOf(t, k, now),
          map k | k in t.events && RecentOf(t, k, now) != [] :: t.windows[k])
  }

  predicate GoodParameters(item: Item, limit: int, window: int) {
    item.bucket != "" && item.key != "" && limit >= 1 && window >= 1
  }

  /** One attempt: the new table and what the caller is told. */
  function Hit(t: Table, maxKeys: nat, item: Item, limit: int, window: int, now: real): (Table, Outcome)
    requires Consistent(t)
  {
    if !GoodParameters(item, limit, window) then (t, BadParameters)
    else Decide(Prune(t, now), maxKeys, item, limit, window, now)
  }

  /** The attempt on a table just pruned. */
  function Decide(p: Table, maxKeys: nat, item: Item, limit: int, window: int, now: real): (Table, Outcome)
    requires Consistent(p) && limit >= 1
  {
    if item !in p.events then
      if |p.events| >= maxKeys then (p, Limited(window))
      else (Table(p.events[item := [now]], p.windows[item := window]), Admitted)
    else if p.windows[item] != window then (p, WindowChanged)
    else if |p.events[item]| >= limit then (p, Limited(Ceil(window as real - (now - p.events[item][0]))))
    else (p.(events := p.events[item := p.events[item] + [now]]), Admitted)
  }

  /** An attempt is rejected for its parameters alone, and for its window only while the key is still held. */
  lemma RejectedParameters(t: Table, maxKeys: nat, item: Item, limit: int, window: int, now: real)
    requires Consistent(t)
    ensures var (t', o) := Hit(t, maxKeys, item, limit, window, now);
            var held := item in t.events && Recent(t.events[item], now - t.windows[item] as real) != [];
            && (o.BadParameters? <==> item.bucket == "" || item.key == "" || limit < 1 || window < 1)
            && (o.BadParameters? ==> t' == t)
            && (o.WindowChanged? <==> !o.BadParameters? && held && t.windows[item] != window)
            && (!o.Admitted? && !o.BadParameters? ==> t' == Prune(t, now))
            && (o.Admitted? ==>
                  && item in t'.events && t'.events[item] == (if held then RecentOf(t, item, now) else []) + [now]
                  && t'.windows[item] == window
                  && t'.events - {item} == Prune(t, now).events - {item})
  {
    assert [] + [now] == [now];
  }

  /** Nothing left to pop. */
  predicate Settled(t: Table, now: real)
    requires Consistent(t)
  {
    forall k :: k in t.events ==> RecentOf(t, k, now) == t.events[k]
  }

  lemma {:induction false} RecentTwice(times: seq<real>, a: real, b: real)
    requires a <= b
    ensures Recent(Recent(times, a), b) == Recent(times, b)
    decreases |times|
  {
    if times != [] && times[0] <= a { RecentTwice(times[1..], a, b); }
  }

  lemma PruneSettles(t: Table, now: real)
    requires Consistent(t)
    ensures Settled(Prune(t, now), now)
  {
    forall k | k in Prune(t, now).events ensures RecentOf(Prune(t, now), k, now) == Prune(t, now).events[k] {
      var cutoff := now - t.windows[k] as real;
      RecentTwice(t.events[k], cutoff, cutoff);
    }
  }

  /** `ledger/console/rate_limit.py`, class for class. */
  class ConsoleRateLimiter {
    var maxKeys: nat
    var events: map<Item, seq<real>>
    var windows: map<Item, int>

    ghost predicate Valid() reads this { Consistent(State()) }
    ghost function State(): Table reads this { Table(events, windows) }

    constructor (max: nat)
      requires max >= 1
      ensures Valid() && maxKeys == max && State() == Table(map[], map[])
    {
      maxKeys, events, windows := max, map[], map[];
    }

    /** The inner popping loop, on the deque of one key. */
    method PopOld(k: Item, cutoff: real)
      requires Valid() && k in events
      modifies this`events
      ensures Valid() && events == old(events)[k := Recent(old(events)[k], cutoff)]
    {
      while events[k] != [] && events[k][0] <= cutoff
        invariant Valid() && k in events
        invariant events == old(events)[k := events[k]]
        invariant Recent(events[k], cutoff) == Recent(old(events)[k], cutoff)
        decreases |events[k]|
      {
        events := events[k := events[k][1..]];
      }
    }

    /** The first loop of `_prune`: pop every deque and note the ones left empty. */
    method PopAll(now: real) returns (empty: set<Item>)
      requires Valid()
      modifies this`events
      ensures Valid() && events.Keys == old(events.Keys)
      ensures forall k :: k in events ==> events[k] == RecentOf(old(State()), k, now)
      ensures forall k :: k in empty <==> k in events && events[k] == []
    {
      ghost var goal := map k | k in events :: RecentOf(State(), k, now);
      var todo := events.Keys;
      empty := {};
      while todo != {}
        invariant Valid() && events.Keys == old(events.Keys) && todo <= events.Keys
        invariant forall k :: k in todo ==> events[k] == old(events)[k]
        invariant forall k :: k in events && k !in todo ==> events[k] == goal[k]
        invariant forall k :: k in empty <==> k in events && k !in todo && goal[k] == []
        decreases |todo|
      {
        var k :| k in todo;
        ghost var before := events;
        PopOld(k, now - windows[k] as real);
        assert events == before[k := goal[k]];
        if events[k] == [] { empty := empty + {k}; }
        todo := todo - {k};
      }
      assert forall k :: k in events ==> events[k] == goal[k];
    }

    /** The second loop of `_prune`. */
    method Drop(dead: set<Item>)
      requires Valid()
      modifies this`events, this`windows
      ensures Valid() && events == old(events) - dead && windows == old(windows) - dead
    {
      var empty := dead;
      while empty != {}
        invariant Valid() && empty <= dead
        invariant events == old(events) - (dead - empty) && windows == old(windows) - (dead - empty)
        decreases |empty|
      {
        var k :| k in empty;
        events, windows, empty := events - {k}, windows - {k}, empty - {k};
      }
    }

    /** `_prune` */
    method PruneAll(now: real)
      requires Valid()
      modifies this`events, this`windows
      ensures Valid() && State() == Prune(old(State()), now)
    {
      var empty := PopAll(now);
      Drop(empty);
      assert events == Prune(old(State()), now).events;
      assert windows == Prune(old(State()), now).windows;
    }

    /** `hit` after `_prune`, for a key that has no deque. */
    method AdmitFirst(item: Item, limit: int, window: int, now: real) returns (outcome: Outcome)
      requires Valid() && item !in events && limit >= 1
      modifies this`events, this`windows
      ensures Valid() && (State(), outcome) == Decide(old(State()), maxKeys, item, limit, window, now)
    {
      if |events| >= maxKeys { return Limited(window); }
      events, windows := events[item := []], windows[item := window];
      PopOld(item, now - window as real);
      assert events[item] == [];
      events := events[item := events[item] + [now]];
      assert events[item] == [now];
      assert events == old(events)[item := [now]];
      return Admitted;
    }

    /** `hit` after `_prune`, for a key that has one. */
    method AdmitAnother(item: Item, limit: int, window: int, now: real) returns (outcome: Outcome)
      requires Valid() && item in events && limit >= 1 && Settled(State(), now)
      modifies this`events, this`windows
      ensures Valid() && (State(), outcome) == Decide(old(State()), maxKeys, item, limit, window, now)
    {
      if windows[item] != window { return WindowChanged; }
      assert RecentOf(State(), item, now) == events[item];
      PopOld(item, now - window as real);
      assert events == old(events);
      if |events[item]| >= limit {
        return Limited(Ceil(window as real - (now - events[item][0])));
      }
      events := events[item := events[item] + [now]];
      return Admitted;
    }

    /** `hit`, with the clock reading as a parameter. */
    method HitAt(item: Item, limit: int, window: int, now: real) returns (outcome: Outcome)
      requires Valid()
      modifies this`events, this`windows
      ensures Valid() && (State(), outcome) == Hit(old(State()), maxKeys, item, limit, window, now)
    {
      if !GoodParameters(item, limit, window) { return BadParameters; }
      PruneAll(now);
      PruneSettles(old(State()), now);
      if item !in events {
        outcome := AdmitFirst(item, limit, window, now);
      } else {
        outcome := AdmitAnother(item, limit, window, now);
      }
    }
  }
}
