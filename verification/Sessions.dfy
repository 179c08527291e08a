/**
 Browser sessions of the console: rows keyed by the hash of an opaque cookie, with an idle and an
 absolute expiry, and the CHECKs and triggers of their table. Times are microseconds.
 */
module SessionsModel {
  import opened Basics

  type Hash = nat
  type User = nat

  datatype Row = Row(user: User, created: int, lastSeen: int, absolute: int, idle: int)
  datatype Lifetimes = Lifetimes(absolute: int, idle: int)
  type Table = map<Hash, Row>

  datatype Status = Valid | Missing | Expired | IdentityMismatch | Rejected

  /** The constructor's own checks. */
  predicate GoodLifetimes(c: Lifetimes) {
    0 < c.idle < c.absolute
  }

  function Min(a: int, b: int): int { if a <= b then a else b }

  /** The CHECK constraints on times. */
  predicate RowChecks(r: Row) {
    r.created <= r.lastSeen <= r.idle <= r.absolute
  }

  /** `console_sessions_identity_write_once` and `console_sessions_time_moves_forward` */
  predicate UpdateAccepted(before: Row, after: Row) {
    && after.user == before.user && after.created == before.created && after.absolute == before.absolute
    && !(after.lastSeen < before.lastSeen || after.idle < after.lastSeen || after.idle > after.absolute)
  }

  function NewRow(c: Lifetimes, user: User, now: int): Row {
    Row(user, now, now, now + c.absolute, Min(now + c.idle, now + c.absolute))
  }

  function Seen(c: Lifetimes, r: Row, now: int): Row {
    r.(lastSeen := now, idle := Min(now + c.idle, r.absolute))
  }

  function Dead(r: Row, now: int): bool {
    now >= r.absolute || now >= r.idle
  }

  /** `lookup`; a cookie that is absent or malformed has no hash. */
  function DoLookup(c: Lifetimes, t: Table, cookie: Option<Hash>, user: User, now: int): (Table, Status) {
    if cookie.None? || cookie.value !in t then (t, Missing)
    else
      var h := cookie.value;
      var r := t[h];
      if !RowChecks(r) then (t, Rejected)
      else if r.user != user then (t - {h}, IdentityMismatch)
      else if Dead(r, now) then (t - {h}, Expired)
      else
        var r' := Seen(c, r, now);
        if !UpdateAccepted(r, r') || !RowChecks(r') then (t, Rejected) else (t[h := r'], Valid)
  }

  /** `cleanup_expired` */
  function DoCleanup(t: Table, now: int): Table {
    map h | h in t && !(t[h].absolute <= now || t[h].idle <= now) :: t[h]
  }

  /** One attempt of `create`: a hash already present violates the primary key. */
  function DoCreate(c: Lifetimes, t: Table, h: Hash, user: User, now: int): Table {
    if h in t then t else t[h := NewRow(c, user, now)]
  }

  // ---------------------------------------------------------------- runs

  datatype Op = Create(hash: Hash, user: User) | Lookup(cookie: Option<Hash>, user: User) | Cleanup | Delete(hash: Hash)
  datatype Timed = Timed(op: Op, now: int)

  function Step(c: Lifetimes, t: Table, e: Timed): Table {
    match e.op
    case Create(h, u) => DoCreate(c, t, h, u, e.now)
    case Lookup(k, u) => DoLookup(c, t, k, u, e.now).0
    case Cleanup => DoCleanup(t, e.now)
    case Delete(h) => t - {h}
  }

  function Run(c: Lifetimes, t: Table, es: seq<Timed>): Table {
    if es == [] then t else Step(c, Run(c, t, es[..|es| - 1]), es[|es| - 1])
  }

  /** The clock never runs backwards, starting from `now`. */
  predicate Clocked(es: seq<Timed>, now: int) {
    (forall i :: 0 <= i < |es| ==> now <= es[i].now) && forall i, j :: 0 <= i < j < |es| ==> es[i].now <= es[j].now
  }

  function LastTime(es: seq<Timed>, now: int): int {
    if es == [] then now else es[|es| - 1].now
  }

  /** Every row is consistent and was last touched in the past. */
  predicate TableOk(t: Table, now: int) {
    forall h :: h in t ==> RowChecks(t[h]) && t[h].lastSeen <= now
  }

  lemma StepKeepsTable(c: Lifetimes, t: Table, e: Timed, now: int)
    requires GoodLifetimes(c) && TableOk(t, now) && now <= e.now
    ensures TableOk(Step(c, t, e), e.now)
  {
  }

  /** With a clock that never runs back, every row of every reachable table satisfies the CHECKs. */
  lemma {:induction false} ReachableTablesAreSound(c: Lifetimes, t: Table, es: seq<Timed>, now: int)
    requires GoodLifetimes(c) && TableOk(t, now) && Clocked(es, now)
    ensures TableOk(Run(c, t, es), LastTime(es, now))
    decreases |es|
  {
    if es != [] {
      ReachableTablesAreSound(c, t, es[..|es| - 1], now);
      StepKeepsTable(c, Run(c, t, es[..|es| - 1]), es[|es| - 1], LastTime(es[..|es| - 1], now));
    }
  }

  /** The database refuses a lookup exactly when the clock ran back past the last use of a live session. */
  lemma RejectedExactly(c: Lifetimes, t: Table, h: Hash, user: User, now: int, seen: int)
    requires GoodLifetimes(c) && TableOk(t, seen) && h in t
    ensures DoLookup(c, t, Some(h), user, now).1 == Rejected
            <==> t[h].user == user && !Dead(t[h], now) && now < t[h].lastSeen
  {
  }

  /** Every other answer: what the lookup says, and what becomes of the row. */
  lemma LookupAnswersExactly(c: Lifetimes, t: Table, cookie: Option<Hash>, user: User, now: int, seen: int)
    requires GoodLifetimes(c) && TableOk(t, seen)
    ensures var (t', s) := DoLookup(c, t, cookie, user, now);
            && (s == Missing <==> cookie.None? || cookie.value !in t)
            && (s == IdentityMismatch <==> s != Missing && t[cookie.value].user != user)
            && (s == Expired <==> s != Missing && t[cookie.value].user == user
                                  && (now >= t[cookie.value].idle || now >= t[cookie.value].absolute))
            && (s in {IdentityMismatch, Expired} ==> t' == t - {cookie.value})
            && (s in {Missing, Rejected} ==> t' == t)
            && (s == Valid ==>
                  && t'.Keys == t.Keys && t' == t[cookie.value := t'[cookie.value]]
                  && t'[cookie.value].lastSeen == now
                  && t'[cookie.value].idle == Min(now + c.idle, t[cookie.value].absolute)
                  && UpdateAccepted(t[cookie.value], t'[cookie.value]))
  {
  }

  /** A sweep removes exactly the sessions no lookup could revive. */
  lemma CleanupIsExact(c: Lifetimes, t: Table, h: Hash, now: int, seen: int)
    requires GoodLifetimes(c) && TableOk(t, seen) && h in t
    ensures h in DoCleanup(t, now) <==> DoLookup(c, t, Some(h), t[h].user, now).1 != Expired
    ensures h in DoCleanup(t, now) ==> DoCleanup(t, now)[h] == t[h]
  {
  }

  /** A failing input: one tick before the last use. */
  lemma ClockRanBack()
    ensures var t := map[7 := Row(1, 0, 5, 100, 15)];
            TableOk(t, 5) && DoLookup(Lifetimes(100, 10), t, Some(7), 1, 4).1 == Rejected
  {
  }

  /** So no lookup is ever refused while the clock moves forward. */
  lemma {:induction false} ForwardClockIsNeverRejected(c: Lifetimes, t: Table, es: seq<Timed>, start: int,
      cookie: Option<Hash>, user: User, now: int)
    requires GoodLifetimes(c) && TableOk(t, start) && Clocked(es, start) && LastTime(es, start) <= now
    ensures DoLookup(c, Run(c, t, es), cookie, user, now).1 != Rejected
  {
    ReachableTablesAreSound(c, t, es, start);
  }

  // ---------------------------------------------------------------- lifetime of one session

  /** Times at which the session was presented. */
  function Uses(es: seq<Timed>, h: Hash): seq<int> {
    if es == [] then []
    else
      var e := es[|es| - 1];
      Uses(es[..|es| - 1], h) + if e.op.Lookup? && e.op.cookie == Some(h) then [e.now] else []
  }

  /** The owner alone presents the session, does not log out, and no other session gets its hash. */
  predicate OwnedBy(es: seq<Timed>, h: Hash, user: User) {
    forall i :: 0 <= i < |es| ==>
      match es[i].op
      case Create(g, _) => g != h
      case Lookup(k, u) => k == Some(h) ==> u == user
      case Cleanup => true
      case Delete(g) => g != h
  }

  function LastUse(created: int, uses: seq<int>): int {
    if uses == [] then created else uses[|uses| - 1]
  }

  /** Every gap since creation is below the idle lifetime, and the age is below the absolute one. */
  predicate WithinLifetime(c: Lifetimes, created: int, uses: seq<int>) {
    && (forall i :: 0 <= i < |uses| ==> uses[i] - LastUse(created, uses[..i]) < c.idle)
    && LastUse(created, uses) - created < c.absolute
  }

  /** Where the row stands: exact while the session lives, possibly swept once it cannot succeed again. */
  predicate Tracks(c: Lifetimes, t: Table, h: Hash, user: User, created: int, uses: seq<int>, now: int) {
    var last := LastUse(created, uses);
    var expiry := Min(last + c.idle, created + c.absolute);
    && created <= last <= now
    && (h in t ==> WithinLifetime(c, created, uses) && t[h] == Row(user, created, last, created + c.absolute, expiry))
    && (h !in t ==> WithinLifetime(c, created, uses) ==> expiry <= now)
  }

  lemma UseExtends(c: Lifetimes, created: int, uses: seq<int>, now: int)
    requires LastUse(created, uses) <= now
    ensures WithinLifetime(c, created, uses + [now])
            <==> WithinLifetime(c, created, uses) && now - LastUse(created, uses) < c.idle && now - created < c.absolute
  {
    var all := uses + [now];
    assert forall i :: 0 <= i <= |uses| ==> all[..i] == uses[..i];
    assert uses[..|uses|] == uses;
    if WithinLifetime(c, created, all) {
      assert all[|uses|] - LastUse(created, all[..|uses|]) < c.idle;
      forall i | 0 <= i < |uses| ensures uses[i] - LastUse(created, uses[..i]) < c.idle { assert all[i] == uses[i]; }
    }
  }

  lemma LookupTracks(c: Lifetimes, t: Table, h: Hash, user: User, created: int, uses: seq<int>, before: int, now: int)
    requires GoodLifetimes(c) && Tracks(c, t, h, user, created, uses, before) && before <= now
    ensures Tracks(c, DoLookup(c, t, Some(h), user, now).0, h, user, created, uses + [now], now)
    ensures DoLookup(c, t, Some(h), user, now).1 == Valid <==> WithinLifetime(c, created, uses + [now])
  {
    UseExtends(c, created, uses, now);
  }

  lemma OtherTracks(c: Lifetimes, t: Table, h: Hash, user: User, created: int, uses: seq<int>, before: int, e: Timed)
    requires GoodLifetimes(c) && Tracks(c, t, h, user, created, uses, before) && before <= e.now
             && OwnedBy([e], h, user)
    requires !(e.op.Lookup? && e.op.cookie == Some(h))
    ensures Tracks(c, Step(c, t, e), h, user, created, uses, e.now)
  {
    assert [e][0] == e;
  }

  lemma {:induction false} RunTracks(c: Lifetimes, t: Table, h: Hash, user: User, created: int, es: seq<Timed>)
    requires GoodLifetimes(c) && h in t && t[h] == NewRow(c, user, created) && Clocked(es, created)
             && OwnedBy(es, h, user)
    ensures Tracks(c, Run(c, t, es), h, user, created, Uses(es, h), LastTime(es, created))
    decreases |es|
  {
    if es != [] {
      var init, e := es[..|es| - 1], es[|es| - 1];
      RunTracks(c, t, h, user, created, init);
      var t', before := Run(c, t, init), LastTime(init, created);
      if e.op.Lookup? && e.op.cookie == Some(h) {
        LookupTracks(c, t', h, user, created, Uses(init, h), before, e.now);
      } else {
        assert Uses(init, h) + [] == Uses(init, h);
        OtherTracks(c, t', h, user, created, Uses(init, h), before, e);
      }
    }
  }

  /**
   A lookup by the owner succeeds exactly when every gap since creation, up to now, is below the idle
   lifetime and the age is below the absolute lifetime, whatever else happened in between.
   */
  lemma LookupSucceedsExactly(c: Lifetimes, t: Table, h: Hash, user: User, created: int, es: seq<Timed>, now: int)
    requires GoodLifetimes(c) && h in t && t[h] == NewRow(c, user, created) && Clocked(es, created)
             && OwnedBy(es, h, user)
    requires LastTime(es, created) <= now
    ensures DoLookup(c, Run(c, t, es), Some(h), user, now).1 == Valid <==>
              WithinLifetime(c, created, Uses(es, h) + [now])
  {
    RunTracks(c, t, h, user, created, es);
    LookupTracks(c, Run(c, t, es), h, user, created, Uses(es, h), LastTime(es, created), now);
  }

  /** Two runs that differ only in cleanups and in other sessions' business agree on every lookup. */
  lemma CleanupNeverMatters(c: Lifetimes, t: Table, s: Table, h: Hash, user: User, created: int, es: seq<Timed>,
      fs: seq<Timed>, now: int)
    requires GoodLifetimes(c) && h in t && h in s && t[h] == NewRow(c, user, created) && s[h] == t[h]
    requires Clocked(es, created) && OwnedBy(es, h, user) && LastTime(es, created) <= now
    requires Clocked(fs, created) && OwnedBy(fs, h, user) && LastTime(fs, created) <= now
    requires Uses(es, h) == Uses(fs, h)
    ensures DoLookup(c, Run(c, t, es), Some(h), user, now).1 == Valid <==>
              DoLookup(c, Run(c, s, fs), Some(h), user, now).1 == Valid
  {
    LookupSucceedsExactly(c, t, h, user, created, es, now);
    LookupSucceedsExactly(c, s, h, user, created, fs, now);
  }

  /** Presenting somebody else's cookie ends the session for its owner too. */
  lemma {:induction false} MismatchEndsTheSession(c: Lifetimes, t: Table, h: Hash, owner: User, other: User, now: int,
      es: seq<Timed>, later: int)
    requires GoodLifetimes(c) && h in t && RowChecks(t[h]) && t[h].user != other
    requires forall i :: 0 <= i < |es| ==> es[i].op.Create? ==> es[i].op.hash != h
    ensures var t' := DoLookup(c, t, Some(h), other, now).0;
            DoLookup(c, Run(c, t', es), Some(h), owner, later).1 == Missing
  {
    StaysGone(c, DoLookup(c, t, Some(h), other, now).0, h, es);
  }

  lemma {:induction false} StaysGone(c: Lifetimes, t: Table, h: Hash, es: seq<Timed>)
    requires h !in t && forall i :: 0 <= i < |es| ==> es[i].op.Create? ==> es[i].op.hash != h
    ensures h !in Run(c, t, es)
    decreases |es|
  {
    if es != [] { StaysGone(c, t, h, es[..|es| - 1]); }
  }

  // ---------------------------------------------------------------- the class

  const MAX_ATTEMPTS := 5

  /** `ConsoleSessionStore`; fresh cookies come from the caller as a list of hashes. */
  class ConsoleSessionStore {
    const lifetimes: Lifetimes
    var sessions: Table

    constructor (c: Lifetimes)
      requires GoodLifetimes(c)
      ensures lifetimes == c && sessions == map[]
    {
      lifetimes, sessions := c, map[];
    }

    /** `create`: the first of five random hashes that is free. */
    method CreateSession(user: User, candidates: seq<Hash>, now: int) returns (made: Option<Hash>)
      requires |candidates| == MAX_ATTEMPTS && GoodLifetimes(lifetimes)
      modifies this`sessions
      ensures made.None? ==> sessions == old(sessions) && forall i :: 0 <= i < |candidates| ==>
                candidates[i] in sessions
      ensures made.Some? ==>
                && (exists i :: 0 <= i < |candidates| && candidates[i] == made.value
                      && forall j :: 0 <= j < i ==> candidates[j] in old(sessions))
                && made.value !in old(sessions) && RowChecks(NewRow(lifetimes, user, now))
                && sessions == DoCreate(lifetimes, old(sessions), made.value, user, now)
                && sessions[made.value] == NewRow(lifetimes, user, now)
    {
      for i := 0 to MAX_ATTEMPTS
        invariant sessions == old(sessions) && forall j :: 0 <= j < i ==> candidates[j] in sessions
      {
        var h := candidates[i];
        if h !in sessions {
          sessions := sessions[h := NewRow(lifetimes, user, now)];
          return Some(h);
        }
      }
      return None;
    }

    method LookupSession(cookie: Option<Hash>, user: User, now: int) returns (status: Status)
      modifies this`sessions
      ensures (sessions, status) == DoLookup(lifetimes, old(sessions), cookie, user, now)
    {
      if cookie.None? || cookie.value !in sessions { return Missing; }
      var h := cookie.value;
      var row := sessions[h];
      if !RowChecks(row) { return Rejected; }
      if row.user != user {
        sessions := sessions - {h};
        return IdentityMismatch;
      }
      if now >= row.absolute || now >= row.idle {
        sessions := sessions - {h};
        return Expired;
      }
      var row' := Seen(lifetimes, row, now);
      if !UpdateAccepted(row, row') || !RowChecks(row') { return Rejected; }
      sessions := sessions[h := row'];
      return Valid;
    }

    method DeleteHash(h: Hash)
      modifies this`sessions
      ensures sessions == old(sessions) - {h}
    {
      sessions := sessions - {h};
    }

    method CleanupExpired(now: int) returns (removed: nat)
      modifies this`sessions
      ensures sessions == DoCleanup(old(sessions), now) && removed == |old(sessions)| - |sessions|
    {
      var dead := set h | h in sessions && (sessions[h].absolute <= now || sessions[h].idle <= now);
      removed := |dead|;
      assert sessions.Keys == DoCleanup(sessions, now).Keys + dead;
      assert |sessions.Keys| == |sessions| && |DoCleanup(sessions, now).Keys| == |DoCleanup(sessions, now)|;
      sessions := sessions - dead;
      assert sessions == DoCleanup(old(sessions), now);
    }
  }
}
