/** Verified keyset pagination: the batched, post-filtered loop against "sort, filter, slice". */
module Paging {
  import opened Basics
  import opened IsoText

  datatype Registration = Preregistered | Exploratory | Imported | UnregisteredExternal
  datatype Status = Open | Resolved | Invalidated | Quarantined

  /** The sort key: canonical UTC text of the commit time, then the prediction id. */
  datatype Key = Key(committed: string, id: string)

  /** A committed prediction; `strategy` is what its verified summary shows, if it verifies. */
  datatype Row = Row(key: Key, registration: Registration, status: Status, hasResult: bool, strategy: Option<string>)

  datatype Filters = Filters(registration: Option<Registration>, status: Option<Status>, strategy: Option<string>,
      hasResult: Option<bool>)

  // ---------------------------------------------------------------- order

  /** The query's row-value comparison. */
  predicate Below(a: Key, b: Key) {
    LexLess(a.committed, b.committed) || (a.committed == b.committed && LexLess(a.id, b.id))
  }

  lemma {:induction false} LexTransitive(a: string, b: string, c: string)
    requires LexLess(a, b) && LexLess(b, c)
    ensures LexLess(a, c)
    decreases |a|
  {
    if a != "" && a[0] == b[0] == c[0] { LexTransitive(a[1..], b[1..], c[1..]); }
  }

  lemma {:induction false} LexTotal(a: string, b: string)
    ensures LexLess(a, b) || a == b || LexLess(b, a)
    decreases |a|
  {
    if a != "" && b != "" && a[0] == b[0] {
      LexTotal(a[1..], b[1..]);
      if a[1..] == b[1..] { assert a == [a[0]] + a[1..] && b == [b[0]] + b[1..]; }
    }
  }

  lemma BelowTransitive(a: Key, b: Key, c: Key)
    requires Below(a, b) && Below(b, c)
    ensures Below(a, c)
  {
    if LexLess(a.committed, b.committed)
        && LexLess(b.committed, c.committed) { LexTransitive(a.committed, b.committed, c.committed); }
    if LexLess(a.id, b.id) && LexLess(b.id, c.id) { LexTransitive(a.id, b.id, c.id); }
  }

  lemma BelowTotal(a: Key, b: Key)
    ensures Below(a, b) || a == b || Below(b, a)
  {
    LexTotal(a.committed, b.committed);
    LexTotal(a.id, b.id);
  }

  lemma BelowIrreflexive(a: Key)
    ensures !Below(a, a)
  {
    LexIrreflexive(a.committed);
    LexIrreflexive(a.id);
  }

  /** The text comparison is the order of UTC instants, then of ids. */
  lemma BelowIsInstantOrder(a: Instant, b: Instant, i: string, j: string)
    requires ValidInstant(a) && ValidInstant(b)
    ensures Below(Key(InstantText(a), i), Key(InstantText(b), j)) <==> InstantLess(a, b) || (a == b && LexLess(i, j))
  {
    InstantOrder(a, b);
    InstantOrder(b, a);
    if InstantText(a) == InstantText(b) { LexIrreflexive(InstantText(a)); }
  }

  // ---------------------------------------------------------------- ORDER BY

  ghost predicate Descending(rows: seq<Row>) {
    forall i, j :: 0 <= i < j < |rows| ==> Below(rows[j].key, rows[i].key)
  }

  ghost predicate DistinctKeys(rows: seq<Row>) {
    forall i, j :: 0 <= i < j < |rows| ==> rows[i].key != rows[j].key
  }

  function Insert(r: Row, rows: seq<Row>): seq<Row> {
    if rows == [] || Below(rows[0].key, r.key) then [r] + rows else [rows[0]] + Insert(r, rows[1..])
  }

  /** The whole table in query order. */
  function OrderBy(table: seq<Row>): seq<Row> {
    if table == [] then [] else Insert(table[0], OrderBy(table[1..]))
  }

  lemma {:induction false} InsertSorted(r: Row, rows: seq<Row>)
    requires Descending(rows) && forall x :: x in rows ==> x.key != r.key
    ensures Descending(Insert(r, rows)) && multiset(Insert(r, rows)) == multiset(rows) + multiset{r}
    decreases |rows|
  {
    if rows == [] {
    } else if Below(rows[0].key, r.key) {
      var out := [r] + rows;
      forall i, j | 0 <= i < j < |out| ensures Below(out[j].key, out[i].key) {
        if i == 0 && j > 1 { BelowTransitive(rows[j - 1].key, rows[0].key, r.key); }
      }
    } else {
      assert rows == [rows[0]] + rows[1..];
      assert rows[0] in rows;
      BelowTotal(rows[0].key, r.key);
      InsertSorted(r, rows[1..]);
      var rest := Insert(r, rows[1..]);
      forall x | x in rest ensures Below(x.key, rows[0].key) {
        assert x in multiset(rest);
        assert x == r || x in rows[1..];
      }
    }
  }

  /** ORDER BY committed_sort_key DESC, prediction_id DESC: sorted, and a permutation. */
  lemma {:induction false} OrderBySorts(table: seq<Row>)
    requires DistinctKeys(table)
    ensures Descending(OrderBy(table)) && multiset(OrderBy(table)) == multiset(table)
    decreases |table|
  {
    if table != [] {
      OrderBySorts(table[1..]);
      var rest := OrderBy(table[1..]);
      forall x | x in rest ensures x.key != table[0].key {
        assert x in multiset(rest);
        assert x in table[1..];
      }
      InsertSorted(table[0], rest);
      assert table == [table[0]] + table[1..];
    }
  }

  // ---------------------------------------------------------------- filters

  /** The WHERE clause. */
  predicate SqlMatches(f: Filters, r: Row) {
    && (f.registration.Some? ==> r.registration == f.registration.value)
    && (if f.status.None? then r.status != Quarantined else r.status == f.status.value)
    && (f.hasResult.Some? ==> r.hasResult == f.hasResult.value)
  }

  predicate StrategyMatches(f: Filters, r: Row) {
    f.strategy.Some? ==> r.strategy == f.strategy
  }

  predicate AfterCursor(c: Option<Key>, r: Row) {
    c.Some? ==> Below(r.key, c.value)
  }

  /** Filter by the query only. */
  function Candidates(rows: seq<Row>, f: Filters, c: Option<Key>): (out: seq<Row>)
    ensures |out| <= |rows|
  {
    if rows == [] then []
    else
      var rest := Candidates(rows[1..], f, c);
      if SqlMatches(f, rows[0]) && AfterCursor(c, rows[0]) then [rows[0]] + rest else rest
  }

  function ByStrategy(rows: seq<Row>, f: Filters): (out: seq<Row>)
    ensures |out| <= |rows|
  {
    if rows == [] then []
    else
      var rest := ByStrategy(rows[1..], f);
      if StrategyMatches(f, rows[0]) then [rows[0]] + rest else rest
  }

  lemma {:induction false} CandidatesMembers(rows: seq<Row>, f: Filters, c: Option<Key>)
    ensures forall r :: r in Candidates(rows, f, c) <==> r in rows && SqlMatches(f, r) && AfterCursor(c, r)
    decreases |rows|
  {
    if rows != [] { CandidatesMembers(rows[1..], f, c); assert rows == [rows[0]] + rows[1..]; }
  }

  lemma {:induction false} ByStrategyMembers(rows: seq<Row>, f: Filters)
    ensures forall r :: r in ByStrategy(rows, f) <==> r in rows && StrategyMatches(f, r)
    decreases |rows|
  {
    if rows != [] { ByStrategyMembers(rows[1..], f); assert rows == [rows[0]] + rows[1..]; }
  }

  /** Sort, filter: every match strictly after the cursor, in order. */
  function Matches(table: seq<Row>, f: Filters, c: Option<Key>): seq<Row> {
    ByStrategy(Candidates(OrderBy(table), f, c), f)
  }

  function Min(a: nat, b: nat): nat { if a < b then a else b }
  function Max(a: nat, b: nat): nat { if a < b then b else a }

  /** `list_committed_predictions`: the query with LIMIT. */
  function Query(table: seq<Row>, f: Filters, c: Option<Key>, limit: nat): seq<Row> {
    var all := Candidates(OrderBy(table), f, c);
    all[..Min(limit, |all|)]
  }

  lemma {:induction false} ByStrategyConcat(a: seq<Row>, b: seq<Row>, f: Filters)
    ensures ByStrategy(a + b, f) == ByStrategy(a, f) + ByStrategy(b, f)
    decreases |a|
  {
    if a == [] {
      assert a + b == b;
    } else {
      assert (a + b)[1..] == a[1..] + b;
      ByStrategyConcat(a[1..], b, f);
    }
  }

  lemma {:induction false} CandidatesOfTail(rows: seq<Row>, f: Filters, c: Option<Key>)
    requires Descending(rows)
    ensures Descending(Candidates(rows, f, c))
    decreases |rows|
  {
    if rows != [] {
      CandidatesOfTail(rows[1..], f, c);
      CandidatesMembers(rows[1..], f, c);
      var rest := Candidates(rows[1..], f, c);
      forall x | x in rest ensures Below(x.key, rows[0].key) { assert x in rows[1..]; }
    }
  }

  /** Restarting from the k-th candidate's key continues exactly after it. */
  lemma {:induction false} CandidatesResume(rows: seq<Row>, f: Filters, c: Option<Key>, k: nat)
    requires Descending(rows) && k < |Candidates(rows, f, c)|
    ensures Candidates(rows, f, Some(Candidates(rows, f, c)[k].key)) == Candidates(rows, f, c)[k + 1..]
    decreases |rows|
  {
    var all := Candidates(rows, f, c);
    var key := all[k].key;
    var head, tail := rows[0], rows[1..];
    CandidatesMembers(tail, f, c);
    if SqlMatches(f, head) && AfterCursor(c, head) {
      assert all == [head] + Candidates(tail, f, c);
      if k == 0 {
        BelowIrreflexive(key);
        CandidatesBelow(tail, f, c, head);
        assert all[1..] == Candidates(tail, f, c);
      } else {
        CandidatesResume(tail, f, c, k - 1);
        assert Candidates(tail, f, c)[k - 1] == all[k];
        assert all[k] in tail;
        NotBelowLater(head.key, key);
        assert all[k + 1..] == Candidates(tail, f, c)[k..];
      }
    } else {
      CandidatesResume(tail, f, c, k);
      assert all[k] in tail;
      NotBelowLater(head.key, key);
    }
  }

  lemma NotBelowLater(a: Key, b: Key)
    requires Below(b, a)
    ensures !Below(a, b)
  {
    if Below(a, b) { BelowTransitive(a, b, a); BelowIrreflexive(a); }
  }

  /** Past a row that precedes them all, the old cursor no longer matters. */
  lemma {:induction false} CandidatesBelow(rows: seq<Row>, f: Filters, c: Option<Key>, head: Row)
    requires forall r :: r in rows ==> Below(r.key, head.key)
    requires AfterCursor(c, head)
    ensures Candidates(rows, f, Some(head.key)) == Candidates(rows, f, c)
    decreases |rows|
  {
    if rows != [] {
      assert rows[0] in rows;
      if c.Some? { BelowTransitive(rows[0].key, head.key, c.value); }
      CandidatesBelow(rows[1..], f, c, head);
    }
  }

  // ---------------------------------------------------------------- the loop

  datatype Page = Page(items: seq<Row>, next: Option<Key>)

  /** Slice: the page that sort-filter-slice prescribes. */
  function PageOf(table: seq<Row>, f: Filters, c: Option<Key>, limit: nat): Page
    requires limit >= 1
  {
    var all := Matches(table, f, c);
    if |all| > limit then Page(all[..limit], Some(all[limit - 1].key)) else Page(all, None)
  }

  function BatchSize(limit: nat, have: nat): nat
    requires have <= limit
  {
    Min(100, Max(25, (limit + 1 - have) * 2))
  }

  /** One batch: `taken` rows of the candidates, `rest` still to be asked for. */
  lemma BatchSplits(table: seq<Row>, f: Filters, c: Option<Key>, rows: seq<Row>, n: nat)
    requires DistinctKeys(table) && n >= 1 && rows == Query(table, f, c, n) && rows != []
    ensures Matches(table, f, c) == ByStrategy(rows, f) + Matches(table, f, Some(rows[|rows| - 1].key))
    ensures |rows| < n ==> Candidates(OrderBy(table), f, Some(rows[|rows| - 1].key)) == []
    ensures |Candidates(OrderBy(table), f, Some(rows[|rows| - 1].key))| < |Candidates(OrderBy(table), f, c)|
  {
    OrderBySorts(table);
    var all := Candidates(OrderBy(table), f, c);
    var k := |rows| - 1;
    CandidatesResume(OrderBy(table), f, c, k);
    assert all == all[..k + 1] + all[k + 1..];
    ByStrategyConcat(all[..k + 1], all[k + 1..], f);
  }

  /** The inner loop: append the batch's matches until one more than `limit` is found. */
  method AppendMatches(matched: seq<Row>, rows: seq<Row>, f: Filters, limit: nat) returns (out: seq<Row>)
    requires |matched| <= limit
    ensures out <= matched + ByStrategy(rows, f) && |out| <= limit + 1
    ensures |out| <= limit ==> out == matched + ByStrategy(rows, f)
  {
    out := matched;
    var i := 0;
    while i < |rows|
      invariant i <= |rows| && |out| <= limit
      invariant out + ByStrategy(rows[i..], f) == matched + ByStrategy(rows, f)
    {
      assert rows[i..][0] == rows[i] && rows[i..][1..] == rows[i + 1..];
      if f.strategy.None? || rows[i].strategy == f.strategy {
        assert out + ByStrategy(rows[i..], f) == (out + [rows[i]]) + ByStrategy(rows[i + 1..], f);
        out := out + [rows[i]];
        if |out| > limit { return; }
      }
      i := i + 1;
    }
    assert rows[i..] == [];
  }

  /** What the outer loop keeps: all matches are those found plus those still to come. */
  ghost predicate Progress(all: seq<Row>, matched: seq<Row>, rest: seq<Row>, limit: nat) {
    && |matched| <= limit + 1 && matched <= all
    && (|matched| <= limit ==> matched + rest == all)
  }

  lemma ProgressOne(all: seq<Row>, before: seq<Row>, found: seq<Row>, rest: seq<Row>, matched: seq<Row>, limit: nat)
    requires Progress(all, before, found + rest, limit) && |before| <= limit
    requires matched <= before + found && |matched| <= limit + 1 && (|matched| <= limit ==> matched == before + found)
    ensures Progress(all, matched, rest, limit)
  {
    assert before + (found + rest) == (before + found) + rest;
  }

  lemma ProgressEnds(table: seq<Row>, f: Filters, c: Option<Key>, matched: seq<Row>, rest: seq<Row>, limit: nat)
    requires limit >= 1 && Progress(Matches(table, f, c), matched, rest, limit) && (|matched| <= limit ==> rest == [])
    ensures PageOf(table, f, c, limit) ==
            if |matched| > limit then Page(matched[..limit], Some(matched[limit - 1].key)) else Page(matched, None)
  {
    var all := Matches(table, f, c);
    if |matched| <= limit { assert matched + [] == matched; } else { assert matched == all[..limit + 1]; }
  }

  lemma NoRowsNoMatches(table: seq<Row>, f: Filters, c: Option<Key>, n: nat)
    requires n >= 1 && Query(table, f, c, n) == []
    ensures Matches(table, f, c) == []
  {
  }

  lemma NoCandidatesNoMatches(table: seq<Row>, f: Filters, c: Option<Key>)
    requires Candidates(OrderBy(table), f, c) == []
    ensures Matches(table, f, c) == []
  {
  }

  /** `list_predictions`, past the cursor's decoding. */
  method ListPredictions(table: seq<Row>, limit: nat, cursor: Option<Key>, f: Filters) returns (page: Option<Page>)
    requires DistinctKeys(table)
    ensures page.Some? <==> 1 <= limit <= 100
    ensures page.Some? ==> page.value == PageOf(table, f, cursor, limit)
    ensures page.Some? ==>
              && page.value.items <= Matches(table, f, cursor)
              && |page.value.items| == Min(limit, |Matches(table, f, cursor)|)
              && (page.value.next.Some? <==> |Matches(table, f, cursor)| > limit)
              && (page.value.next.Some? ==> page.value.next.value == page.value.items[limit - 1].key)
  {
    if !(1 <= limit <= 100) { return None; }
    var matched: seq<Row> := [];
    var after := cursor;
    var exhausted := false;
    ghost var all := Matches(table, f, cursor);
    ghost var rest := all;
    ghost var left := |Candidates(OrderBy(table), f, cursor)|;
    while |matched| <= limit && !exhausted
      invariant Progress(all, matched, rest, limit)
      invariant rest == Matches(table, f, after) && left == |Candidates(OrderBy(table), f, after)|
      invariant exhausted ==> rest == []
      decreases left
    {
      var batch := BatchSize(limit, |matched|);
      var rows := Query(table, f, after, batch);
      if rows == [] { NoRowsNoMatches(table, f, after, batch); break; }
      BatchSplits(table, f, after, rows, batch);
      ghost var before := matched;
      matched := AppendMatches(matched, rows, f, limit);
      after := Some(rows[|rows| - 1].key);
      rest := Matches(table, f, after);
      left := |Candidates(OrderBy(table), f, after)|;
      ProgressOne(all, before, ByStrategy(rows, f), rest, matched, limit);
      exhausted := |rows| < batch;
      if exhausted { NoCandidatesNoMatches(table, f, after); }
    }
    ProgressEnds(table, f, cursor, matched, rest, limit);
    if |matched| > limit {
      page := Some(Page(matched[..limit], Some(matched[limit - 1].key)));
    } else {
      page := Some(Page(matched, None));
    }
  }

  // ---------------------------------------------------------------- following cursors

  lemma {:induction false} ByStrategyIndex(rows: seq<Row>, f: Filters, k: nat) returns (i: nat)
    requires k < |ByStrategy(rows, f)|
    ensures i < |rows| && rows[i] == ByStrategy(rows, f)[k]
    ensures ByStrategy(rows[i + 1..], f) == ByStrategy(rows, f)[k + 1..]
    decreases |rows|
  {
    if StrategyMatches(f, rows[0]) && k == 0 {
      i := 0;
    } else {
      var j := ByStrategyIndex(rows[1..], f, if StrategyMatches(f, rows[0]) then k - 1 else k);
      i := j + 1;
      assert rows[1..][j + 1..] == rows[i + 1..];
    }
  }

  /** The cursor of a page resumes exactly at the next match. */
  lemma CursorResumes(table: seq<Row>, f: Filters, c: Option<Key>, limit: nat)
    requires DistinctKeys(table) && 1 <= limit < |Matches(table, f, c)|
    ensures Matches(table, f, Some(Matches(table, f, c)[limit - 1].key)) == Matches(table, f, c)[limit..]
  {
    OrderBySorts(table);
    var cand := Candidates(OrderBy(table), f, c);
    var i := ByStrategyIndex(cand, f, limit - 1);
    CandidatesResume(OrderBy(table), f, c, i);
  }

  /** Following `next` cursors from `c` until there is none. */
  function Walk(table: seq<Row>, f: Filters, c: Option<Key>, limit: nat): seq<Row>
    requires DistinctKeys(table) && limit >= 1
    decreases |Matches(table, f, c)|
  {
    var page := PageOf(table, f, c, limit);
    if page.next.None? then page.items
    else
      CursorResumes(table, f, c, limit);
      page.items + Walk(table, f, page.next, limit)
  }

  /** The walk terminates and visits every match exactly once, in order. */
  lemma {:induction false} WalkVisitsEveryMatchOnce(table: seq<Row>, f: Filters, c: Option<Key>, limit: nat)
    requires DistinctKeys(table) && limit >= 1
    ensures Walk(table, f, c, limit) == Matches(table, f, c)
    decreases |Matches(table, f, c)|
  {
    var all := Matches(table, f, c);
    if |all| > limit {
      CursorResumes(table, f, c, limit);
      WalkVisitsEveryMatchOnce(table, f, Some(all[limit - 1].key), limit);
      assert all == all[..limit] + all[limit..];
    }
  }

  /** What a match is: a row of the table, passing every filter, strictly after the cursor, in descending order. */
  lemma MatchesAreExact(table: seq<Row>, f: Filters, c: Option<Key>)
    requires DistinctKeys(table)
    ensures forall r :: r in Matches(table, f, c) <==>
              && r in table
              && (f.registration.Some? ==> r.registration == f.registration.value)
              && (f.status.Some? ==> r.status == f.status.value) && (f.status.None? ==> r.status != Quarantined)
              && (f.hasResult.Some? ==> r.hasResult == f.hasResult.value)
              && (f.strategy.Some? ==> r.strategy == f.strategy)
              && (c.Some? ==> Below(r.key, c.value))
    ensures Descending(Matches(table, f, c))
  {
    OrderBySorts(table);
    var rows := OrderBy(table);
    forall r ensures r in rows <==> r in table { assert r in multiset(rows) <==> r in multiset(table); }
    CandidatesOfTail(rows, f, c);
    CandidatesMembers(rows, f, c);
    ByStrategyMembers(Candidates(rows, f, c), f);
    ByStrategyDescending(Candidates(rows, f, c), f);
  }

  lemma {:induction false} ByStrategyDescending(rows: seq<Row>, f: Filters)
    requires Descending(rows)
    ensures Descending(ByStrategy(rows, f))
    decreases |rows|
  {
    if rows != [] {
      ByStrategyDescending(rows[1..], f);
      ByStrategyMembers(rows[1..], f);
      var rest := ByStrategy(rows[1..], f);
      forall x | x in rest ensures Below(x.key, rows[0].key) { assert x in rows[1..]; }
    }
  }
}
