/**
 The text keys the registry compares: fixed-width decimal fields (section 5.1 of RFC 3339), their
 order, and the white-space stripping of family identifiers.
 */
module IsoText {
  import opened Basics

  // ---------------------------------------------------------------- text order

  /** SQLite's comparison of text: byte by byte, a proper prefix first. */
  predicate LexLess(a: string, b: string)
    decreases |a|
  {
    if b == "" then false
    else if a == "" then true
    else a[0] < b[0] || (a[0] == b[0] && LexLess(a[1..], b[1..]))
  }

  predicate LexLeq(a: string, b: string) {
    a == b || LexLess(a, b)
  }

  function Pow10(w: nat): nat {
    if w == 0 then 1 else 10 * Pow10(w - 1)
  }

  function Digit(n: nat): char
    requires n < 10
  {
    "0123456789"[n]
  }

  /** `n` in exactly `w` decimal digits. */
  function Pad(n: nat, w: nat): (s: string)
    ensures |s| == w
  {
    if w == 0 then "" else Pad(n / 10, w - 1) + [Digit(n % 10)]
  }

  lemma DigitOrder(a: nat, b: nat)
    requires a < 10 && b < 10
    ensures Digit(a) < Digit(b) <==> a < b
    ensures Digit(a) == Digit(b) <==> a == b
  {
  }

  lemma LexCons(c: char, x: string, d: char, y: string)
    ensures LexLess([c] + x, [d] + y) <==> c < d || (c == d && LexLess(x, y))
  {
    assert ([c] + x)[1..] == x && ([d] + y)[1..] == y;
  }

  /** Fixed-width numbers compare as text the way they compare as numbers, then by what follows. */
  lemma {:induction false} PadOrder(a: nat, b: nat, w: nat, x: string, y: string)
    requires a < Pow10(w) && b < Pow10(w)
    ensures LexLess(Pad(a, w) + x, Pad(b, w) + y) <==> a < b || (a == b && LexLess(x, y))
    decreases w
  {
    if w == 0 {
      assert Pad(a, 0) + x == x && Pad(b, 0) + y == y;
    } else {
      var x', y' := [Digit(a % 10)] + x, [Digit(b % 10)] + y;
      assert Pad(a, w) + x == Pad(a / 10, w - 1) + x';
      assert Pad(b, w) + y == Pad(b / 10, w - 1) + y';
      PadOrder(a / 10, b / 10, w - 1, x', y');
      LexCons(Digit(a % 10), x, Digit(b % 10), y);
      DigitOrder(a % 10, b % 10);
      assert a == 10 * (a / 10) + a % 10 && b == 10 * (b / 10) + b % 10;
    }
  }

  // ---------------------------------------------------------------- calendar dates

  datatype Date = Date(year: nat, month: nat, day: nat)

  predicate LeapYear(y: nat) {
    y % 4 == 0 && (y % 100 != 0 || y % 400 == 0)
  }

  function DaysIn(y: nat, m: nat): nat {
    if m in {4, 6, 9, 11} then 30 else if m == 2 then (if LeapYear(y) then 29 else 28) else 31
  }

  predicate ValidDate(d: Date) {
    1 <= d.year <= 9999 && 1 <= d.month <= 12 && 1 <= d.day <= DaysIn(d.year, d.month)
  }

  predicate Earlier(a: Date, b: Date) {
    a.year < b.year || (a.year == b.year && (a.month < b.month || (a.month == b.month && a.day < b.day)))
  }

  predicate NotAfter(a: Date, b: Date) {
    a == b || Earlier(a, b)
  }

  /** `date.isoformat()` */
  function DateText(d: Date): string {
    Pad(d.year, 4) + ("-" + (Pad(d.month, 2) + ("-" + Pad(d.day, 2))))
  }

  lemma Pow10Values()
    ensures Pow10(2) == 100 && Pow10(4) == 10000
  {
    assert Pow10(1) == 10;
    assert Pow10(3) == 1000;
  }

  /** Text order on ISO dates is calendar order. */
  lemma DateOrder(a: Date, b: Date)
    requires ValidDate(a) && ValidDate(b)
    ensures LexLess(DateText(a), DateText(b)) <==> Earlier(a, b)
    ensures LexLeq(DateText(a), DateText(b)) <==> NotAfter(a, b)
  {
    DateLess(a, b);
    DateLess(b, a);
    if DateText(a) == DateText(b) {
      LexIrreflexive(DateText(a));
    }
  }

  lemma DateLess(a: Date, b: Date)
    requires ValidDate(a) && ValidDate(b)
    ensures LexLess(DateText(a), DateText(b)) <==> Earlier(a, b)
  {
    Pow10Values();
    var ad, bd := Pad(a.day, 2), Pad(b.day, 2);
    var am, bm := Pad(a.month, 2) + ("-" + ad), Pad(b.month, 2) + ("-" + bd);
    PadOrder(a.year, b.year, 4, "-" + am, "-" + bm);
    LexCons('-', am, '-', bm);
    PadOrder(a.month, b.month, 2, "-" + ad, "-" + bd);
    LexCons('-', ad, '-', bd);
    PadOrder(a.day, b.day, 2, "", "");
    assert ad + "" == ad && bd + "" == bd;
  }

  lemma LexIrreflexive(a: string)
    ensures !LexLess(a, a)
    decreases |a|
  {
    if a != "" { LexIrreflexive(a[1..]); }
  }

  datatype Window = Window(start: Date, end: Date)

  predicate ValidWindow(w: Window) {
    ValidDate(w.start) && ValidDate(w.end) && NotAfter(w.start, w.end)
  }

  ghost predicate ShareADay(a: Window, b: Window) {
    exists d: Date ::
          ValidDate(d) && NotAfter(a.start, d) && NotAfter(d, a.end) && NotAfter(b.start, d) && NotAfter(d, b.end)
  }

  /** The registry's overlap test: two text comparisons. */
  predicate TextOverlap(aStart: string, aEnd: string, b: Window) {
    LexLeq(aStart, DateText(b.end)) && LexLeq(DateText(b.start), aEnd)
  }

  /** The two text comparisons are exactly "some calendar day lies in both windows". */
  lemma OverlapIsExact(a: Window, b: Window)
    requires ValidWindow(a) && ValidWindow(b)
    ensures TextOverlap(DateText(a.start), DateText(a.end), b) <==> ShareADay(a, b)
  {
    DateOrder(a.start, b.end);
    DateOrder(b.start, a.end);
    if NotAfter(a.start, b.end) && NotAfter(b.start, a.end) {
      var d := if NotAfter(a.start, b.start) then b.start else a.start;
      assert ValidDate(d) && NotAfter(a.start, d) && NotAfter(d, a.end) && NotAfter(b.start, d) && NotAfter(d, b.end);
    }
  }

  // ---------------------------------------------------------------- instants

  /** A UTC instant to the microsecond, as its calendar and clock fields. */
  datatype Instant = Instant(date: Date, hour: nat, minute: nat, second: nat, micro: nat)

  predicate ValidInstant(t: Instant) {
    ValidDate(t.date) && t.hour < 24 && t.minute < 60 && t.second < 60 && t.micro < 1000000
  }

  predicate InstantLess(a: Instant, b: Instant) {
    || Earlier(a.date, b.date)
    || (a.date == b.date && (a.hour < b.hour || (a.hour == b.hour && (a.minute < b.minute || (a.minute == b.minute &&
        (a.second < b.second || (a.second == b.second && a.micro < b.micro)))))))
  }

  function ClockText(t: Instant): string {
    "T" + (Pad(t.hour, 2)
        + (":" + (Pad(t.minute, 2) + (":" + (Pad(t.second, 2) + ("." + (Pad(t.micro, 6) + "+00:00")))))))
  }

  /** `_canonical_utc_timestamp`: microseconds, always in UTC. */
  function InstantText(t: Instant): string {
    Pad(t.date.year, 4) + ("-" + (Pad(t.date.month, 2) + ("-" + (Pad(t.date.day, 2) + ClockText(t)))))
  }

  lemma ClockLess(a: Instant, b: Instant)
    requires ValidInstant(a) && ValidInstant(b) && a.date == b.date
    ensures LexLess(ClockText(a), ClockText(b)) <==> InstantLess(a, b)
  {
    Pow10Values();
    assert Pow10(6) == 1000000 by { assert Pow10(5) == 100000; }
    var ua, ub := Pad(a.micro, 6) + "+00:00", Pad(b.micro, 6) + "+00:00";
    var sa, sb := Pad(a.second, 2) + ("." + ua), Pad(b.second, 2) + ("." + ub);
    var ma, mb := Pad(a.minute, 2) + (":" + sa), Pad(b.minute, 2) + (":" + sb);
    var ha, hb := Pad(a.hour, 2) + (":" + ma), Pad(b.hour, 2) + (":" + mb);
    LexCons('T', ha, 'T', hb);
    PadOrder(a.hour, b.hour, 2, ":" + ma, ":" + mb);
    LexCons(':', ma, ':', mb);
    PadOrder(a.minute, b.minute, 2, ":" + sa, ":" + sb);
    LexCons(':', sa, ':', sb);
    PadOrder(a.second, b.second, 2, "." + ua, "." + ub);
    LexCons('.', ua, '.', ub);
    PadOrder(a.micro, b.micro, 6, "+00:00", "+00:00");
    LexIrreflexive("+00:00");
  }

  /** Text order on canonical timestamps is the order of instants. */
  lemma InstantOrder(a: Instant, b: Instant)
    requires ValidInstant(a) && ValidInstant(b)
    ensures LexLess(InstantText(a), InstantText(b)) <==> InstantLess(a, b)
  {
    Pow10Values();
    var ad, bd := Pad(a.date.day, 2) + ClockText(a), Pad(b.date.day, 2) + ClockText(b);
    var am, bm := Pad(a.date.month, 2) + ("-" + ad), Pad(b.date.month, 2) + ("-" + bd);
    PadOrder(a.date.year, b.date.year, 4, "-" + am, "-" + bm);
    LexCons('-', am, '-', bm);
    PadOrder(a.date.month, b.date.month, 2, "-" + ad, "-" + bd);
    LexCons('-', ad, '-', bd);
    PadOrder(a.date.day, b.date.day, 2, ClockText(a), ClockText(b));
    if a.date == b.date { ClockLess(a, b); }
  }

  // ---------------------------------------------------------------- str.strip

  /** The characters `str.strip` and `str.rstrip` remove. */
  predicate IsSpace(c: char) {
    || '\t' <= c <= '\r' || '\U{1c}' <= c <= ' ' || c == '\U{85}' || c == '\U{a0}' || c == '\U{1680}'
    || '\U{2000}' <= c <= '\U{200a}' || c == '\U{2028}' || c == '\U{2029}' || c == '\U{202f}' || c == '\U{205f}'
        || c == '\U{3000}'
  }

  function LStrip(s: string): string {
    if s != "" && IsSpace(s[0]) then LStrip(s[1..]) else s
  }

  function RStrip(s: string): (r: string)
    ensures r <= s
    ensures r != "" ==> !IsSpace(r[|r| - 1])
    ensures forall i :: |r| <= i < |s| ==> IsSpace(s[i])
  {
    if s != "" && IsSpace(s[|s| - 1]) then RStrip(s[..|s| - 1]) else s
  }

  function Strip(s: string): string {
    RStrip(LStrip(s))
  }

  const MAX_FAMILY := 256

  /** `_normalize_family_id` */
  function NormalizeFamily(s: string): (r: Option<string>)
    ensures r.Some? ==> 1 <= |r.value| <= MAX_FAMILY && '\0' !in r.value
  {
    var n := Strip(s);
    if n == "" || |n| > MAX_FAMILY || '\0' in n then None else Some(n)
  }

  lemma RStripFixed(s: string)
    requires s == "" || !IsSpace(s[|s| - 1])
    ensures RStrip(s) == s
  {
  }

  lemma {:induction false} LStripHead(s: string)
    ensures LStrip(s) == "" || !IsSpace(LStrip(s)[0])
    decreases |s|
  {
    if s != "" && IsSpace(s[0]) { LStripHead(s[1..]); }
  }

  /** Normalizing twice is normalizing once, so every caller compares the same family text. */
  lemma NormalizeIdempotent(s: string)
    requires NormalizeFamily(s).Some?
    ensures NormalizeFamily(NormalizeFamily(s).value) == NormalizeFamily(s)
  {
    var n := Strip(s);
    LStripHead(s);
    assert n[0] == LStrip(s)[0];
    assert LStrip(n) == n;
    RStripFixed(n);
  }

  // ---------------------------------------------------------------- what normalizing does

  predicate AllSpace(s: string) {
    forall i :: 0 <= i < |s| ==> IsSpace(s[i])
  }

  lemma {:induction false} LStripSkips(pre: string, s: string)
    requires AllSpace(pre)
    ensures LStrip(pre + s) == LStrip(s)
    decreases |pre|
  {
    if pre == "" {
      assert pre + s == s;
    } else {
      assert (pre + s)[1..] == pre[1..] + s;
      LStripSkips(pre[1..], s);
    }
  }

  lemma {:induction false} LStripKeeps(s: string, post: string)
    requires !AllSpace(s)
    ensures LStrip(s + post) == LStrip(s) + post
    decreases |s|
  {
    if IsSpace(s[0]) {
      assert (s + post)[1..] == s[1..] + post;
      LStripKeeps(s[1..], post);
    }
  }

  lemma {:induction false} RStripSkips(s: string, post: string)
    requires AllSpace(post)
    ensures RStrip(s + post) == RStrip(s)
    decreases |post|
  {
    if post == "" {
      assert s + post == s;
    } else {
      var n := |post| - 1;
      assert (s + post)[..|s + post| - 1] == s + post[..n];
      RStripSkips(s, post[..n]);
    }
  }

  lemma LStripAll(s: string)
    requires AllSpace(s)
    ensures LStrip(s) == ""
  {
    assert s + "" == s;
    LStripSkips(s, "");
  }

  /** White space around a text never changes what is left of it. */
  lemma StripSkips(pre: string, s: string, post: string)
    requires AllSpace(pre) && AllSpace(post)
    ensures Strip(pre + (s + post)) == Strip(s)
  {
    LStripSkips(pre, s + post);
    if AllSpace(s) {
      LStripSkips(s, post);
      LStripAll(post);
      LStripAll(s);
    } else {
      LStripKeeps(s, post);
      RStripSkips(LStrip(s), post);
    }
  }

  /** Surrounding white space never distinguishes two families. */
  lemma WhiteSpaceIsIrrelevant(pre: string, s: string, post: string)
    requires AllSpace(pre) && AllSpace(post)
    ensures NormalizeFamily(pre + (s + post)) == NormalizeFamily(s)
  {
    StripSkips(pre, s, post);
  }

  /** A text without white space at its ends, of 1 to 256 characters and no NUL, is its own normal form. */
  lemma NormalFormIsItself(s: string)
    requires s == "" || (!IsSpace(s[0]) && !IsSpace(s[|s| - 1]))
    ensures NormalizeFamily(s) == if s == "" || |s| > MAX_FAMILY || '\0' in s then None else Some(s)
  {
    RStripFixed(s);
  }
}
