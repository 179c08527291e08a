/**
 The cursor text determines the cursor: UTF-8 and the canonical JSON are injective on bounded
 documents, so one reader serves every cursor the service issues.
 */
module CursorReader {
  import opened Basics
  import opened CursorCodec

  // ---------------------------------------------------------------- UTF-8

  lemma Base64Digits(n: nat)
    ensures n == n / 64 * 64 + n % 64
    ensures n / 64 == n / 4096 * 64 + n / 64 % 64
    ensures n / 4096 == n / 262144 * 64 + n / 4096 % 64
  {
    assert n / 64 / 64 == n / 4096;
    assert n / 4096 / 64 == n / 262144;
  }

  /** How many bytes the first byte announces. */
  function Width(b: Byte): nat {
    if b < 0x80 then 1 else if b < 0xE0 then 2 else if b < 0xF0 then 3 else 4
  }

  lemma FirstByte(c: char)
    ensures Width(Utf8Char(c)[0]) == |Utf8Char(c)|
  {
  }

  lemma Utf8CharInjective(c: char, d: char)
    requires Utf8Char(c) == Utf8Char(d)
    ensures c == d
  {
    var n, m := c as nat, d as nat;
    Base64Digits(n);
    Base64Digits(m);
    assert forall i :: 0 <= i < |Utf8Char(c)| ==> Utf8Char(c)[i] == Utf8Char(d)[i];
    WidthOf(c);
    WidthOf(d);
  }

  lemma WidthOf(c: char)
    ensures var n := c as nat;
            |Utf8Char(c)| == if n < 0x80 then 1 else if n < 0x800 then 2 else if n < 0x10000 then 3 else 4
  {
  }

  lemma Utf8Head(c: char, u: seq<Byte>, d: char, v: seq<Byte>)
    requires Utf8Char(c) + u == Utf8Char(d) + v
    ensures c == d && u == v
  {
    var a, b := Utf8Char(c), Utf8Char(d);
    FirstByte(c);
    FirstByte(d);
    assert (a + u)[0] == a[0] && (b + v)[0] == b[0];
    assert a == (a + u)[..|a|] && b == (b + v)[..|b|];
    assert u == (a + u)[|a|..] && v == (b + v)[|b|..];
    Utf8CharInjective(c, d);
  }

  lemma {:induction false} Utf8Injective(a: string, b: string)
    requires Utf8(a) == Utf8(b)
    ensures a == b
    decreases |a|
  {
    if a != "" && b != "" {
      Utf8Head(a[0], Utf8(a[1..]), b[0], Utf8(b[1..]));
      Utf8Injective(a[1..], b[1..]);
      assert a == [a[0]] + a[1..] && b == [b[0]] + b[1..];
    }
  }

  // ---------------------------------------------------------------- JSON strings

  lemma JsonCharStart(c: char)
    ensures JsonChar(c) != "" && JsonChar(c)[0] != '"'
    ensures |JsonChar(c)| == 1 ==> JsonChar(c) == [c] && c != '\\'
    ensures |JsonChar(c)| > 1 ==> JsonChar(c)[0] == '\\'
    ensures |JsonChar(c)| > 1 ==> |JsonChar(c)| == if JsonChar(c)[1] == 'u' then 6 else 2
  {
  }

  lemma JsonCharInjective(c: char, d: char)
    requires JsonChar(c) == JsonChar(d)
    ensures c == d
  {
    JsonCharStart(c);
    JsonCharStart(d);
    if |JsonChar(c)| == 2 {
      assert JsonChar(c)[1] == JsonChar(d)[1];
    } else if |JsonChar(c)| == 6 {
      assert JsonChar(c)[4] == JsonChar(d)[4] && JsonChar(c)[5] == JsonChar(d)[5];
    }
  }

  lemma JsonHead(c: char, u: string, d: char, v: string)
    requires JsonChar(c) + u == JsonChar(d) + v
    ensures c == d && u == v
  {
    var a, b := JsonChar(c), JsonChar(d);
    JsonCharStart(c);
    JsonCharStart(d);
    assert (a + u)[0] == a[0] && (b + v)[0] == b[0];
    if |a| > 1 {
      assert (a + u)[1] == a[1] && (b + v)[1] == b[1];
    }
    assert |a| == |b|;
    assert a == (a + u)[..|a|] && b == (b + v)[..|b|];
    assert u == (a + u)[|a|..] && v == (b + v)[|b|..];
    JsonCharInjective(c, d);
  }

  /** A quote comes first exactly when the string is over. */
  lemma BodyStart(a: string, x: string)
    ensures JsonBody(a) + ("\"" + x) != "" && ((JsonBody(a) + ("\"" + x))[0] == '"' <==> a == "")
  {
    if a != "" { JsonCharStart(a[0]); }
  }

  lemma BodyStep(a: string, x: string)
    requires a != ""
    ensures JsonBody(a) + ("\"" + x) == JsonChar(a[0]) + (JsonBody(a[1..]) + ("\"" + x))
  {
  }

  /** A string ends at its first unescaped quote. */
  lemma {:induction false} JsonBodyEnds(a: string, x: string, b: string, y: string)
    requires JsonBody(a) + ("\"" + x) == JsonBody(b) + ("\"" + y)
    ensures a == b && x == y
    decreases |a|
  {
    BodyStart(a, x);
    BodyStart(b, y);
    if a == "" {
      assert x == ("\"" + x)[1..] && y == ("\"" + y)[1..];
      assert JsonBody(a) + ("\"" + x) == "\"" + x && JsonBody(b) + ("\"" + y) == "\"" + y;
    } else {
      BodyStep(a, x);
      BodyStep(b, y);
      JsonHead(a[0], JsonBody(a[1..]) + ("\"" + x), b[0], JsonBody(b[1..]) + ("\"" + y));
      JsonBodyEnds(a[1..], x, b[1..], y);
      assert a == [a[0]] + a[1..] && b == [b[0]] + b[1..];
    }
  }

  lemma JsonStringEnds(a: string, x: string, b: string, y: string)
    requires JsonString(a) + x == JsonString(b) + y
    ensures a == b && x == y
  {
    var p, q := JsonString(a) + x, JsonString(b) + y;
    assert p[1..] == JsonBody(a) + ("\"" + x) && q[1..] == JsonBody(b) + ("\"" + y);
    JsonBodyEnds(a, x, b, y);
  }

  lemma JsonOptionalEnds(a: Option<string>, x: string, b: Option<string>, y: string)
    requires JsonOptional(a) + x == JsonOptional(b) + y
    ensures a == b && x == y
  {
    var p, q := JsonOptional(a) + x, JsonOptional(b) + y;
    assert p[0] == JsonOptional(a)[0] && q[0] == JsonOptional(b)[0];
    if a.None? && b.None? {
      assert x == p[4..] && y == q[4..];
    } else if a.Some? && b.Some? {
      JsonStringEnds(a.value, x, b.value, y);
    }
  }

  // ---------------------------------------------------------------- the document

  lemma SameHead(k: string, x: string, y: string)
    requires k + x == k + y
    ensures x == y
  {
    assert x == (k + x)[|k|..] && y == (k + y)[|k|..];
  }

  /** The text after the timestamp, nested to the right. */
  function Tail(d: CursorDoc): string {
    K_REGISTRATION + (JsonOptional(d.filters.registration) + AfterRegistration(d))
  }

  function AfterRegistration(d: CursorDoc): string {
    K_RESULT + (JsonOptional(d.filters.resultState) + (K_STATUS + (JsonOptional(d.filters.status) + AfterStatus(d))))
  }

  function AfterStatus(d: CursorDoc): string {
    K_STRATEGY + (JsonOptional(d.filters.strategy) + ("}" + (K_ID + (JsonString(d.id) + K_VERSION))))
  }

  /** Nesting to the right, whatever the pieces. */
  lemma Reassociated(j: string, t: string, a: string, b: string, c: string, d: string, e: string, f: string,
      g: string, h: string, z: string, k: string, i: string, v: string)
    ensures ((j + t) + a + b + c + d + e + f + g + h + z) + k + i + v
         == j + (t + (a + (b + (c + (d + (e + (f + (g + (h + (z + (k + (i + v))))))))))))
  {
  }

  lemma CursorJsonNested(d: CursorDoc)
    ensures CursorJson(d) == K_COMMITTED + (JsonString(d.committed) + Tail(d))
  {
    var f := d.filters;
    Reassociated(K_COMMITTED, JsonString(d.committed), K_REGISTRATION, JsonOptional(f.registration), K_RESULT,
        JsonOptional(f.resultState),
                 K_STATUS, JsonOptional(f.status), K_STRATEGY, JsonOptional(f.strategy), "}", K_ID, JsonString(d.id),
                     K_VERSION);
  }

  /** Equal texts are texts of one document. */
  lemma CursorJsonInjective(d: CursorDoc, e: CursorDoc)
    requires d.version == e.version && CursorJson(d) == CursorJson(e)
    ensures d == e
  {
    CursorJsonNested(d);
    CursorJsonNested(e);
    SameHead(K_COMMITTED, JsonString(d.committed) + Tail(d), JsonString(e.committed) + Tail(e));
    JsonStringEnds(d.committed, Tail(d), e.committed, Tail(e));
    SameHead(K_REGISTRATION, JsonOptional(d.filters.registration) + AfterRegistration(d),
        JsonOptional(e.filters.registration) + AfterRegistration(e));
    JsonOptionalEnds(d.filters.registration, AfterRegistration(d), e.filters.registration, AfterRegistration(e));
    TailInjective(d, e);
  }

  lemma TailInjective(d: CursorDoc, e: CursorDoc)
    requires AfterRegistration(d) == AfterRegistration(e)
    ensures d.filters.resultState == e.filters.resultState && d.filters.status == e.filters.status
    ensures d.filters.strategy == e.filters.strategy && d.id == e.id
  {
    var f, g := d.filters, e.filters;
    var x, y := K_STATUS + (JsonOptional(f.status) + AfterStatus(d)),
        K_STATUS + (JsonOptional(g.status) + AfterStatus(e));
    SameHead(K_RESULT, JsonOptional(f.resultState) + x, JsonOptional(g.resultState) + y);
    JsonOptionalEnds(f.resultState, x, g.resultState, y);
    SameHead(K_STATUS, JsonOptional(f.status) + AfterStatus(d), JsonOptional(g.status) + AfterStatus(e));
    JsonOptionalEnds(f.status, AfterStatus(d), g.status, AfterStatus(e));
    var p, q := K_ID + (JsonString(d.id) + K_VERSION), K_ID + (JsonString(e.id) + K_VERSION);
    SameHead(K_STRATEGY, JsonOptional(f.strategy) + ("}" + p), JsonOptional(g.strategy) + ("}" + q));
    JsonOptionalEnds(f.strategy, "}" + p, g.strategy, "}" + q);
    SameHead("}", p, q);
    SameHead(K_ID, JsonString(d.id) + K_VERSION, JsonString(e.id) + K_VERSION);
    JsonStringEnds(d.id, K_VERSION, e.id, K_VERSION);
  }

  // ---------------------------------------------------------------- one reader for all

  /** The reader that inverts the canonical text of bounded documents. */
  ghost function Parse(payload: seq<Byte>): Option<CursorDoc> {
    if exists d: CursorDoc :: Bounded(d) && Utf8(CursorJson(d)) == payload then
      var d: CursorDoc :| Bounded(d) && Utf8(CursorJson(d)) == payload;
      Some(d)
    else None
  }

  lemma ParseInverts(d: CursorDoc)
    requires Bounded(d)
    ensures Parse(Utf8(CursorJson(d))) == Some(d)
  {
    var e := Parse(Utf8(CursorJson(d))).value;
    Utf8Injective(CursorJson(d), CursorJson(e));
    CursorJsonInjective(d, e);
  }

  /** With one reader for all documents, every issued cursor decodes to its own key, and under its own filters alone. */
  lemma EveryIssuedCursorDecodes(tag: seq<Byte> -> seq<Byte>, d: CursorDoc, filters: Filters)
    requires Bounded(d) && |tag(Utf8(CursorJson(d)))| == TAG_BYTES
    ensures DecodeCursor(tag, p => Parse(p), EncodeCursor(tag, d), filters)
         == if filters == d.filters then Some((d.committed, d.id)) else None
  {
    ParseInverts(d);
    CursorRoundTrip(tag, p => Parse(p), d, filters);
  }
}
