/**
 Opaque page cursors: unpadded base64url (sections 3.2, 3.5 and 5 of RFC 4648) around a canonical
 JSON key and its authentication tag.
 */
module CursorCodec {
  import opened Basics
  import opened IsoText

  type Byte = b: nat | b < 256

  // ---------------------------------------------------------------- alphabet

  function Symbol(v: nat): char
    requires v < 64
  {
    if v < 26 then 'A' + v as char
    else if v < 52 then 'a' + (v - 26) as char
    else if v < 62 then '0' + (v - 52) as char
    else if v == 62 then '-' else '_'
  }

  predicate InAlphabet(c: char) {
    'A' <= c <= 'Z' || 'a' <= c <= 'z' || '0' <= c <= '9' || c == '-' || c == '_'
  }

  function Value(c: char): (v: nat)
    requires InAlphabet(c)
    ensures v < 64
  {
    if 'A' <= c <= 'Z' then (c - 'A') as nat
    else if 'a' <= c <= 'z' then (c - 'a') as nat + 26
    else if '0' <= c <= '9' then (c - '0') as nat + 52
    else if c == '-' then 62 else 63
  }

  lemma SymbolValue(v: nat)
    requires v < 64
    ensures InAlphabet(Symbol(v)) && Value(Symbol(v)) == v && Symbol(v) != '.'
  {
  }

  /** Table 2 of RFC 4648: four runs of consecutive characters and the two URL-safe ones. */
  lemma SymbolsAreTheAlphabet(v: nat)
    requires v < 64
    ensures Symbol(0) == 'A' && Symbol(25) == 'Z' && Symbol(26) == 'a' && Symbol(51) == 'z'
    ensures Symbol(52) == '0' && Symbol(61) == '9' && Symbol(62) == '-' && Symbol(63) == '_'
    ensures v !in {0, 26, 52, 62, 63} ==> Symbol(v) as nat == Symbol(v - 1) as nat + 1
  {
  }

  // ---------------------------------------------------------------- base64url

  type Sextet = v: nat | v < 64

  function First(x: Byte): Sextet { x / 4 }
  function Second(x: Byte, y: Byte): Sextet { x % 4 * 16 + y / 16 }
  function Third(y: Byte, z: Byte): Sextet { y % 16 * 4 + z / 64 }
  function Fourth(z: Byte): Sextet { z % 64 }

  /** Three bytes become four sextets; a short last group is filled with zero bits. */
  function Sextets(b: seq<Byte>): seq<Sextet> {
    if |b| == 0 then []
    else if |b| == 1 then [First(b[0]), Second(b[0], 0)]
    else if |b| == 2 then [First(b[0]), Second(b[0], b[1]), Third(b[1], 0)]
    else [First(b[0]), Second(b[0], b[1]), Third(b[1], b[2]), Fourth(b[2])] + Sextets(b[3..])
  }

  function ByteOne(v: Sextet, w: Sextet): Byte { v * 4 + w / 16 }
  function ByteTwo(v: Sextet, w: Sextet): Byte { v % 16 * 16 + w / 4 }
  function ByteThree(v: Sextet, w: Sextet): Byte { v % 4 * 64 + w }

  /** The library decoder on padded input: left-over bits are dropped, a lone sextet is an error. */
  function Bytes(v: seq<Sextet>): Option<seq<Byte>> {
    if |v| == 0 then Some([])
    else if |v| == 1 then None
    else if |v| == 2 then Some([ByteOne(v[0], v[1])])
    else if |v| == 3 then Some([ByteOne(v[0], v[1]), ByteTwo(v[1], v[2])])
    else
      var rest := Bytes(v[4..]);
      if rest.None? then None
      else Some([ByteOne(v[0], v[1]), ByteTwo(v[1], v[2]), ByteThree(v[2], v[3])] + rest.value)
  }

  function Symbols(v: seq<Sextet>): string {
    seq(|v|, i requires 0 <= i < |v| => Symbol(v[i]))
  }

  predicate AllInAlphabet(s: string) {
    forall i :: 0 <= i < |s| ==> InAlphabet(s[i])
  }

  function Values(s: string): seq<Sextet>
    requires AllInAlphabet(s)
  {
    seq(|s|, i requires 0 <= i < |s| => Value(s[i]))
  }

  /** `_urlsafe_encode` */
  function Encode(b: seq<Byte>): string {
    Symbols(Sextets(b))
  }

  /** `_urlsafe_decode` */
  function Decode(s: string): Option<seq<Byte>> {
    if s == "" || !AllInAlphabet(s) then None
    else
      var raw := Bytes(Values(s));
      if raw.None? || Encode(raw.value) != s then None else raw
  }

  /** Each group of four symbols is the number its three bytes are, in base 64. */
  lemma GroupIsANumber(x: Byte, y: Byte, z: Byte)
    ensures ((First(x) * 64 + Second(x, y)) * 64 + Third(y, z)) * 64 + Fourth(z) == (x * 256 + y) * 256 + z
  {
  }

  lemma EncodeGroup(x: Byte, y: Byte, z: Byte, rest: seq<Byte>)
    ensures Encode([x, y, z] + rest) == [Symbol(First(x)), Symbol(Second(x, y)), Symbol(Third(y, z)), Symbol(Fourth(z))]
            + Encode(rest)
  {
    var b := [x, y, z] + rest;
    assert b[3..] == rest;
    assert Sextets(b) == [First(x), Second(x, y), Third(y, z), Fourth(z)] + Sextets(rest);
  }

  lemma ShortVectors()
    ensures Encode([]) == "" && Encode([0x66]) == "Zg" && Encode([0x66, 0x6f]) == "Zm8" && Encode([0xfb, 0xff]) == "-_8"
    ensures Encode([0x62]) == "Yg" && Encode([0x62, 0x61]) == "YmE"
  {
  }

  lemma FooThen(rest: seq<Byte>)
    ensures Encode([0x66, 0x6f, 0x6f] + rest) == "Zm9v" + Encode(rest)
  {
    EncodeGroup(0x66, 0x6f, 0x6f, rest);
    assert Symbol(First(0x66)) == 'Z' && Symbol(Second(0x66, 0x6f)) == 'm';
  }

  lemma BarThen(rest: seq<Byte>)
    ensures Encode([0x62, 0x61, 0x72] + rest) == "YmFy" + Encode(rest)
  {
    EncodeGroup(0x62, 0x61, 0x72, rest);
    assert Symbol(First(0x62)) == 'Y' && Symbol(Second(0x62, 0x61)) == 'm';
  }

  /** The test vectors of section 10 of RFC 4648, unpadded, and one that needs the last two symbols. */
  lemma TestVectors()
    ensures Encode([]) == "" && Encode([0x66]) == "Zg" && Encode([0x66, 0x6f]) == "Zm8" && Encode([0xfb, 0xff]) == "-_8"
    ensures Encode([0x66, 0x6f, 0x6f] + []) == "Zm9v" && Encode([0x66, 0x6f, 0x6f] + [0x62]) == "Zm9vYg"
    ensures Encode([0x66, 0x6f, 0x6f] + [0x62, 0x61]) == "Zm9vYmE"
    ensures Encode([0x66, 0x6f, 0x6f] + ([0x62, 0x61, 0x72] + [])) == "Zm9vYmFy"
  {
    ShortVectors();
    FooThen([]);
    FooThen([0x62]);
    FooThen([0x62, 0x61]);
    FooThen([0x62, 0x61, 0x72] + []);
    BarThen([]);
  }

  lemma QuantumRoundTrip(x: Byte, y: Byte, z: Byte)
    ensures ByteOne(First(x), Second(x, y)) == x
    ensures ByteTwo(Second(x, y), Third(y, z)) == y
    ensures ByteThree(Third(y, z), Fourth(z)) == z
  {
  }

  /** One full group followed by the rest. */
  lemma GroupRoundTrip(x: Byte, y: Byte, z: Byte, rest: seq<Sextet>)
    requires Bytes(rest).Some?
    ensures Bytes([First(x), Second(x, y), Third(y, z), Fourth(z)] + rest) == Some([x, y, z] + Bytes(rest).value)
  {
    var v := [First(x), Second(x, y), Third(y, z), Fourth(z)] + rest;
    assert v[4..] == rest;
    QuantumRoundTrip(x, y, z);
  }

  lemma OneByteTail(x: Byte, y: Byte)
    ensures Bytes([First(x), Second(x, y)]) == Some([x])
  {
    var v := [First(x), Second(x, y)];
    assert Bytes(v) == Some([ByteOne(v[0], v[1])]);
    QuantumRoundTrip(x, y, y);
  }

  lemma TwoByteTail(x: Byte, y: Byte, z: Byte)
    ensures Bytes([First(x), Second(x, y), Third(y, z)]) == Some([x, y])
  {
    QuantumRoundTrip(x, y, z);
  }

  lemma {:induction false} SextetsRoundTrip(b: seq<Byte>)
    ensures Bytes(Sextets(b)) == Some(b)
    decreases |b|
  {
    if |b| == 1 {
      OneByteTail(b[0], 0);
      assert b == [b[0]];
    } else if |b| == 2 {
      TwoByteTail(b[0], b[1], 0);
      assert b == [b[0], b[1]];
    } else if |b| > 2 {
      SextetsRoundTrip(b[3..]);
      GroupRoundTrip(b[0], b[1], b[2], Sextets(b[3..]));
      assert b == [b[0], b[1], b[2]] + b[3..];
    }
  }

  lemma {:induction false} SextetsLength(b: seq<Byte>)
    ensures |Sextets(b)| == (4 * |b| + 2) / 3
    decreases |b|
  {
    if |b| >= 3 { SextetsLength(b[3..]); }
  }

  lemma SymbolsRoundTrip(v: seq<Sextet>)
    ensures AllInAlphabet(Symbols(v)) && Values(Symbols(v)) == v
  {
    forall i | 0 <= i < |v| ensures InAlphabet(Symbols(v)[i]) && Value(Symbols(v)[i]) == v[i] { SymbolValue(v[i]); }
  }

  /** Decoding inverts encoding, and encoding uses only the alphabet. */
  lemma EncodeRoundTrip(b: seq<Byte>)
    ensures AllInAlphabet(Encode(b)) && Bytes(Values(Encode(b))) == Some(b)
    ensures |Encode(b)| == (4 * |b| + 2) / 3
  {
    SextetsRoundTrip(b);
    SextetsLength(b);
    SymbolsRoundTrip(Sextets(b));
  }

  /** Canonical form: a string decodes exactly when it is the encoding of a non-empty byte string. */
  lemma DecodeIsExact(s: string, b: seq<Byte>)
    ensures Decode(s) == Some(b) <==> b != [] && Encode(b) == s
  {
    EncodeRoundTrip(b);
    if b != [] && Encode(b) == s {
      assert |s| > 0;
    }
  }

  // ---------------------------------------------------------------- UTF-8 and JSON text

  function Utf8Char(c: char): (r: seq<Byte>)
    ensures 1 <= |r| <= 4
    ensures c as int < 128 ==> |r| == 1
  {
    var n := c as nat;
    if n < 0x80 then [n]
    else if n < 0x800 then [0xC0 + n / 64, 0x80 + n % 64]
    else if n < 0x10000 then [0xE0 + n / 4096, 0x80 + n / 64 % 64, 0x80 + n % 64]
    else [0xF0 + n / 262144 % 8, 0x80 + n / 4096 % 64, 0x80 + n / 64 % 64, 0x80 + n % 64]
  }

  function Utf8(s: string): seq<Byte> {
    if s == "" then [] else Utf8Char(s[0]) + Utf8(s[1..])
  }

  function HexDigit(n: nat): char
    requires n < 16
  {
    if n < 10 then '0' + n as char else 'a' + (n - 10) as char
  }

  /** `json.dumps` with `ensure_ascii=False`: quotes, backslashes and control characters are escaped. */
  function JsonChar(c: char): string {
    if c == '"' then "\\\"" else if c == '\\' then "\\\\"
    else if c == '\n' then "\\n" else if c == '\r' then "\\r" else if c == '\t' then "\\t"
    else if c == '\U{8}' then "\\b" else if c == '\U{c}' then "\\f"
    else if c < ' ' then "\\u00" + [HexDigit(c as nat / 16), HexDigit(c as nat % 16)]
    else [c]
  }

  /** Examples of section 7 of RFC 3629, and a control character of section 7 of RFC 8259. */
  lemma CharacterVectors()
    ensures Utf8Char('A') == [0x41] && Utf8Char('\U{391}') == [0xCE, 0x91] && Utf8Char('\U{2262}') == [0xE2, 0x89, 0xA2]
    ensures Utf8Char('\U{233B4}') == [0xF0, 0xA3, 0x8E, 0xB4] && JsonChar('\U{1f}') == "\\u001f"
  {
  }

  function JsonBody(s: string): string {
    if s == "" then "" else JsonChar(s[0]) + JsonBody(s[1..])
  }

  function JsonString(s: string): string {
    "\"" + JsonBody(s) + "\""
  }

  function JsonOptional(s: Option<string>): string {
    if s.None? then "null" else JsonString(s.value)
  }

  lemma {:induction false} Utf8Concat(a: string, b: string)
    ensures Utf8(a + b) == Utf8(a) + Utf8(b)
    decreases |a|
  {
    if a == "" {
      assert a + b == b;
    } else {
      assert (a + b)[1..] == a[1..] + b;
      Utf8Concat(a[1..], b);
    }
  }

  predicate Ascii(s: string) {
    forall i :: 0 <= i < |s| ==> (s[i] as int) < 128
  }

  lemma {:induction false} AsciiLength(s: string)
    requires Ascii(s)
    ensures |Utf8(s)| == |s|
    decreases |s|
  {
    if s != "" {
      assert Ascii(s[1..]) by { forall i | 0 <= i < |s[1..]|
             ensures (s[1..][i] as int) < 128 { assert s[1..][i] == s[i + 1]; } }
      AsciiLength(s[1..]);
    }
  }

  /** One character costs at most six bytes, escaped or not. */
  lemma JsonCharLength(c: char)
    ensures |Utf8(JsonChar(c))| <= 6
  {
    var t := JsonChar(c);
    if |t| > 1 {
      assert Ascii(t);
      AsciiLength(t);
    } else {
      assert t == [c];
      assert Utf8([c]) == Utf8Char(c) + Utf8([c][1..]);
      assert [c][1..] == "";
    }
  }

  lemma {:induction false} JsonBodyLength(s: string)
    ensures |Utf8(JsonBody(s))| <= 6 * |s|
    decreases |s|
  {
    if s != "" {
      JsonCharLength(s[0]);
      Utf8Concat(JsonChar(s[0]), JsonBody(s[1..]));
      JsonBodyLength(s[1..]);
    }
  }

  lemma QuotedLength(s: string, n: nat)
    requires |s| <= n
    ensures |Utf8(JsonString(s))| <= 6 * n + 2
  {
    JsonBodyLength(s);
    Utf8Concat("\"", JsonBody(s));
    Utf8Concat("\"" + JsonBody(s), "\"");
    AsciiLength("\"");
  }

  // ---------------------------------------------------------------- cursors

  datatype Filters = Filters(registration: Option<string>, resultState: Option<string>, status: Option<string>,
      strategy: Option<string>)
  datatype CursorDoc = CursorDoc(version: nat, committed: string, id: string, filters: Filters)

  const CURSOR_VERSION := 1
  const MAX_CURSOR_BYTES := 4096
  const TAG_BYTES := 32
  const MAX_ID := 128
  const MAX_STRATEGY := 256
  const MAX_LABEL := 21        // "unregistered_external"
  const TIMESTAMP_LENGTH := 32

  /** The canonical JSON of a cursor: sorted keys, no white space. */
  function CursorJson(d: CursorDoc): string {
    FiltersJson(K_COMMITTED + JsonString(d.committed), d.filters) + K_ID + JsonString(d.id) + K_VERSION
  }

  function FiltersJson(t: string, f: Filters): string {
    t + K_REGISTRATION + JsonOptional(f.registration) + K_RESULT + JsonOptional(f.resultState)
    + K_STATUS + JsonOptional(f.status) + K_STRATEGY + JsonOptional(f.strategy) + "}"
  }

  /** Ids and filters as the validators bound them; labels are enumeration values. */
  predicate Bounded(d: CursorDoc) {
    && d.version == CURSOR_VERSION
    && 1 <= |d.committed| <= TIMESTAMP_LENGTH && Plain(d.committed) && 1 <= |d.id| <= MAX_ID
    && LabelOk(d.filters.registration) && LabelOk(d.filters.resultState) && LabelOk(d.filters.status)
    && (d.filters.strategy.Some? ==> |d.filters.strategy.value| <= MAX_STRATEGY)
  }

  /** Enumeration values: printable text that JSON never escapes. */
  predicate Plain(s: string) {
    forall i :: 0 <= i < |s| ==> ' ' <= s[i] <= '~' && s[i] != '"' && s[i] != '\\'
  }

  predicate LabelOk(s: Option<string>) {
    s.Some? ==> |s.value| <= MAX_LABEL && Plain(s.value)
  }

  lemma {:induction false} PlainBody(s: string)
    requires Plain(s)
    ensures JsonBody(s) == s && Ascii(s)
    decreases |s|
  {
    if s != "" {
      assert Plain(s[1..]) by { forall i | 0 <= i < |s[1..]| ensures ' ' <= s[1..][i] <= '~' && s[1..][i] != '"'
             && s[1..][i] != '\\' { assert s[1..][i] == s[i + 1]; } }
      PlainBody(s[1..]);
      assert s == [s[0]] + s[1..];
    }
  }

  lemma PlainLength(s: string)
    requires Plain(s)
    ensures |Utf8(JsonString(s))| == |s| + 2
  {
    PlainBody(s);
    AsciiLength(s);
    AsciiLength("\"");
    Utf8Concat("\"", s);
    Utf8Concat("\"" + s, "\"");
  }

  lemma LabelLength(s: Option<string>)
    requires LabelOk(s)
    ensures |Utf8(JsonOptional(s))| <= MAX_LABEL + 2
  {
    if s.Some? { PlainLength(s.value); } else { AsciiLength("null"); }
  }

  lemma StrategyLength(s: Option<string>)
    requires s.Some? ==> |s.value| <= MAX_STRATEGY
    ensures |Utf8(JsonOptional(s))| <= 6 * MAX_STRATEGY + 2
  {
    if s.Some? { QuotedLength(s.value, MAX_STRATEGY); } else { AsciiLength("null"); }
  }

  lemma {:induction false} Utf8Max(s: string)
    ensures |Utf8(s)| <= 4 * |s|
    decreases |s|
  {
    if s != "" { Utf8Max(s[1..]); }
  }

  /** A key followed by a value, appended to a text. */
  lemma AppendLength(t: string, k: string, v: string)
    ensures |Utf8(t + k + v)| <= |Utf8(t)| + 4 * |k| + |Utf8(v)|
  {
    Utf8Concat(t, k);
    Utf8Concat(t + k, v);
    Utf8Max(k);
  }

  const K_REGISTRATION := ",\"filters\":{\"registration_status\":"
  const K_RESULT := ",\"result_state\":"
  const K_STATUS := ",\"status\":"
  const K_STRATEGY := ",\"strategy_id\":"
  const K_COMMITTED := "{\"committed_at\":"
  const K_ID := ",\"prediction_id\":"
  const K_VERSION := ",\"v\":1}"

  lemma FiltersLength(t: string, f: Filters)
    requires LabelOk(f.registration) && LabelOk(f.resultState) && LabelOk(f.status)
             && (f.strategy.Some? ==> |f.strategy.value| <= MAX_STRATEGY)
    ensures |Utf8(FiltersJson(t, f))| <= |Utf8(t)| + 1912
  {
    var a, b, c, d := JsonOptional(f.registration), JsonOptional(f.resultState), JsonOptional(f.status),
        JsonOptional(f.strategy);
    LabelLength(f.registration);
    LabelLength(f.resultState);
    LabelLength(f.status);
    StrategyLength(f.strategy);
    AppendLength(t, K_REGISTRATION, a);
    var t1 := t + K_REGISTRATION + a;
    AppendLength(t1, K_RESULT, b);
    var t2 := t1 + K_RESULT + b;
    AppendLength(t2, K_STATUS, c);
    var t3 := t2 + K_STATUS + c;
    AppendLength(t3, K_STRATEGY, d);
    var t4 := t3 + K_STRATEGY + d;
    Utf8Concat(t4, "}");
    assert FiltersJson(t, f) == t4 + "}";
  }

  lemma PayloadLength(d: CursorDoc)
    requires Bounded(d)
    ensures |Utf8(CursorJson(d))| <= 2880
  {
    PlainLength(d.committed);
    QuotedLength(d.id, MAX_ID);
    AppendLength("", K_COMMITTED, JsonString(d.committed));
    assert "" + K_COMMITTED == K_COMMITTED;
    var t1 := K_COMMITTED + JsonString(d.committed);
    FiltersLength(t1, d.filters);
    var t2 := FiltersJson(t1, d.filters);
    AppendLength(t2, K_ID, JsonString(d.id));
    var t3 := t2 + K_ID + JsonString(d.id);
    AppendLength(t3, K_VERSION, "");
    assert t3 + K_VERSION + "" == t3 + K_VERSION;
  }

  /** `_CursorCodec.encode`; `tag` is the keyed digest. */
  function EncodeCursor(tag: seq<Byte> -> seq<Byte>, d: CursorDoc): string {
    var payload := Utf8(CursorJson(d));
    Encode(payload) + "." + Encode(tag(payload))
  }

  /** Index of the first dot, or the length. */
  function FirstDot(s: string): (i: nat)
    ensures i <= |s| && (i < |s| ==> s[i] == '.') && forall j :: 0 <= j < i ==> s[j] != '.'
  {
    if s == "" || s[0] == '.' then 0 else 1 + FirstDot(s[1..])
  }

  /** `_CursorCodec.decode`; `parse` is the JSON reader with its shape checks. */
  function DecodeCursor(tag: seq<Byte> -> seq<Byte>, parse: seq<Byte> -> Option<CursorDoc>, cursor: string,
      filters: Filters): Option<(string, string)> {
    if cursor == "" || |Utf8(cursor)| > MAX_CURSOR_BYTES then None
    else
      var i := FirstDot(cursor);
      if i == |cursor| then None
      else
        var payload, signature := Decode(cursor[..i]), Decode(cursor[i + 1..]);
        if payload.None? || signature.None? || signature.value != tag(payload.value) then None
        else
          var d := parse(payload.value);
          if d.None? || d.value.version != CURSOR_VERSION || d.value.committed == "" || d.value.id == ""
              || d.value.filters != filters then None
          else Some((d.value.committed, d.value.id))
  }

  lemma NoDotInEncoding(b: seq<Byte>)
    ensures '.' !in Encode(b) && Ascii(Encode(b))
  {
    EncodeRoundTrip(b);
    var s := Encode(b);
    forall i | 0 <= i < |s| ensures s[i] != '.' && (s[i] as int) < 128 { assert InAlphabet(s[i]); }
  }

  lemma FirstDotAfter(a: string, b: string)
    requires '.' !in a
    ensures FirstDot(a + "." + b) == |a|
  {
    var s := a + "." + b;
    assert s[|a|] == '.';
    assert forall j :: 0 <= j < |a| ==> s[j] == a[j] && a[j] in a;
  }

  /** Every cursor the service issues stays within the byte limit. */
  lemma IssuedCursorFits(tag: seq<Byte> -> seq<Byte>, d: CursorDoc)
    requires Bounded(d) && |tag(Utf8(CursorJson(d)))| == TAG_BYTES
    ensures EncodeCursor(tag, d) != "" && |Utf8(EncodeCursor(tag, d))| <= MAX_CURSOR_BYTES
  {
    var payload := Utf8(CursorJson(d));
    PayloadLength(d);
    EncodeRoundTrip(payload);
    EncodeRoundTrip(tag(payload));
    NoDotInEncoding(payload);
    NoDotInEncoding(tag(payload));
    AsciiLength(EncodeCursor(tag, d));
  }

  /** An issued cursor decodes to its own key under its own filters, and under no others. */
  lemma CursorRoundTrip(tag: seq<Byte> -> seq<Byte>, parse: seq<Byte> -> Option<CursorDoc>, d: CursorDoc,
      filters: Filters)
    requires Bounded(d) && |tag(Utf8(CursorJson(d)))| == TAG_BYTES
    requires parse(Utf8(CursorJson(d))) == Some(d)
    ensures DecodeCursor(tag, parse, EncodeCursor(tag, d), filters) == if filters == d.filters
            then Some((d.committed, d.id)) else None
  {
    var payload := Utf8(CursorJson(d));
    var a, b := Encode(payload), Encode(tag(payload));
    IssuedCursorFits(tag, d);
    NoDotInEncoding(payload);
    FirstDotAfter(a, b);
    var cursor := a + "." + b;
    assert cursor[..|a|] == a && cursor[|a| + 1..] == b;
    PayloadNonEmpty(d);
    DecodeIsExact(a, payload);
    DecodeIsExact(b, tag(payload));
  }

  lemma PayloadNonEmpty(d: CursorDoc)
    ensures Utf8(CursorJson(d)) != []
  {
    assert CursorJson(d) != "";
  }

  lemma BothHalvesAreCanonical(cursor: string, i: nat, payload: seq<Byte>, signature: seq<Byte>)
    requires i < |cursor| && cursor[i] == '.'
    requires Decode(cursor[..i]) == Some(payload) && Decode(cursor[i + 1..]) == Some(signature)
    ensures cursor == Encode(payload) + "." + Encode(signature) && payload != [] && signature != []
  {
    DecodeIsExact(cursor[..i], payload);
    DecodeIsExact(cursor[i + 1..], signature);
    assert cursor == cursor[..i] + "." + cursor[i + 1..];
  }

  /**
   `cursor` spells `payload` and its tag within 4096 bytes, and `payload` reads back as a version 1 key
   under `filters`.
   */
  predicate Spells(tag: seq<Byte> -> seq<Byte>, parse: seq<Byte> -> Option<CursorDoc>, cursor: string,
      filters: Filters, payload: seq<Byte>, key: (string, string)) {
    && cursor == Encode(payload) + "." + Encode(tag(payload)) && |Utf8(cursor)| <= 4096
    && payload != [] && tag(payload) != []
    && parse(payload).Some? && parse(payload).value.filters == filters && parse(payload).value.version == 1
    && key.0 != "" && key.1 != ""
    && key == (parse(payload).value.committed, parse(payload).value.id)
  }

  lemma AcceptedParts(tag: seq<Byte> -> seq<Byte>, parse: seq<Byte> -> Option<CursorDoc>, cursor: string,
      filters: Filters)
    returns (payload: seq<Byte>)
    requires DecodeCursor(tag, parse, cursor, filters).Some?
    ensures Spells(tag, parse, cursor, filters, payload, DecodeCursor(tag, parse, cursor, filters).value)
  {
    var i := FirstDot(cursor);
    payload := Decode(cursor[..i]).value;
    BothHalvesAreCanonical(cursor, i, payload, tag(payload));
  }

  lemma SpelledCursorDecodes(tag: seq<Byte> -> seq<Byte>, parse: seq<Byte> -> Option<CursorDoc>, cursor: string,
      filters: Filters, payload: seq<Byte>, key: (string, string))
    requires Spells(tag, parse, cursor, filters, payload, key)
    ensures DecodeCursor(tag, parse, cursor, filters) == Some(key)
  {
    var a, b := Encode(payload), Encode(tag(payload));
    NoDotInEncoding(payload);
    FirstDotAfter(a, b);
    assert cursor[..|a|] == a && cursor[|a| + 1..] == b;
    DecodeIsExact(a, payload);
    DecodeIsExact(b, tag(payload));
  }

  /** Exactly the canonical spellings of authenticated payloads are accepted. */
  lemma AcceptedCursorsAreCanonical(tag: seq<Byte> -> seq<Byte>, parse: seq<Byte> -> Option<CursorDoc>,
      cursor: string, filters: Filters, key: (string, string))
    ensures DecodeCursor(tag, parse, cursor, filters) == Some(key)
            <==> exists payload: seq<Byte> :: Spells(tag, parse, cursor, filters, payload, key)
  {
    if DecodeCursor(tag, parse, cursor, filters) == Some(key) {
      var payload := AcceptedParts(tag, parse, cursor, filters);
    } else if payload: seq<Byte> :| Spells(tag, parse, cursor, filters, payload, key) {
      SpelledCursorDecodes(tag, parse, cursor, filters, payload, key);
      assert false;
    }
  }
}
