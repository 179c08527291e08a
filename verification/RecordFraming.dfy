/**
 Markdown framing of a prediction record: the text the writer produces and the integrity checker's
 reading of it, with frontmatter between two fences and a body after a blank line.
 */
module RecordFraming {
  import opened Basics
  import opened IsoText

  const FENCE := "---\n"

  /** `_record_bytes` from its YAML text on, before UTF-8 encoding. */
  function Record(yaml: string, body: string): string {
    Framed(yaml, RStrip(body))
  }

  function Framed(yaml: string, text: string): string {
    FENCE + (yaml + (FENCE + ("\n" + (text + "\n"))))
  }

  predicate FenceAt(s: string, i: nat) {
    i + 4 <= |s| && s[i] == '-' && s[i + 1] == '-' && s[i + 2] == '-' && s[i + 3] == '\n'
  }

  ghost predicate HasFence(s: string) {
    exists i: nat :: FenceAt(s, i)
  }

  /** `str.find` of the fence. */
  function Find(s: string): (i: Option<nat>)
    ensures i.Some? ==> FenceAt(s, i.value) && forall j: nat :: j < i.value ==> !FenceAt(s, j)
    ensures i.None? ==> !HasFence(s)
  {
    if FenceAt(s, 0) then Some(0)
    else if s == "" then None
    else
      var rest := Find(s[1..]);
      assert forall j: nat :: FenceAt(s, j) ==> FenceAt(s[1..], j - 1);
      if rest.None? then None else Some(rest.value + 1)
  }

  predicate CrlfAt(s: string, i: nat) {
    i + 2 <= |s| && s[i] == '\r' && s[i + 1] == '\n'
  }

  ghost predicate HasCrlf(s: string) {
    exists i: nat :: CrlfAt(s, i)
  }

  /** `replace("\r\n", "\n")` */
  function Unix(s: string): string {
    if s == "" then ""
    else if CrlfAt(s, 0) then "\n" + Unix(s[2..])
    else [s[0]] + Unix(s[1..])
  }

  /** At most one newline off each end. */
  function Unpad(t: string): string {
    var u := if t != "" && t[0] == '\n' then t[1..] else t;
    if u != "" && u[|u| - 1] == '\n' then u[..|u| - 1] else u
  }

  /** `_load_record` up to the YAML parser: the frontmatter text and the body. */
  function LoadRecord(raw: string): Option<(string, string)> {
    var content := Unix(raw);
    if !FenceAt(content, 0) then None
    else
      var tail := content[4..];
      var second := Find(tail);
      if second.None? then None
      else Some((tail[..second.value], Unpad(tail[second.value + 4..])))
  }

  // ---------------------------------------------------------------- line endings

  lemma UnixCrlf(s: string)
    requires CrlfAt(s, 0)
    ensures Unix(s) == "\n" + Unix(s[2..])
  {
  }

  lemma UnixOther(s: string)
    requires s != "" && !CrlfAt(s, 0)
    ensures Unix(s) == [s[0]] + Unix(s[1..])
  {
  }

  lemma {:induction false} UnixConcat(a: string, b: string)
    requires a == "" || a[|a| - 1] != '\r' || b == "" || b[0] != '\n'
    ensures Unix(a + b) == Unix(a) + Unix(b)
    decreases |a|
  {
    if a == "" {
      assert a + b == b;
    } else if CrlfAt(a, 0) {
      assert (a + b)[2..] == a[2..] + b;
      UnixConcat(a[2..], b);
      UnixCrlf(a + b);
    } else {
      assert (a + b)[1..] == a[1..] + b;
      UnixConcat(a[1..], b);
      UnixOther(a + b);
    }
  }

  /** Replacement never lengthens, and shortens exactly when there is something to replace. */
  lemma {:induction false} UnixLength(s: string)
    ensures |Unix(s)| <= |s|
    ensures HasCrlf(s) ==> |Unix(s)| < |s|
    ensures !HasCrlf(s) ==> Unix(s) == s
    decreases |s|
  {
    if s == "" {
    } else if CrlfAt(s, 0) {
      UnixLength(s[2..]);
    } else {
      UnixLength(s[1..]);
      assert s == [s[0]] + s[1..];
      assert forall i: nat :: CrlfAt(s, i) ==> CrlfAt(s[1..], i - 1);
      assert forall i: nat :: CrlfAt(s[1..], i) ==> CrlfAt(s, i + 1);
    }
  }

  lemma {:induction false} UnixEnd(s: string)
    requires s != "" && s[|s| - 1] == '\n'
    ensures Unix(s) != "" && Unix(s)[|Unix(s)| - 1] == '\n'
    decreases |s|
  {
    if CrlfAt(s, 0) {
      if |s| > 2 { UnixEnd(s[2..]); }
    } else if |s| > 1 {
      UnixEnd(s[1..]);
    }
  }

  lemma PlainUnix()
    ensures Unix(FENCE) == FENCE && Unix("\n") == "\n"
  {
    UnixLength(FENCE);
    UnixLength("\n");
  }

  lemma UnixFraming(fence: string, yaml: string, newline: string, text: string)
    requires Unix(fence) == fence && fence != "" && fence[|fence| - 1] != '\r' && fence[0] != '\n'
    requires Unix(newline) == newline && newline != "" && newline[|newline| - 1] != '\r'
    requires yaml == "" || yaml[|yaml| - 1] != '\r'
    requires text == "" || text[|text| - 1] != '\r'
    ensures Unix(fence + (yaml + (fence + (newline + (text + newline)))))
         == fence + (Unix(yaml) + (fence + (newline + (Unix(text) + newline))))
  {
    UnixConcat(text, newline);
    UnixConcat(newline, text + newline);
    UnixConcat(fence, newline + (text + newline));
    UnixConcat(yaml, fence + (newline + (text + newline)));
    UnixConcat(fence, yaml + (fence + (newline + (text + newline))));
  }

  /** Normalizing a record normalizes its two parts and leaves the framing alone. */
  lemma UnixRecord(yaml: string, text: string)
    requires yaml != "" && yaml[|yaml| - 1] == '\n'
    requires text == "" || text[|text| - 1] != '\r'
    ensures Unix(Framed(yaml, text)) == Framed(Unix(yaml), Unix(text))
  {
    PlainUnix();
    UnixFraming(FENCE, yaml, "\n", text);
  }

  // ---------------------------------------------------------------- fences

  /** No match straddles the boundary: the first fence after `yaml` is the one the writer put there. */
  lemma NoStraddle(yaml: string, rest: string)
    requires yaml != "" && yaml[|yaml| - 1] == '\n' && !HasFence(yaml)
    ensures Find(yaml + (FENCE + rest)) == Some(|yaml|)
  {
    var t := yaml + (FENCE + rest);
    assert FenceAt(t, |yaml|);
    forall j: nat | j < |yaml| ensures !FenceAt(t, j) {
      if j + 4 <= |yaml| { assert !FenceAt(yaml, j); }
      assert t[|yaml| - 1] == '\n';
    }
  }

  /** A fence inside the frontmatter cuts it short. */
  lemma EarlyFence(yaml: string, rest: string)
    requires HasFence(yaml)
    ensures Find(yaml + (FENCE + rest)).Some? && Find(yaml + (FENCE + rest)).value < |yaml|
  {
    var i: nat :| FenceAt(yaml, i);
    assert FenceAt(yaml + (FENCE + rest), i);
  }

  lemma UnpadRestores(text: string)
    ensures Unpad("\n" + (text + "\n")) == text
  {
    var t := "\n" + (text + "\n");
    assert t[1..] == text + "\n";
    assert (text + "\n")[..|text|] == text;
  }

  /** Text that is not padded on a side loses nothing there. */
  lemma UnpadKeeps(text: string)
    requires text == "" || (text[0] != '\n' && text[|text| - 1] != '\n')
    ensures Unpad(text) == text && Unpad("\n" + text) == text && Unpad(text + "\n") == text
  {
    assert ("\n" + text)[1..] == text && (text + "\n")[..|text|] == text;
    if text != "" { assert (text + "\n")[0] == text[0]; }
  }

  /** Past the first fence, the reading depends on the rest alone. */
  lemma LoadAfterFence(raw: string, fence: string, tail: string, i: nat)
    requires fence == FENCE && Unix(raw) == fence + tail && Find(tail) == Some(i)
    ensures LoadRecord(raw) == Some((tail[..i], Unpad(tail[i + 4..])))
  {
    assert |fence| == 4 && FenceAt(Unix(raw), 0);
    assert Unix(raw)[4..] == tail;
  }

  lemma LoadFramed(raw: string, yaml: string, text: string)
    requires Unix(raw) == Framed(yaml, text)
    requires yaml != "" && yaml[|yaml| - 1] == '\n'
    ensures !HasFence(yaml) ==> LoadRecord(raw) == Some((yaml, text))
    ensures HasFence(yaml) ==> LoadRecord(raw).Some? && |LoadRecord(raw).value.0| < |yaml|
  {
    var rest := "\n" + (text + "\n");
    var tail := yaml + (FENCE + rest);
    if HasFence(yaml) {
      EarlyFence(yaml, rest);
      LoadAfterFence(raw, FENCE, tail, Find(tail).value);
    } else {
      NoStraddle(yaml, rest);
      LoadAfterFence(raw, FENCE, tail, |yaml|);
      assert tail[..|yaml|] == yaml && tail[|yaml| + 4..] == rest;
      UnpadRestores(text);
    }
  }

  /** What reading a written record gives, whatever the line endings. */
  lemma WrittenRecordLoads(yaml: string, body: string)
    requires yaml != "" && yaml[|yaml| - 1] == '\n'
    requires !HasFence(Unix(yaml))
    ensures LoadRecord(Record(yaml, body)) == Some((Unix(yaml), Unix(RStrip(body))))
  {
    UnixRecord(yaml, RStrip(body));
    UnixEnd(yaml);
    LoadFramed(Record(yaml, body), Unix(yaml), Unix(RStrip(body)));
  }

  /** The round trip holds exactly for frontmatter without a fence and text without CRLF. */
  lemma RecordRoundTrip(yaml: string, body: string)
    requires yaml != "" && yaml[|yaml| - 1] == '\n'
    ensures LoadRecord(Record(yaml, body)) == Some((yaml, RStrip(body)))
            <==> !HasFence(yaml) && !HasCrlf(yaml) && !HasCrlf(RStrip(body))
  {
    var text := RStrip(body);
    UnixRecord(yaml, text);
    UnixEnd(yaml);
    UnixLength(yaml);
    UnixLength(text);
    LoadFramed(Record(yaml, body), Unix(yaml), Unix(text));
  }

  /** Failing inputs: a body with CRLF, and frontmatter that holds a fence. */
  lemma RoundTripFailures()
    ensures LoadRecord(Record("a\n", "x\r\ny")) != Some(("a\n", RStrip("x\r\ny")))
    ensures LoadRecord(Record("---\n", "x")) != Some(("---\n", RStrip("x")))
  {
    var body := "x\r\ny";
    assert !IsSpace(body[3]) && RStrip(body) == body;
    assert CrlfAt(body, 1);
    RecordRoundTrip("a\n", body);
    assert FenceAt("---\n", 0);
    RecordRoundTrip("---\n", "x");
  }

  /** What a successful read means: two fences, with none inside the frontmatter. */
  lemma LoadedRecordIsFramed(raw: string, yaml: string, body: string)
    requires LoadRecord(raw) == Some((yaml, body))
    ensures !HasFence(yaml)
    ensures exists rest :: Unix(raw) == FENCE + yaml + FENCE + rest && Unpad(rest) == body
  {
    var content := Unix(raw);
    var tail := content[4..];
    var i := Find(tail).value;
    forall j: nat ensures !FenceAt(yaml, j) {
      if FenceAt(yaml, j) { assert FenceAt(tail, j); }
    }
    var rest := tail[i + 4..];
    assert content == FENCE + yaml + FENCE + rest;
  }
}
