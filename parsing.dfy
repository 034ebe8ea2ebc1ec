/**
 * The text helpers both model-output parsers share: Python's
 * `str.splitlines`, the code-fence stripping, the `{...}` block extraction,
 * `float(...)` on a decoded JSON value and the clamp to [0, 1].
 * `json.loads` and `float(str)` are oracles: a decoder maps a text to the
 * value it denotes, or to `None` where Python raises.
 */
module Parsing {
  import opened Wrappers
  import opened Json
  import Text

  /** How a Python call ends: an exception, or a returned value. */
  datatype Outcome<T> = Raised | Returned(value: T)

  /** Python's `bool(text)` for an optional text: present and not empty. */
  predicate Filled(s: Option<string>) {
    s.Some? && s.value != []
  }

  /** The characters `str.splitlines` breaks at. */
  predicate IsLineBreak(c: char) {
    c == '\n' || c == '\r' || c == '\U{000B}' || c == '\U{000C}' || c == '\U{001C}' || c == '\U{001D}'
    || c == '\U{001E}' || c == '\U{0085}' || c == '\U{2028}' || c == '\U{2029}'
  }

  predicate NoBreak(s: string) {
    forall j :: 0 <= j < |s| ==> !IsLineBreak(s[j])
  }

  /** The index of the first line break, or the length when there is none. */
  function LineEnd(s: string): (i: nat)
    ensures i <= |s|
    ensures i < |s| ==> IsLineBreak(s[i])
    ensures NoBreak(s[..i])
  {
    if s == [] then 0
    else if IsLineBreak(s[0]) then 0
    else
      var k := LineEnd(s[1..]);
      assert s[..k + 1] == [s[0]] + s[1..][..k];
      k + 1
  }

  /**
   * `s.splitlines()`: the lines without their breaks ("\r\n" is one break);
   * a break at the very end does not start another line.
   */
  function SplitLines(s: string): (r: seq<string>)
    ensures s != [] ==> r != []
    ensures forall k :: 0 <= k < |r| ==> NoBreak(r[k])
    decreases |s|
  {
    if s == [] then []
    else
      var i := LineEnd(s);
      if i == |s| then
        assert s[..i] == s;
        [s]
      else
        var width := if s[i] == '\r' && i + 1 < |s| && s[i + 1] == '\n' then 2 else 1;
        [s[..i]] + SplitLines(s[i + width..])
  }

  const Fence := "```"

  /**
   * `_strip_code_fence`: the stripped text when it does not open with a
   * fence; otherwise its lines without the opening line and without a last
   * line that (stripped) starts with a fence, joined and stripped.
   */
  function StripCodeFence(text: string): (r: string)
    ensures Text.IsStripped(r)
    ensures !Text.StartsWith(Text.Strip(text), Fence) ==> r == Text.Strip(text)
  {
    var snippet := Text.Strip(text);
    if !Text.StartsWith(snippet, Fence) then snippet
    else
      var lines := SplitLines(snippet);
      var body := if |lines| > 0 && Text.StartsWith(lines[0], Fence) then lines[1..] else lines;
      var inner := if |body| > 0 && Text.StartsWith(Text.Strip(body[|body| - 1]), Fence) then body[..|body| - 1] else body;
      Text.Strip(Text.Join(inner, "\n"))
  }

  /**
   * `_extract_json_block`: from the first "{" to the last "}" inclusive, or
   * `None` when either is missing or the last "}" is not after the first "{".
   */
  function ExtractJsonBlock(text: string): (r: Option<string>)
    ensures r.Some? ==> 2 <= |r.value| && r.value[0] == '{' && r.value[|r.value| - 1] == '}'
  {
    var start := Text.FindChar(text, '{');
    var end := Text.RFindChar(text, '}');
    if start == -1 || end == -1 || end <= start then None
    else Some(text[start..end + 1])
  }

  /** One item of a Responses API reply: its `type` (`None` when absent) and its `text` ("" when absent). */
  datatype OutputItem = OutputItem(kind: Option<string>, text: string)

  /** A Responses API reply: its `output` items and, when the attribute exists, its `output_text`. */
  datatype ModelResponse = ModelResponse(output: seq<OutputItem>, outputText: Option<string>)

  const OutputTextKind := "output_text"

  /** The texts of the "output_text" items, in order. */
  function OutputTexts(items: seq<OutputItem>): (r: seq<string>)
    ensures |r| <= |items|
    ensures r == [] <==> forall k :: 0 <= k < |items| ==> items[k].kind != Some(OutputTextKind)
  {
    if items == [] then []
    else
      var rest := OutputTexts(items[1..]);
      assert forall k :: 1 <= k < |items| ==> items[k] == items[1..][k - 1];
      if items[0].kind == Some(OutputTextKind) then [items[0].text] + rest else rest
  }

  /**
   * `_extract_text`: the texts of the "output_text" items, or `output_text`
   * when there are none, concatenated and stripped.
   */
  function ExtractText(response: ModelResponse): (r: string)
    ensures Text.IsStripped(r)
    ensures OutputTexts(response.output) == [] && response.outputText.None? ==> r == []
  {
    var chunks := OutputTexts(response.output);
    var all := if chunks == [] && response.outputText.Some? then [response.outputText.value] else chunks;
    Text.Strip(Text.Join(all, ""))
  }

  /**
   * `for x in v` over a decoded value: a list's items, a dict's keys, a
   * string's characters; `None` where Python raises `TypeError` (`None`, a
   * boolean or a number).
   */
  function Elements(v: Value): (r: Option<seq<Value>>)
    ensures r.None? <==> v.Null? || v.Bool? || v.Int? || v.Float?
    ensures v.List? ==> r == Some(v.items)
    ensures !v.List? && r.Some? ==> forall k :: 0 <= k < |r.value| ==> r.value[k].Str?
  {
    match v
    case List(items) => Some(items)
    case Obj(d) => Some(seq(|d.keys|, k requires 0 <= k < |d.keys| => Str(d.keys[k])))
    case Str(s) => Some(seq(|s|, k requires 0 <= k < |s| => Str([s[k]])))
    case _ => None
  }

  /** `for x in (v or [])`: a falsy value iterates as the empty list. */
  function ElementsOr(v: Value): (r: Option<seq<Value>>)
    ensures !Truthy(v) ==> r == Some([])
    ensures r.None? <==> Truthy(v) && (v.Bool? || v.Int? || v.Float?)
    ensures v.List? ==> r == Some(v.items)
  {
    if Truthy(v) then Elements(v) else Some([])
  }

  /** `[str(x) for x in items]`. */
  function PyStrs(items: seq<Value>): (r: seq<string>)
    ensures |r| == |items|
    ensures forall k :: 0 <= k < |items| ==> r[k] == PyStr(items[k])
  {
    seq(|items|, k requires 0 <= k < |items| => PyStr(items[k]))
  }

  /** `[t.strip() for t in texts if t.strip()]`: the stripped texts, blanks dropped, in order. */
  function CleanTexts(texts: seq<string>): (r: seq<string>)
    ensures |r| <= |texts|
    ensures forall k :: 0 <= k < |r| ==> |r[k]| > 0 && Text.IsStripped(r[k])
    decreases |texts|
  {
    if texts == [] then []
    else
      var rest := CleanTexts(texts[..|texts| - 1]);
      var t := Text.Strip(texts[|texts| - 1]);
      if |t| == 0 then rest else rest + [t]
  }

  /** `float(value)`: `None` where Python raises (`TypeError`, or `ValueError` for an unparsable text). */
  function FloatOf(v: Value, parseFloat: string -> Option<real>): (r: Option<real>)
    ensures v.Int? ==> r == Some(v.i as real)
    ensures v.Float? ==> r == Some(v.r)
    ensures v.Null? || v.List? || v.Obj? ==> r.None?
  {
    match v
    case Null => None
    case Bool(b) => Some(if b then 1.0 else 0.0)
    case Int(i) => Some(i as real)
    case Float(x, _) => Some(x)
    case Str(s) => parseFloat(s)
    case List(_) => None
    case Obj(_) => None
  }

  /** `max(0.0, min(x, 1.0))`. */
  function Clamp(x: real): (r: real)
    ensures 0.0 <= r <= 1.0
    ensures 0.0 <= x <= 1.0 ==> r == x
    ensures x < 0.0 ==> r == 0.0
    ensures x > 1.0 ==> r == 1.0
  {
    var m := if x < 1.0 then x else 1.0;
    if 0.0 < m then m else 0.0
  }

  // ----- properties -----

  /** A non-empty sequence is its front followed by its last element. */
  lemma LastSplit<T>(s: seq<T>)
    requires s != []
    ensures s[..|s| - 1] + [s[|s| - 1]] == s
  {
  }

  /** A text without breaks ends its first line at the given break. */
  lemma {:induction false} LineEndAt(a: string, rest: string)
    requires NoBreak(a)
    requires rest != [] && IsLineBreak(rest[0])
    ensures LineEnd(a + rest) == |a|
  {
    if a != [] {
      assert (a + rest)[1..] == a[1..] + rest;
      LineEndAt(a[1..], rest);
    }
  }

  /** A text without breaks is one line. */
  lemma {:induction false} LineEndNone(a: string)
    requires NoBreak(a)
    ensures LineEnd(a) == |a|
  {
    if a != [] {
      LineEndNone(a[1..]);
    }
  }

  /**
   * Splitting lines joined by "\n" gives them back, provided no line holds
   * a break and the last one is not empty.
   */
  lemma {:induction false} SplitJoin(ls: seq<string>)
    requires ls != [] && ls[|ls| - 1] != []
    requires forall k :: 0 <= k < |ls| ==> NoBreak(ls[k])
    ensures SplitLines(Text.Join(ls, "\n")) == ls
  {
    if |ls| == 1 {
      LineEndNone(ls[0]);
      assert ls[0][..|ls[0]|] == ls[0];
    } else {
      var rest := Text.Join(ls[1..], "\n");
      var s := Text.Join(ls, "\n");
      var i := |ls[0]|;
      assert s == ls[0] + ("\n" + rest);
      LineEndAt(ls[0], "\n" + rest);
      assert s[i] == '\n';
      assert s[..i] == ls[0];
      assert s[i + 1..] == rest;
      SplitJoin(ls[1..]);
      assert SplitLines(s) == [ls[0]] + SplitLines(rest);
      assert ls == [ls[0]] + ls[1..];
    }
  }

  /** Joining one more part adds the separator and the part. */
  lemma {:induction false} JoinSnoc(parts: seq<string>, last: string, sep: string)
    requires parts != []
    ensures Text.Join(parts + [last], sep) == Text.Join(parts, sep) + sep + last
  {
    if |parts| == 1 {
      assert parts + [last] == [parts[0], last];
    } else {
      assert (parts + [last])[1..] == parts[1..] + [last];
      JoinSnoc(parts[1..], last, sep);
    }
  }

  /** The opening "```tag" line, the body and the closing "```" line, as one text. */
  function Fenced(tag: string, body: seq<string>): string {
    Fence + tag + "\n" + Text.Join(body, "\n") + "\n" + Fence
  }

  /** The lines of a fenced text. */
  lemma {:induction false} FencedLines(tag: string, body: seq<string>)
    requires NoBreak(tag)
    requires body != [] && forall k :: 0 <= k < |body| ==> NoBreak(body[k])
    ensures SplitLines(Fenced(tag, body)) == [Fence + tag] + body + [Fence]
  {
    var opener := Fence + tag;
    var ls := [opener] + body + [Fence];
    JoinSnoc([opener] + body, Fence, "\n");
    assert ([opener] + body)[1..] == body;
    assert Text.Join([opener] + body, "\n") == opener + "\n" + Text.Join(body, "\n");
    assert Text.Join(ls, "\n") == Fenced(tag, body);
    forall k | 0 <= k < |ls|
      ensures NoBreak(ls[k])
    {
      if k == 0 {
        assert forall j :: 0 <= j < |opener| ==> opener[j] == if j < 3 then '`' else tag[j - 3];
      } else if k < |ls| - 1 {
        assert ls[k] == body[k - 1];
      }
    }
    SplitJoin(ls);
  }

  /** A fenced text is already stripped and opens with a fence. */
  lemma FencedShape(tag: string, body: seq<string>)
    ensures Text.IsStripped(Fenced(tag, body))
    ensures Text.StartsWith(Fenced(tag, body), Fence)
  {
    var text := Fenced(tag, body);
    assert text[0] == '`' && text[|text| - 1] == '`';
    assert text[..3] == Fence;
  }

  /** A stripped text opening with a fence, whose lines are an opener, a body and a closing fence, gives back the body. */
  lemma StripFencedLines(text: string, opener: string, body: seq<string>)
    requires Text.IsStripped(text) && Text.StartsWith(text, Fence)
    requires SplitLines(text) == [opener] + body + [Fence]
    requires Text.StartsWith(opener, Fence)
    ensures StripCodeFence(text) == Text.Strip(Text.Join(body, "\n"))
  {
    var lines := [opener] + body + [Fence];
    var rest := body + [Fence];
    assert lines[0] == opener;
    assert lines[1..] == rest;
    assert rest[|rest| - 1] == Fence;
    assert Text.IsStripped(Fence);
    assert Text.StartsWith(Fence, Fence);
    assert rest[..|rest| - 1] == body;
  }

  /**
   * Fencing is undone: a body of lines between an opening "```tag" line and
   * a closing "```" line comes back as the stripped body.
   */
  lemma FenceRoundTrip(tag: string, body: seq<string>)
    requires NoBreak(tag)
    requires body != [] && forall k :: 0 <= k < |body| ==> NoBreak(body[k])
    ensures StripCodeFence(Fenced(tag, body)) == Text.Strip(Text.Join(body, "\n"))
  {
    FencedShape(tag, body);
    FencedLines(tag, body);
    Text.StartsWithPrefix(Fence, tag);
    StripFencedLines(Fenced(tag, body), Fence + tag, body);
  }

  /** The block, when there is one, runs from the first "{" to the last "}". */
  lemma ExtractJsonBlockBounds(text: string) returns (start: int, end: int)
    requires ExtractJsonBlock(text).Some?
    ensures 0 <= start < end < |text|
    ensures ExtractJsonBlock(text) == Some(text[start..end + 1])
    ensures forall j :: 0 <= j < start ==> text[j] != '{'
    ensures forall j :: end < j < |text| ==> text[j] != '}'
  {
    start := Text.FindChar(text, '{');
    end := Text.RFindChar(text, '}');
  }

  /**
   * A block is found exactly when some "{" comes before some "}".
   */
  lemma ExtractJsonBlockSpan(text: string)
    ensures ExtractJsonBlock(text).Some?
            <==> exists i, j :: 0 <= i < j < |text| && text[i] == '{' && text[j] == '}'
  {
    var start := Text.FindChar(text, '{');
    var end := Text.RFindChar(text, '}');
    if exists i, j :: 0 <= i < j < |text| && text[i] == '{' && text[j] == '}' {
      var i, j :| 0 <= i < j < |text| && text[i] == '{' && text[j] == '}';
      assert 0 <= start <= i && j <= end;
    }
  }

  /** A JSON object embedded in prose is recovered whole, when the prose before it holds no "{" and the prose after it no "}". */
  lemma ExtractJsonBlockEmbedded(prefix: string, block: string, suffix: string)
    requires 2 <= |block| && block[0] == '{' && block[|block| - 1] == '}'
    requires forall j :: 0 <= j < |prefix| ==> prefix[j] != '{'
    requires forall j :: 0 <= j < |suffix| ==> suffix[j] != '}'
    ensures ExtractJsonBlock(prefix + block + suffix) == Some(block)
  {
    var text := prefix + block + suffix;
    var start := Text.FindChar(text, '{');
    var end := Text.RFindChar(text, '}');
    assert text[|prefix|] == '{';
    assert text[|prefix| + |block| - 1] == '}';
    assert forall j :: 0 <= j < |prefix| ==> text[j] == prefix[j];
    assert forall j :: |prefix| + |block| <= j < |text| ==> text[j] == suffix[j - |prefix| - |block|];
    assert start == |prefix|;
    assert end == |prefix| + |block| - 1;
    assert text[start..end + 1] == block;
  }

  /** Cleaning one more text appends it stripped unless it is blank. */
  lemma CleanTextsSnoc(texts: seq<string>)
    requires texts != []
    ensures var last := Text.Strip(texts[|texts| - 1]);
            CleanTexts(texts) == CleanTexts(texts[..|texts| - 1]) + (if |last| == 0 then [] else [last])
  {
  }

  /** Cleaning a prefix one text longer appends that text stripped unless it is blank. */
  lemma CleanTextsPrefix(texts: seq<string>, i: nat)
    requires i < |texts|
    ensures var t := Text.Strip(texts[i]);
            CleanTexts(texts[..i + 1]) == CleanTexts(texts[..i]) + (if |t| == 0 then [] else [t])
  {
    CleanTextsSnoc(texts[..i + 1]);
    assert texts[..i + 1][..i] == texts[..i];
  }

  /** Every kept text is the stripped form of some input text. */
  lemma {:induction false} CleanTextsSource(texts: seq<string>, j: nat) returns (k: nat)
    requires j < |CleanTexts(texts)|
    ensures k < |texts| && Text.Strip(texts[k]) == CleanTexts(texts)[j]
    decreases |texts|
  {
    var n := |texts| - 1;
    CleanTextsSnoc(texts);
    if j < |CleanTexts(texts[..n])| {
      k := CleanTextsSource(texts[..n], j);
      assert texts[..n][k] == texts[k];
    } else {
      k := n;
    }
  }

  /** Every text that is not blank is kept, stripped. */
  lemma {:induction false} CleanTextsComplete(texts: seq<string>, k: nat) returns (j: nat)
    requires k < |texts| && |Text.Strip(texts[k])| > 0
    ensures j < |CleanTexts(texts)| && CleanTexts(texts)[j] == Text.Strip(texts[k])
    decreases |texts|
  {
    var n := |texts| - 1;
    CleanTextsSnoc(texts);
    var init := CleanTexts(texts[..n]);
    var last := Text.Strip(texts[n]);
    var tail := if |last| == 0 then [] else [last];
    assert CleanTexts(texts) == init + tail;
    if k < n {
      assert texts[..n][k] == texts[k];
      j := CleanTextsComplete(texts[..n], k);
      assert (init + tail)[j] == init[j];
    } else {
      assert k == n && |last| > 0;
      j := |init|;
      assert tail == [last];
    }
  }

  /** Cleaning texts that are already stripped and non-blank gives them back unchanged. */
  lemma {:induction false} CleanTextsOfClean(ts: seq<string>)
    requires forall k :: 0 <= k < |ts| ==> |ts[k]| > 0 && Text.IsStripped(ts[k])
    ensures CleanTexts(ts) == ts
    decreases |ts|
  {
    if ts != [] {
      var n := |ts| - 1;
      CleanTextsOfClean(ts[..n]);
      CleanTextsSnoc(ts);
      assert ts == ts[..n] + [ts[n]];
    }
  }

  /** An "output_text" item makes the reply's `output_text` irrelevant. */
  lemma ExtractTextPrefersItems(output: seq<OutputItem>, k: nat, fallback1: Option<string>, fallback2: Option<string>)
    requires k < |output| && output[k].kind == Some(OutputTextKind)
    ensures ExtractText(ModelResponse(output, fallback1)) == ExtractText(ModelResponse(output, fallback2))
  {
    assert OutputTexts(output) != [];
  }
}
