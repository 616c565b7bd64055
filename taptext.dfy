/** The text helpers of the TAP reporter (packages/@testup/tap-reporter/tap-reporter.js):
    word wrapping and the quoting of YAML-like scalars. Strings are sequences of
    Unicode characters, and lengths count characters. */
module TapText {
  import opened JsValues

  predicate IsLineBreak(c: char) {
    c == '\r' || c == '\n'
  }

  /** The class `\s` of JavaScript regular expressions. */
  predicate IsSpace(c: char) {
    c == ' ' || c == '\t' || c == '\n' || c == '\U{000B}' || c == '\U{000C}' || c == '\r'
    || c == '\U{00A0}' || c == '\U{1680}' || ('\U{2000}' <= c <= '\U{200A}')
    || c == '\U{2028}' || c == '\U{2029}' || c == '\U{202F}' || c == '\U{205F}'
    || c == '\U{3000}' || c == '\U{FEFF}'
  }

  /** The class `\w` of JavaScript regular expressions. */
  predicate IsWordChar(c: char) {
    ('a' <= c <= 'z') || ('A' <= c <= 'Z') || ('0' <= c <= '9') || c == '_'
  }

  predicate HasLineBreak(s: string) {
    exists k :: 0 <= k < |s| && IsLineBreak(s[k])
  }

  /** Where `text.slice(0, end)` stops for a text of length `n`: a
      non-negative `end` keeps that many characters, or the whole text if it
      is shorter; a negative one drops that many from the back, or everything. */
  function SliceEnd(n: nat, end: int): (w: nat)
    ensures w <= n
    ensures end >= 0 ==> w <= end && (w == end || w == n)
    ensures end < 0 ==> n - w <= -end && (n - w == -end || w == 0)
  {
    if end >= 0 then (if end <= n then end else n)
    else if n + end >= 0 then n + end
    else 0
  }

  /** `text.slice(0, end)`. */
  function Slice(text: string, end: int): (r: string)
    ensures |r| == SliceEnd(|text|, end) && r == text[..|r|]
  {
    text[..SliceEnd(|text|, end)]
  }

  /** The first line break in `s[from..end]`, or -1. Both alternatives of
      `/\r|\r?\n/` match exactly one character at a `\r` or `\n` (at a `\r`
      the first one wins), so the first match is the first such character. */
  function BreakIn(s: string, from: nat, end: nat): (k: int)
    requires from <= end <= |s|
    ensures k == -1 || from <= k < end
    decreases end - from
  {
    if from == end then -1
    else if IsLineBreak(s[from]) then from
    else BreakIn(s, from + 1, end)
  }

  lemma {:induction false} BreakInIsFirst(s: string, from: nat, end: nat)
    requires from <= end <= |s|
    ensures BreakIn(s, from, end) < 0 <==> forall j :: from <= j < end ==> !IsLineBreak(s[j])
    ensures BreakIn(s, from, end) >= 0 ==> IsLineBreak(s[BreakIn(s, from, end)])
    ensures forall j :: from <= j < BreakIn(s, from, end) ==> !IsLineBreak(s[j])
    decreases end - from
  {
    if from < end && !IsLineBreak(s[from]) {
      BreakInIsFirst(s, from + 1, end);
    }
  }

  /** Where `/\r|\r?\n/` first matches in `s`, or -1. */
  function FirstBreak(s: string): (k: int)
    ensures -1 <= k < |s|
  {
    BreakIn(s, 0, |s|)
  }

  lemma FirstBreakIsFirst(s: string)
    ensures FirstBreak(s) < 0 <==> !HasLineBreak(s)
    ensures FirstBreak(s) >= 0 ==>
              IsLineBreak(s[FirstBreak(s)]) && forall j :: 0 <= j < FirstBreak(s) ==> !IsLineBreak(s[j])
  {
    BreakInIsFirst(s, 0, |s|);
  }

  /** `r` starts the last whitespace run of `s`: `/\s+(?=\S*$)/` matches at `r`
      and at no earlier index, because no whitespace follows the run. */
  predicate IsLastSpaceRun(s: string, r: int) {
    0 <= r < |s| && IsSpace(s[r]) && (r == 0 || !IsSpace(s[r - 1]))
    && forall j, k :: r <= j < k < |s| && IsSpace(s[k]) ==> IsSpace(s[j])
  }

  /** The start of the whitespace run that ends just before `end`. */
  function RunStart(s: string, end: nat): (r: nat)
    requires 0 < end <= |s| && IsSpace(s[end - 1])
    ensures r < end
  {
    if end == 1 || !IsSpace(s[end - 2]) then end - 1
    else RunStart(s, end - 1)
  }

  lemma {:induction false} RunStartIsRun(s: string, end: nat)
    requires 0 < end <= |s| && IsSpace(s[end - 1])
    ensures var r := RunStart(s, end);
      (r == 0 || !IsSpace(s[r - 1])) && forall k :: r <= k < end ==> IsSpace(s[k])
  {
    if !(end == 1 || !IsSpace(s[end - 2])) {
      RunStartIsRun(s, end - 1);
    }
  }

  /** Where `/\s+(?=\S*$)/` matches in `s[..end]`, or -1. */
  function LastRunBefore(s: string, end: nat): (r: int)
    requires end <= |s|
    ensures -1 <= r < end
  {
    if end == 0 then -1
    else if !IsSpace(s[end - 1]) then LastRunBefore(s, end - 1)
    else RunStart(s, end)
  }

  function LastSpaceRun(s: string): (r: int)
    ensures -1 <= r < |s|
  {
    LastRunBefore(s, |s|)
  }

  lemma {:induction false} LastRunBeforeIsLast(s: string, end: nat)
    requires end <= |s|
    ensures LastRunBefore(s, end) < 0 <==> forall k :: 0 <= k < end ==> !IsSpace(s[k])
    ensures var r := LastRunBefore(s, end);
      r >= 0 ==>
        (IsSpace(s[r]) && (r == 0 || !IsSpace(s[r - 1]))
         && forall j, k :: r <= j < k < end && IsSpace(s[k]) ==> IsSpace(s[j]))
  {
    if end == 0 {
    } else if !IsSpace(s[end - 1]) {
      LastRunBeforeIsLast(s, end - 1);
    } else {
      RunStartIsRun(s, end);
    }
  }

  lemma LastSpaceRunIsLast(s: string)
    ensures LastSpaceRun(s) < 0 <==> forall k :: 0 <= k < |s| ==> !IsSpace(s[k])
    ensures LastSpaceRun(s) >= 0 ==> IsLastSpaceRun(s, LastSpaceRun(s))
  {
    LastRunBeforeIsLast(s, |s|);
  }

  lemma LastSpaceRunUnique(s: string, r: int, q: int)
    requires IsLastSpaceRun(s, r) && IsLastSpaceRun(s, q)
    ensures r == q
  {
  }

  /** `getLine(text, length)`: the next line of the wrapped text. The window is
      `text.slice(0, length)`; every search runs on `text` below the window's end. */
  function GetLine(text: string, length: int): (line: string)
    ensures |line| <= |text| && line == text[..|line|]
    ensures length >= 1 && |text| >= 1 ==> 1 <= |line| <= length
  {
    var w := SliceEnd(|text|, length);
    var rn := BreakIn(text, 0, w);
    if rn >= 0 then text[..rn + 1]
    else if w == length && LastRunBefore(text, w) >= 0 then text[..LastRunBefore(text, w) + 1]
    else text[..w]
  }

  /** A line break within the window ends the line right after the first one; for
      CRLF that is after the `\r`. */
  lemma GetLineCutsAtBreak(text: string, length: int, k: nat)
    requires k < |Slice(text, length)| && IsLineBreak(Slice(text, length)[k])
    requires forall j :: 0 <= j < k ==> !IsLineBreak(Slice(text, length)[j])
    ensures GetLine(text, length) == text[..k + 1]
  {
    BreakInIsFirst(text, 0, SliceEnd(|text|, length));
  }

  /** With no line break, a full window that holds whitespace is cut after the
      first character of its last whitespace run. */
  lemma GetLineCutsAtSpace(text: string, length: int, r: nat)
    requires !HasLineBreak(Slice(text, length)) && |Slice(text, length)| == length
    requires IsLastSpaceRun(Slice(text, length), r)
    ensures GetLine(text, length) == text[..r + 1]
  {
    var window := Slice(text, length);
    var w := SliceEnd(|text|, length);
    BreakInIsFirst(text, 0, w);
    LastRunBeforeIsLast(text, w);
    var space := LastRunBefore(text, w);
    assert space >= 0 by {
      assert IsSpace(window[r]);
    }
    assert IsLastSpaceRun(window, space);
    LastSpaceRunUnique(window, space, r);
  }

  /** Otherwise the whole window is the line. */
  lemma GetLineWholeWindow(text: string, length: int)
    requires !HasLineBreak(Slice(text, length))
    requires |Slice(text, length)| != length
          || forall k :: 0 <= k < length ==> !IsSpace(Slice(text, length)[k])
    ensures GetLine(text, length) == Slice(text, length)
  {
    var w := SliceEnd(|text|, length);
    BreakInIsFirst(text, 0, w);
    LastRunBeforeIsLast(text, w);
  }

  /** The `length` argument of `wordWrap`: a number, or a function of the line index. */
  datatype Length = Fixed(n: int) | PerLine(at: nat -> int)

  function LengthAt(len: Length, i: nat): int {
    match len
    case Fixed(n) => n
    case PerLine(at) => at(i)
  }

  ghost predicate PositiveLengths(len: Length) {
    forall i: nat :: LengthAt(len, i) >= 1
  }

  /** The lines `wordWrap` collects, the first of them taking the length for index `i`. */
  function WrapLines(text: string, len: Length, i: nat): seq<string>
    requires PositiveLengths(len)
    decreases |text|
  {
    if |text| == 0 then []
    else
      var line := GetLine(text, LengthAt(len, i));
      [line] + WrapLines(text[|line|..], len, i + 1)
  }

  /** `lines.map(mapLine)`: JavaScript passes each element with its index. */
  function MapIndexed(lines: seq<string>, mapLine: (string, nat) -> string, i: nat): (r: seq<string>)
    ensures |r| == |lines|
    ensures forall k :: 0 <= k < |lines| ==> r[k] == mapLine(lines[k], i + k)
  {
    if |lines| == 0 then [] else [mapLine(lines[0], i)] + MapIndexed(lines[1..], mapLine, i + 1)
  }

  /** `parts.join(sep)`. */
  function Join(parts: seq<string>, sep: string): string {
    if |parts| == 0 then ""
    else if |parts| == 1 then parts[0]
    else parts[0] + sep + Join(parts[1..], sep)
  }

  function Concat(parts: seq<string>): string {
    if |parts| == 0 then "" else parts[0] + Concat(parts[1..])
  }

  /** What `wordWrap(text, length, map)` returns. */
  function WrapText(text: string, len: Length, mapLine: (string, nat) -> string): string
    requires PositiveLengths(len)
  {
    Join(MapIndexed(WrapLines(text, len, 0), mapLine, 0), "\n")
  }

  /** The wrapped lines, put back together, are the text: nothing is lost or added. */
  lemma {:induction false} WrapLinesConcat(text: string, len: Length, i: nat)
    requires PositiveLengths(len)
    ensures Concat(WrapLines(text, len, i)) == text
    decreases |text|
  {
    if |text| > 0 {
      var line := GetLine(text, LengthAt(len, i));
      WrapLinesConcat(text[|line|..], len, i + 1);
      assert text == line + text[|line|..];
    }
  }

  /** Line `k` is non-empty and no longer than the length for its index. */
  lemma {:induction false} WrapLinesBounded(text: string, len: Length, i: nat, k: nat)
    requires PositiveLengths(len) && k < |WrapLines(text, len, i)|
    ensures 1 <= |WrapLines(text, len, i)[k]| <= LengthAt(len, i + k)
    decreases |text|
  {
    var line := GetLine(text, LengthAt(len, i));
    assert LengthAt(len, i) >= 1;
    if k > 0 {
      WrapLinesBounded(text[|line|..], len, i + 1, k - 1);
    }
  }

  /** One turn of the `wordWrap` loop: cutting the next line off `rest` and adding
      it to the lines so far leaves the overall result unchanged. */
  lemma WrapLinesStep(out: seq<string>, rest: string, len: Length)
    requires PositiveLengths(len) && |rest| > 0
    ensures 1 <= |GetLine(rest, LengthAt(len, |out|))| <= |rest|
    ensures var line := GetLine(rest, LengthAt(len, |out|));
      out + WrapLines(rest, len, |out|) == (out + [line]) + WrapLines(rest[|line|..], len, |out| + 1)
  {
    assert LengthAt(len, |out|) >= 1;
  }

  /** `wordWrap`: a loop that cuts `getLine` off the front of the text until none is left. */
  method WordWrap(text: string, len: Length, mapLine: (string, nat) -> string) returns (r: string)
    requires PositiveLengths(len)
    ensures r == WrapText(text, len, mapLine)
    ensures text == "" ==> r == ""
  {
    var out: seq<string> := [];
    var rest := text;
    ghost var all := WrapLines(text, len, 0);
    while |rest| > 0
      invariant out + WrapLines(rest, len, |out|) == all
      decreases |rest|
    {
      var line := GetLine(rest, LengthAt(len, |out|));
      WrapLinesStep(out, rest, len);
      rest := rest[|line|..];
      out := out + [line];
    }
    assert out + [] == out;
    r := Join(MapIndexed(out, mapLine, 0), "\n");
  }

  /** `isMultiline`: `/\r|\r?\n/` finds a match. */
  function IsMultiline(value: string): (b: bool)
    ensures b <==> HasLineBreak(value)
  {
    FirstBreakIsFirst(value);
    FirstBreak(value) >= 0
  }

  /** `/^(\s|\w)+$/`: one or more characters, each whitespace or a word character. */
  predicate IsPlainWord(value: string) {
    |value| > 0 && forall k :: 0 <= k < |value| ==> IsSpace(value[k]) || IsWordChar(value[k])
  }

  /** `isEscapeable`. */
  predicate IsEscapeable(value: string) {
    !IsPlainWord(value)
  }

  /** `value.replace(/\\/g, '\\\\')`. */
  function DoubleBackslashes(s: string): string {
    if |s| == 0 then ""
    else (if s[0] == '\\' then "\\\\" else [s[0]]) + DoubleBackslashes(s[1..])
  }

  /** `value.replace(/"/g, '\\"')`. */
  function EscapeQuotes(s: string): string {
    if |s| == 0 then ""
    else (if s[0] == '"' then "\\\"" else [s[0]]) + EscapeQuotes(s[1..])
  }

  /** `escape(value)`. */
  function Escape(value: string): string {
    "\"" + EscapeQuotes(DoubleBackslashes(value)) + "\""
  }

  /** Each character's escaped form, independent of the two passes of `escape`. */
  function EscapeChar(c: char): string {
    if c == '\\' then "\\\\" else if c == '"' then "\\\"" else [c]
  }

  function EscapeChars(s: string): string {
    if |s| == 0 then "" else EscapeChar(s[0]) + EscapeChars(s[1..])
  }

  /** Reads an escaped body back: a backslash takes the next character literally. */
  function Unescape(body: string): string
    decreases |body|
  {
    if |body| == 0 then ""
    else if body[0] == '\\' && |body| >= 2 then [body[1]] + Unescape(body[2..])
    else [body[0]] + Unescape(body[1..])
  }

  lemma {:induction false} EscapeQuotesAppend(a: string, b: string)
    ensures EscapeQuotes(a + b) == EscapeQuotes(a) + EscapeQuotes(b)
  {
    if |a| > 0 {
      EscapeQuotesAppend(a[1..], b);
      assert (a + b)[1..] == a[1..] + b;
    } else {
      assert a + b == b;
    }
  }

  /** The two `replace` passes escape each character on its own: the second pass
      never touches what the first one produced. */
  lemma {:induction false} EscapeBodyCharwise(s: string)
    ensures EscapeQuotes(DoubleBackslashes(s)) == EscapeChars(s)
  {
    if |s| > 0 {
      var head := if s[0] == '\\' then "\\\\" else [s[0]];
      EscapeQuotesAppend(head, DoubleBackslashes(s[1..]));
      EscapeBodyCharwise(s[1..]);
    }
  }

  lemma {:induction false} UnescapeEscapeChars(s: string)
    ensures Unescape(EscapeChars(s)) == s
  {
    if |s| > 0 {
      UnescapeEscapeChars(s[1..]);
      var e := EscapeChars(s);
      assert e == EscapeChar(s[0]) + EscapeChars(s[1..]);
      if s[0] == '\\' || s[0] == '"' {
        assert e[2..] == EscapeChars(s[1..]);
      } else {
        assert e[1..] == EscapeChars(s[1..]);
      }
    }
  }

  /** Unescaping the quoted body recovers the value. */
  lemma EscapeRoundTrip(value: string)
    ensures |Escape(value)| >= 2
    ensures Unescape(Escape(value)[1..|Escape(value)| - 1]) == value
  {
    EscapeBodyCharwise(value);
    UnescapeEscapeChars(value);
    var e := Escape(value);
    assert e[1..|e| - 1] == EscapeChars(value);
  }

  /** Distinct values are quoted differently. */
  lemma EscapeInjective(a: string, b: string)
    requires Escape(a) == Escape(b)
    ensures a == b
  {
    EscapeRoundTrip(a);
    EscapeRoundTrip(b);
  }

  lemma {:induction false} EscapeCharsSingleLine(s: string)
    requires !HasLineBreak(s)
    ensures !HasLineBreak(EscapeChars(s))
  {
    if |s| > 0 {
      assert !IsLineBreak(s[0]);
      assert forall k :: 0 <= k < |s| - 1 ==> s[1..][k] == s[k + 1];
      EscapeCharsSingleLine(s[1..]);
      var e := EscapeChars(s);
      var h := EscapeChar(s[0]);
      assert e == h + EscapeChars(s[1..]);
      forall k | 0 <= k < |e| ensures !IsLineBreak(e[k]) {
        if k >= |h| { assert e[k] == EscapeChars(s[1..])[k - |h|]; }
      }
    }
  }

  function Identity(line: string, i: nat): string {
    line
  }

  /** `safeValue(value, indent)` for a string value. A multi-line value is wrapped at
      80 characters with `indent` as the `map` of `wordWrap`: the default (no
      indent) keeps the lines, while a string indent, as `toYamlLike` passes,
      makes `Array.prototype.map` throw a `TypeError`. */
  function SafeValue(value: string, indent: Option<string>): (r: Result<string>)
    ensures !HasLineBreak(value) && IsPlainWord(value) ==> r == Ok(value)
    ensures !HasLineBreak(value) && !IsPlainWord(value) ==> r == Ok(Escape(value))
    ensures HasLineBreak(value) && indent.Some? ==> r == Thrown(TypeError)
    ensures HasLineBreak(value) && indent.None? ==>
              r == Ok(">\n" + WrapText(value, Fixed(80), Identity))
  {
    if IsMultiline(value) then
      if indent.None? then Ok(">\n" + WrapText(value, Fixed(80), Identity)) else Thrown(TypeError)
    else if IsEscapeable(value) then Ok(Escape(value))
    else Ok(value)
  }

  /** How a reader takes a single-line scalar back: a quoted one is unescaped. */
  function ReadScalar(t: string): string {
    if |t| >= 2 && t[0] == '"' then Unescape(t[1..|t| - 1]) else t
  }

  /** A single-line value is rendered on a single line and can be read back. */
  lemma SafeValueSingleLine(value: string, indent: Option<string>)
    requires !HasLineBreak(value)
    ensures SafeValue(value, indent).Ok?
    ensures !HasLineBreak(SafeValue(value, indent).value)
    ensures ReadScalar(SafeValue(value, indent).value) == value
  {
    if IsPlainWord(value) {
      assert IsSpace(value[0]) || IsWordChar(value[0]);
    } else {
      EscapeRoundTrip(value);
      EscapeBodyCharwise(value);
      EscapeCharsSingleLine(value);
      var e := Escape(value);
      assert e == "\"" + EscapeChars(value) + "\"";
      forall k | 0 <= k < |e| ensures !IsLineBreak(e[k]) {
        if 0 < k < |e| - 1 { assert e[k] == EscapeChars(value)[k - 1]; }
      }
    }
  }
}
