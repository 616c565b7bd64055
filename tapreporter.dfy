/** The TAP reporter (`TapReporter`, packages/@testup/tap-reporter/tap-reporter.js):
    the plan line and the summary for the root suite, and one test line per
    case in the format of the Test Anything Protocol version 13. Colouring is
    taken to be off, so every `chalk` call leaves its text as it is; the
    console is the sequence of strings handed to `output`. */
module TapReporter {
  import opened JsValues
  import opened Behaviours
  import opened UnitTree
  import opened TapText
  import opened Decimal

  /** The plan: `Math.min(1, total) + '..' + total`, with the newline the
      reporter adds. */
  function PlanLine(total: nat): string {
    NatToString(if total < 1 then total else 1) + ".." + NatToString(total) + "\n"
  }

  /** The plan announces `1..N` for `N` cases and `0..0` for none, and the
      count after `..` reads back as `N`. */
  lemma PlanLineReadsBack(total: nat)
    ensures var line := PlanLine(total);
      && |line| >= 5 && line[|line| - 1] == '\n' && line[1..3] == ".."
      && line[0] == (if total == 0 then '0' else '1')
      && AllDigits(line[3..|line| - 1]) && DigitsValue(line[3..|line| - 1]) == total
  {
    var line := PlanLine(total);
    var first := NatToString(if total < 1 then total else 1);
    assert first == [DigitChar(if total < 1 then total else 1)];
    assert line[3..|line| - 1] == NatToString(total);
    NatToStringRoundTrip(total);
  }

  /** `unit.label || unit.type`. */
  function LabelOf(u: Unit): string {
    if u.name != "" then u.name else if u.Case? then "case" else "section"
  }

  /** The status of a case: `not ok` when it holds an error, `ok` otherwise. */
  function Status(u: Unit): string
    requires u.Case?
  {
    if Truthy(u.error) then "not ok" else "ok"
  }

  /** `${status} ${index} - ${label}`. */
  function TestLine(u: Unit): string
    requires u.Case?
  {
    Status(u) + " " + NatToString(u.index) + " - " + LabelOf(u)
  }

  /** A test line starts with `not ok` exactly when the case holds an error. */
  lemma TestLineStatus(u: Unit)
    requires u.Case?
    ensures |TestLine(u)| > 6 && (TestLine(u)[..6] == "not ok" <==> Truthy(u.error))
  {
    if !Truthy(u.error) {
      assert TestLine(u)[0] == 'o';
    }
  }

  /** After the status and a space come the digits of the case's index, which
      read back as the index, then ` - ` and the label. */
  lemma TestLineIndex(u: Unit)
    requires u.Case?
    ensures var line := TestLine(u);
      var k := |Status(u)| + 1;
      var d := NatToString(u.index);
      && |line| == k + |d| + 3 + |LabelOf(u)|
      && line[k..k + |d|] == d && AllDigits(d) && DigitsValue(d) == u.index
      && line[k + |d|..k + |d| + 3] == " - " && line[k + |d| + 3..] == LabelOf(u)
  {
    var d := NatToString(u.index);
    var head := Status(u) + " ";
    assert TestLine(u) == head + d + " - " + LabelOf(u);
    NatToStringRoundTrip(u.index);
  }

  /** `lineLength(i)`: the first line gets the whole width, the others two
      columns less for their indent. */
  function LineLengths(width: int): Length {
    PerLine(i => if i > 0 then width - 2 else width)
  }

  lemma LineLengthsPositive(width: int)
    requires width >= 3
    ensures PositiveLengths(LineLengths(width))
  {
    forall i: nat ensures LengthAt(LineLengths(width), i) >= 1 {
    }
  }

  /** `prefixLine(line, i)`: continuation lines are indented by two spaces. */
  function Indent(line: string, i: nat): string {
    if i > 0 then "  " + line else line
  }

  /** `'# ' + unit.path.join(' :: ')`: the comment naming the case's suites. */
  function PathComment(units: seq<Unit>, i: nat): string {
    "# " + Join(Path(units, i), " :: ")
  }

  /** Below suite `s`, the cases among the first `n` units that never
      completed. */
  ghost function Unfinished(units: seq<Unit>, s: nat, n: nat): nat
    decreases n
  {
    if n == 0 then 0
    else Unfinished(units, s, n - 1)
         + (if n - 1 < |units| && s in Parents(units, n - 1) && units[n - 1].Case? && !units[n - 1].isCompleted
            then 1 else 0)
  }

  /** Every case is passed, failed or unfinished. */
  lemma {:induction false} CountsPartition(units: seq<Unit>, s: nat, n: nat)
    ensures Counts(units, s, n, Total) == Counts(units, s, n, Passed) + Counts(units, s, n, Failed) + Unfinished(units, s, n)
    decreases n
  {
    if n > 0 {
      CountsPartition(units, s, n - 1);
    }
  }

  /** The `fail` of the summary, `total - passed`, counts the failed cases
      and also every case that never completed, such as one whose modifiers
      returned without calling `next`. */
  lemma FailCountsUnfinished(units: seq<Unit>, lists: seq<seq<Arg>>, s: nat)
    requires WellFormed(units, lists) && s < |units| && units[s].Suite?
    ensures units[s].total - units[s].passed == units[s].failed + Unfinished(units, s, |units|)
  {
    assert Counter(units[s], Total) == Counts(units, s, |units|, Total);
    assert Counter(units[s], Passed) == Counts(units, s, |units|, Passed);
    assert Counter(units[s], Failed) == Counts(units, s, |units|, Failed);
    CountsPartition(units, s, |units|);
  }

  /** A case that never completed is printed as `ok`, yet the summary of
      every suite above it counts it under `fail`. */
  lemma UnfinishedCaseReportedOk(units: seq<Unit>, lists: seq<seq<Arg>>, c: nat, s: nat)
    requires WellFormed(units, lists) && c < |units| && units[c].Case? && !units[c].isCompleted
    requires s in Parents(units, c)
    ensures Status(units[c]) == "ok"
    ensures s < |units| && units[s].Suite? && units[s].total - units[s].passed > units[s].failed
  {
    ParentsAreSuites(units, lists, c);
    UnfinishedCounts(units, s, c, |units|);
    FailCountsUnfinished(units, lists, s);
  }

  lemma {:induction false} UnfinishedCounts(units: seq<Unit>, s: nat, c: nat, n: nat)
    requires c < n <= |units| && s in Parents(units, c) && units[c].Case? && !units[c].isCompleted
    ensures Unfinished(units, s, n) >= 1
    decreases n
  {
    if n - 1 != c {
      UnfinishedCounts(units, s, c, n - 1);
    }
  }

  /** `toYamlLike({message: error.message, location: error.location})` for a
      thrown `Error`: its `location` is undefined and skipped, and the
      `message:` key is padded to the length of `location`. The value goes
      through `safeValue` with the indent `'  '`. */
  function MessageBlock(message: string): Result<string> {
    match SafeValue(message, Some("  "))
    case Ok(v) => Ok("message:  " + v)
    case Thrown(e) => Thrown(e)
  }

  /** A message with a line break makes the block throw a TypeError; any
      other message gives one line that reads back as the message. */
  lemma MessageBlockReadsBack(message: string)
    ensures MessageBlock(message).Thrown? <==> HasLineBreak(message)
    ensures MessageBlock(message).Thrown? ==> MessageBlock(message).error == TypeError
    ensures var r := MessageBlock(message);
      r.Ok? ==> && |r.value| >= 10 && r.value[..10] == "message:  "
                && !HasLineBreak(r.value) && ReadScalar(r.value[10..]) == message
  {
    if !HasLineBreak(message) {
      SafeValueSingleLine(message, Some("  "));
      var v := SafeValue(message, Some("  ")).value;
      var line := "message:  " + v;
      assert line[10..] == v;
      forall k | 0 <= k < |line| ensures !IsLineBreak(line[k]) {
        if k >= 10 { assert line[k] == v[k - 10]; }
      }
    }
  }

  /** The YAML-like block `endCase` prints after the test line of a case that
      failed with an `Error`, wrapped at `width` with no indent. A thrown
      primitive has no `message` or `location` and leaves the block empty. A
      `TypeError` or an `OtherObject` carries no message here, so no block is
      built for it either. */
  function YamlBlock(error: Value, width: int): (r: seq<string>)
    requires width >= 1
    ensures !error.Error? ==> r == []
  {
    if error.Error? && !HasLineBreak(error.message) then
      assert PositiveLengths(Fixed(width)) by {
        forall i: nat ensures LengthAt(Fixed(width), i) >= 1 { }
      }
      [WrapText("---\n" + MessageBlock(error.message).value + "\n...", Fixed(width), Identity)]
    else []
  }

  /** The strings `endCase` hands to the output for a case whose block
      does not throw: the wrapped path comment, the wrapped test line and, for
      an `Error`, the wrapped block. */
  method CaseLines(units: seq<Unit>, i: nat, lineLength: int) returns (lines: seq<string>)
    requires i < |units| && units[i].Case? && lineLength >= 3
    requires !(units[i].error.Error? && HasLineBreak(units[i].error.message))
    ensures PositiveLengths(LineLengths(lineLength))
    ensures lines == [WrapText(PathComment(units, i), LineLengths(lineLength), Indent),
                      WrapText(TestLine(units[i]), LineLengths(lineLength), Indent)]
                   + YamlBlock(units[i].error, lineLength)
  {
    var u := units[i];
    var status := if Truthy(u.error) then "not ok" else "ok";
    var name := if u.name != "" then u.name else "case";
    LineLengthsPositive(lineLength);
    var parent := WordWrap("# " + Join(Path(units, i), " :: "), LineLengths(lineLength), Indent);
    assert parent == WrapText(PathComment(units, i), LineLengths(lineLength), Indent);
    assert status + " " + NatToString(u.index) + " - " + name == TestLine(u);
    var line := WordWrap(status + " " + NatToString(u.index) + " - " + name, LineLengths(lineLength), Indent);
    lines := [parent, line];
    if u.error.Error? {
      MessageBlockReadsBack(u.error.message);
      assert PositiveLengths(Fixed(lineLength)) by {
        forall k: nat ensures LengthAt(Fixed(lineLength), k) >= 1 { }
      }
      var yaml := WordWrap("---\n" + MessageBlock(u.error.message).value + "\n...", Fixed(lineLength), Identity);
      assert [yaml] == YamlBlock(u.error, lineLength);
      lines := lines + [yaml];
    }
  }

  class Reporter {
    /** `this.lineLength`, the width test lines are wrapped at. */
    const lineLength: int
    /** Everything handed to `this.output` so far, one string per call. */
    var output: seq<string>

    /** `new TapReporter({lineLength})`. Test lines are wrapped with two
      columns less after the first line, so a width under 3 would leave
      `wordWrap` cutting empty lines forever. */
    constructor (width: int)
      requires width >= 3
      ensures lineLength == width && output == []
    {
      lineLength := width;
      output := [];
    }

    /** `startSuite`: for the root only, the version line and the plan. */
    method StartSuite(units: seq<Unit>, s: nat)
      requires s < |units| && units[s].Suite?
      modifies this
      ensures units[s].parent.Some? ==> output == old(output)
      ensures units[s].parent.None? ==> output == old(output) + ["TAP version 13", PlanLine(units[s].total)]
    {
      if units[s].parent.Some? {
        return;
      }
      var total := units[s].total;
      output := output + ["TAP version 13"];
      output := output + [NatToString(if total < 1 then total else 1) + ".." + NatToString(total) + "\n"];
    }

    /** `endSuite`: for the root only, a blank line and the counts, with
      `fail` as `total - passed`. */
    method EndSuite(units: seq<Unit>, s: nat)
      requires s < |units| && units[s].Suite?
      modifies this
      ensures units[s].parent.Some? ==> output == old(output)
      ensures units[s].parent.None? ==>
                output == old(output) + ["", "# test: " + NatToString(units[s].total), "# pass: " + NatToString(units[s].passed),
                                         "# fail: " + IntToString(units[s].total - units[s].passed)]
    {
      if units[s].parent.Some? {
        return;
      }
      var total := units[s].total;
      var passed := units[s].passed;
      var fail := total as int - passed as int;
      output := output + [""];
      output := output + ["# test: " + NatToString(total)];
      output := output + ["# pass: " + NatToString(passed)];
      output := output + ["# fail: " + IntToString(fail)];
    }

    /** `endCase`: for a case, the comment with its path and then its test
      line, each wrapped at `lineLength` with continuation lines indented,
      and for a case that failed with an `Error` the block with its message;
      a suite, which never holds an error, prints nothing. The block is built
      before anything is printed, so a message with a line break makes the
      call throw with nothing printed. */
    method EndCase(units: seq<Unit>, i: nat) returns (r: Result<()>)
      requires i < |units| && lineLength >= 3
      modifies this
      ensures units[i].Suite? ==> r == Ok(()) && output == old(output)
      ensures units[i].Case? && units[i].error.Error? && HasLineBreak(units[i].error.message) ==>
                r == Thrown(TypeError) && output == old(output)
      ensures units[i].Case? && !(units[i].error.Error? && HasLineBreak(units[i].error.message)) ==>
                && r == Ok(())
                && PositiveLengths(LineLengths(lineLength))
                && output == old(output) + [WrapText(PathComment(units, i), LineLengths(lineLength), Indent),
                                            WrapText(TestLine(units[i]), LineLengths(lineLength), Indent)]
                                         + YamlBlock(units[i].error, lineLength)
    {
      if units[i].Suite? {
        return Ok(());
      }
      var u := units[i];
      if u.error.Error? {
        var block := MessageBlock(u.error.message);
        MessageBlockReadsBack(u.error.message);
        if block.Thrown? {
          return Thrown(block.error);
        }
      }
      var lines := CaseLines(units, i, lineLength);
      output := output + lines;
      r := Ok(());
    }
  }
}
