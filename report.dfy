/** The text of `generate_report`: a banner, one line per check, the numbered issues (or
    a line saying there are none) and the overall status. The timestamp it prints is the
    parameter `generated`. */
module Report {
  import opened Text
  import opened Frames
  import opened QualityCheck

  /** `str` of a set of column names, `{'a', 'b'}`, its members listed in the given order. */
  function SetDisplay(names: seq<string>): string
  {
    "{" + Join(seq(|names|, i requires 0 <= i < |names| => "'" + names[i] + "'"), ", ") + "}"
  }

  /** The message a check appends for an issue. */
  function IssueText(i: Issue): string
  {
    match i
    case MissingColumns(cols) => "Missing required columns: " + SetDisplay(cols)
    case NullsExceed(p, t) => "Null values (" + Fixed2(p) + "%) exceed threshold (" + Fixed2(t) + "%)"
    case NotNumeric(c) => "Column '" + c + "' is not numeric type"
    case NegativePrices(c, n) => "Found " + NatToString(n) + " negative values in '" + c + "'"
    case NegativeVolume(n) => "Found " + NatToString(n) + " negative volume values"
    case HighBelowLow(n) => "Found " + NatToString(n) + " rows where high < low"
    case IndexNotDatetime => "Index is not a DatetimeIndex"
    case DuplicateTimestamps(n) => "Found " + NatToString(n) + " duplicate timestamps"
    case NotChronological => "Data is not sorted chronologically"
    case InsufficientData(rows, m) => "Insufficient data: " + NatToString(rows) + " rows (minimum: " + IntToString(m) + ")"
  }

  /** Every counting message starts `Found <count> `: the count can be read back from the
      text, and the digits are followed by a space. */
  lemma IssueTextQuotesCount(i: Issue)
    requires i.NegativePrices? || i.NegativeVolume? || i.HighBelowLow? || i.DuplicateTimestamps?
    ensures var t, d := IssueText(i), NatToString(i.count);
      |t| > 6 + |d| && t[..6] == "Found " && t[6..6 + |d|] == d
      && DigitsValue(t[6..6 + |d|]) == i.count && t[6 + |d|] == ' '
  {
    var d := NatToString(i.count);
    var rest := if i.NegativePrices? then " negative values in '" + i.column + "'"
      else if i.NegativeVolume? then " negative volume values"
      else if i.HighBelowLow? then " rows where high < low"
      else " duplicate timestamps";
    assert IssueText(i) == "Found " + d + rest;
    FoundCount(d, rest);
    NatToStringRoundTrip(i.count);
  }

  lemma FoundCount(d: string, rest: string)
    requires |rest| > 0 && rest[0] == ' '
    ensures var t := "Found " + d + rest;
      |t| > 6 + |d| && t[..6] == "Found " && t[6..6 + |d|] == d && t[6 + |d|] == ' '
  {
    var t := "Found " + d + rest;
    assert t[6..6 + |d|] == d;
  }

  /** The issue list as `self.issues` holds it: one message per issue, in order. */
  function Messages(issues: seq<Issue>): (ms: seq<string>)
    ensures |ms| == |issues|
  {
    seq(|issues|, k requires 0 <= k < |issues| => IssueText(issues[k]))
  }

  function Status(passed: bool): string
  {
    if passed then "✓ PASSED" else "✗ FAILED"
  }

  function CheckLine(name: string, passed: bool): string
  {
    "  " + Upper(name) + ": " + Status(passed) + "\n"
  }

  lemma SchemaHeadings()
    ensures Upper("schema") == "SCHEMA" && Upper("null_values") == "NULL_VALUES"
  {
    forall i | 0 <= i < 6 ensures Upper("schema")[i] == "SCHEMA"[i] { }
    forall i | 0 <= i < 11 ensures Upper("null_values")[i] == "NULL_VALUES"[i] { }
  }

  lemma TypeHeadings()
    ensures Upper("data_types") == "DATA_TYPES" && Upper("value_ranges") == "VALUE_RANGES"
  {
    forall i | 0 <= i < 10 ensures Upper("data_types")[i] == "DATA_TYPES"[i] { }
    forall i | 0 <= i < 12 ensures Upper("value_ranges")[i] == "VALUE_RANGES"[i] { }
  }

  lemma TimeHeadings()
    ensures Upper("temporal") == "TEMPORAL" && Upper("sufficient_data") == "SUFFICIENT_DATA"
  {
    forall i | 0 <= i < 8 ensures Upper("temporal")[i] == "TEMPORAL"[i] { }
    forall i | 0 <= i < 15 ensures Upper("sufficient_data")[i] == "SUFFICIENT_DATA"[i] { }
  }

  /** The six checks are headed SCHEMA, NULL_VALUES, DATA_TYPES, VALUE_RANGES, TEMPORAL
      and SUFFICIENT_DATA in the report. */
  lemma CheckHeadings()
    ensures |CheckNames| == 6
    ensures Upper(CheckNames[0]) == "SCHEMA" && Upper(CheckNames[1]) == "NULL_VALUES"
    ensures Upper(CheckNames[2]) == "DATA_TYPES" && Upper(CheckNames[3]) == "VALUE_RANGES"
    ensures Upper(CheckNames[4]) == "TEMPORAL" && Upper(CheckNames[5]) == "SUFFICIENT_DATA"
  {
    SchemaHeadings();
    TypeHeadings();
    TimeHeadings();
  }

  /** The lines of the check section, one per entry of `checks`, in its order. */
  function CheckLines(checks: seq<(string, bool)>): string
  {
    if checks == [] then ""
    else CheckLines(checks[..|checks| - 1]) + CheckLine(checks[|checks| - 1].0, checks[|checks| - 1].1)
  }

  function IssueLine(k: nat, message: string): string
  {
    "  " + NatToString(k) + ". " + message + "\n"
  }

  /** The issue lines, numbered from 1. */
  function IssueLines(messages: seq<string>): string
  {
    if messages == [] then ""
    else IssueLines(messages[..|messages| - 1]) + IssueLine(|messages|, messages[|messages| - 1])
  }

  const NoIssues: string := "\n✓ No issues found!\n"

  function IssuesSection(messages: seq<string>): string
  {
    if messages != [] then "\nISSUES FOUND (" + NatToString(|messages|) + "):\n" + IssueLines(messages) else NoIssues
  }

  const Banner: string := "\nDATA QUALITY REPORT\n"

  /** The lines before the check results; `(rows, width)` is `df.shape`. */
  function Header(generated: string, rows: nat, width: nat): string
  {
    Banner + "==================\nGenerated: " + generated
    + "\nDataset Shape: (" + NatToString(rows) + ", " + NatToString(width) + ")\n\nCHECK RESULTS:\n"
  }

  function Footer(allPassed: bool): string
  {
    "\nOVERALL STATUS: " + (if allPassed then "PASSED" else "FAILED") + "\n" + Repeat('=', 50) + "\n"
  }

  /** The report for a frame of shape `(rows, width)`, its check flags, its issue
      messages and its overall flag. */
  function Layout(generated: string, rows: nat, width: nat, checks: seq<(string, bool)>, messages: seq<string>, allPassed: bool): string
  {
    Header(generated, rows, width) + CheckLines(checks) + IssuesSection(messages) + Footer(allPassed)
  }

  /** The report `generate_report` returns for a run `r` of the checks on `f`. */
  function ReportText(generated: string, f: Frame, r: QualityReport): string
  {
    Layout(generated, Rows(f), Width(f), r.checks, Messages(r.issues), r.allPassed)
  }

  /** The report built as `generate_report` builds it: the header, then a line appended per
      check, then the issue lines or the no-issue line, then the status and the rule. */
  method Render(generated: string, rows: nat, width: nat, checks: seq<(string, bool)>, messages: seq<string>, allPassed: bool)
    returns (report: string)
    ensures report == Layout(generated, rows, width, checks, messages, allPassed)
  {
    report := Header(generated, rows, width);
    ghost var header := report;
    var i := 0;
    while i < |checks|
      invariant 0 <= i <= |checks|
      invariant report == header + CheckLines(checks[..i])
    {
      var (check, passed) := checks[i];
      CheckLinesSnoc(checks, i);
      Associative(header, CheckLines(checks[..i]), CheckLine(check, passed));
      report := report + CheckLine(check, passed);
      i := i + 1;
    }
    assert checks[..i] == checks;
    ghost var body := report;
    if messages != [] {
      var opening := "\nISSUES FOUND (" + NatToString(|messages|) + "):\n";
      report := report + opening;
      var k := 0;
      while k < |messages|
        invariant 0 <= k <= |messages|
        invariant report == body + opening + IssueLines(messages[..k])
      {
        IssueLinesSnoc(messages, k);
        Associative(body + opening, IssueLines(messages[..k]), IssueLine(k + 1, messages[k]));
        report := report + IssueLine(k + 1, messages[k]);
        k := k + 1;
      }
      assert messages[..k] == messages;
      Associative(body, opening, IssueLines(messages));
    } else {
      report := report + NoIssues;
    }
    report := report + Footer(allPassed);
  }

  lemma CheckLinesSnoc(checks: seq<(string, bool)>, i: nat)
    requires i < |checks|
    ensures CheckLines(checks[..i + 1]) == CheckLines(checks[..i]) + CheckLine(checks[i].0, checks[i].1)
  {
    assert checks[..i + 1][..i] == checks[..i];
  }

  lemma IssueLinesSnoc(messages: seq<string>, k: nat)
    requires k < |messages|
    ensures IssueLines(messages[..k + 1]) == IssueLines(messages[..k]) + IssueLine(k + 1, messages[k])
  {
    assert messages[..k + 1][..k] == messages[..k];
  }

  // ---------------------------------------------------------------- the layout

  /** The strings of `lines`, one after another. */
  function Concat(lines: seq<string>): string
  {
    if lines == [] then "" else Concat(lines[..|lines| - 1]) + lines[|lines| - 1]
  }

  /** The check section holds the line of each entry, in order. */
  lemma {:induction false} CheckLinesEach(checks: seq<(string, bool)>)
    ensures CheckLines(checks) == Concat(seq(|checks|, k requires 0 <= k < |checks| => CheckLine(checks[k].0, checks[k].1)))
  {
    if checks != [] {
      var init := checks[..|checks| - 1];
      CheckLinesEach(init);
      var lines := seq(|checks|, k requires 0 <= k < |checks| => CheckLine(checks[k].0, checks[k].1));
      assert lines[..|lines| - 1] == seq(|init|, k requires 0 <= k < |init| => CheckLine(init[k].0, init[k].1));
    }
  }

  /** The issue section numbers the issues 1, 2, ... in their order. */
  lemma {:induction false} IssueLinesNumbered(messages: seq<string>)
    ensures IssueLines(messages) == Concat(seq(|messages|, k requires 0 <= k < |messages| => IssueLine(k + 1, messages[k])))
  {
    if messages != [] {
      var init := messages[..|messages| - 1];
      IssueLinesNumbered(init);
      var lines := seq(|messages|, k requires 0 <= k < |messages| => IssueLine(k + 1, messages[k]));
      assert lines[..|lines| - 1] == seq(|init|, k requires 0 <= k < |init| => IssueLine(k + 1, init[k]));
    }
  }

  /** The section says "No issues found!" exactly when there are no issues. */
  lemma IssuesSectionEmpty(messages: seq<string>)
    ensures IssuesSection(messages) == NoIssues <==> messages == []
  {
    if messages != [] {
      var opening := "\nISSUES FOUND (" + NatToString(|messages|) + "):\n";
      OpeningDiffers(opening, IssueLines(messages));
    }
  }

  lemma OpeningDiffers(opening: string, lines: string)
    requires |opening| > 1 && opening[1] == 'I'
    ensures opening + lines != NoIssues
  {
    assert (opening + lines)[1] == 'I';
  }

  lemma PrefixOf(a: string, b: string)
    ensures |a| <= |a + b| && (a + b)[..|a|] == a
  {
  }

  lemma PrefixKept(p: string, a: string, b: string)
    requires |p| <= |a| && a[..|p|] == p
    ensures |p| <= |a + b| && (a + b)[..|p|] == p
  {
    assert (a + b)[..|p|] == a[..|p|];
  }

  /** Every report opens with the banner. */
  lemma LayoutBanner(generated: string, rows: nat, width: nat, checks: seq<(string, bool)>, messages: seq<string>, allPassed: bool)
    ensures var s := Layout(generated, rows, width, checks, messages, allPassed);
      |Banner| <= |s| && s[..|Banner|] == Banner
  {
    var h := Header(generated, rows, width);
    var c, i := CheckLines(checks), IssuesSection(messages);
    PrefixOf(Banner, h[|Banner|..]);
    assert h == Banner + h[|Banner|..];
    PrefixKept(Banner, h, c);
    PrefixKept(Banner, h + c, i);
    PrefixKept(Banner, h + c + i, Footer(allPassed));
  }

  predicate EndsWith(s: string, suffix: string)
  {
    |suffix| <= |s| && s[|s| - |suffix|..] == suffix
  }

  lemma SuffixOf(a: string, b: string)
    ensures EndsWith(a + b, b)
  {
    assert (a + b)[|a + b| - |b|..] == b;
  }

  lemma FootersDiffer()
    ensures |Footer(true)| == |Footer(false)| && Footer(true) != Footer(false)
  {
    assert Footer(false)[17] != Footer(true)[17];
  }

  /** Every report ends with `OVERALL STATUS: PASSED` and the rule exactly when its
      overall flag is set. */
  lemma LayoutStatus(generated: string, rows: nat, width: nat, checks: seq<(string, bool)>, messages: seq<string>, allPassed: bool)
    ensures EndsWith(Layout(generated, rows, width, checks, messages, allPassed), Footer(true)) <==> allPassed
  {
    var body := Header(generated, rows, width) + CheckLines(checks) + IssuesSection(messages);
    SuffixOf(body, Footer(allPassed));
    FootersDiffer();
  }

  /** For a full run on `f`, the report lists the six checks in running order, each flag
      set exactly when the frame meets that check's condition, the messages of the issues
      in the order they were found, and the overall flag set exactly when the frame is
      acceptable to every check. */
  lemma ReportOfRun(generated: string, f: Frame, threshold: real, required: seq<string>, minRows: int)
    ensures var r := RunAll(f, threshold, required, minRows);
      ReportText(generated, f, r)
      == Layout(generated, Rows(f), Width(f),
                [("schema", SchemaOk(f, required)), ("null_values", NullsOk(f, threshold)),
                 ("data_types", TypesOk(f)), ("value_ranges", RangesOk(f)),
                 ("temporal", TemporalOk(f)), ("sufficient_data", SufficientOk(f, minRows))],
                Messages(r.issues), Acceptable(f, threshold, required, minRows))
  {
    RunAllFlags(f, threshold, required, minRows);
    RunAllPassed(f, threshold, required, minRows);
  }
}
