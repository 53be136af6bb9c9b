/** The `DataQualityChecker` object: each check updates the flags and the issue list it
    holds, `run_all_checks` starts both afresh, and `generate_report` renders a full run. */
module Checker {
  import opened Wrappers
  import opened Text
  import opened Series
  import opened Frames
  import opened QualityCheck
  import opened Report

  class DataQualityChecker {
    const nullThreshold: real
    const requiredColumns: seq<string>
    var checksPassed: seq<(string, bool)>
    var issues: seq<Issue>

    /** `required_columns or [...]`: an empty list (or none) selects the default columns. */
    constructor (nullThreshold: real, requiredColumns: seq<string>)
      ensures this.nullThreshold == nullThreshold
      ensures this.requiredColumns == if requiredColumns == [] then DefaultRequiredColumns else requiredColumns
      ensures checksPassed == [] && issues == []
    {
      this.nullThreshold := nullThreshold;
      this.requiredColumns := if requiredColumns == [] then DefaultRequiredColumns else requiredColumns;
      checksPassed := [];
      issues := [];
    }

    method CheckSchema(f: Frame) returns (passed: bool)
      modifies this
      ensures var v := SchemaVerdict(f, requiredColumns);
        passed == v.passed && issues == old(issues) + v.found
        && checksPassed == DictPut(old(checksPassed), "schema", passed)
    {
      var missing := Missing(requiredColumns, Names(f));
      if missing != [] {
        issues := issues + [MissingColumns(missing)];
        checksPassed := DictPut(checksPassed, "schema", false);
        return false;
      }
      checksPassed := DictPut(checksPassed, "schema", true);
      return true;
    }

    method CheckNullValues(f: Frame) returns (passed: bool)
      modifies this
      ensures var v := NullVerdict(f, nullThreshold);
        passed == v.passed && issues == old(issues) + v.found
        && checksPassed == DictPut(old(checksPassed), "null_values", passed)
    {
      var percentage := NullPercentage(f);
      if percentage.Some? && percentage.value > nullThreshold * 100.0 {
        issues := issues + [NullsExceed(percentage.value, nullThreshold * 100.0)];
        checksPassed := DictPut(checksPassed, "null_values", false);
        return false;
      }
      checksPassed := DictPut(checksPassed, "null_values", true);
      return true;
    }

    method CheckDataTypes(f: Frame) returns (passed: bool)
      modifies this
      ensures var v := DataTypesVerdict(f);
        passed == v.passed && issues == old(issues) + v.found
        && checksPassed == DictPut(old(checksPassed), "data_types", passed)
    {
      var i := 0;
      while i < |NumericColumns|
        invariant 0 <= i <= |NumericColumns|
        invariant FirstNonNumeric(f, NumericColumns[i..]) == FirstNonNumeric(f, NumericColumns)
        invariant issues == old(issues) && checksPassed == old(checksPassed)
      {
        var col := NumericColumns[i];
        if col in Names(f) {
          if Lookup(f, col).value.dtype == NonNumeric {
            issues := issues + [NotNumeric(col)];
            checksPassed := DictPut(checksPassed, "data_types", false);
            return false;
          }
        }
        assert NumericColumns[i..][1..] == NumericColumns[i + 1..];
        i := i + 1;
      }
      checksPassed := DictPut(checksPassed, "data_types", true);
      return true;
    }

    /** The three parts of the range check run in order, each appending its issues;
        the check passes when none of them found any. */
    method CheckValueRanges(f: Frame) returns (passed: bool)
      modifies this
      ensures var v := ValueRangesVerdict(f);
        passed == v.passed && issues == old(issues) + v.found
        && checksPassed == DictPut(old(checksPassed), "value_ranges", passed)
    {
      var pricesFound := CheckPrices(f, PriceColumns);
      var volumeFound := CheckVolume(f);
      var rangesFound := CheckHighLow(f);
      var issuesFound := pricesFound || volumeFound || rangesFound;
      RangeIssuesJoined(old(issues), PriceIssues(f, PriceColumns), VolumeIssue(f), RangeIssue(f));
      ValueRangesParts(f);
      checksPassed := DictPut(checksPassed, "value_ranges", !issuesFound);
      return !issuesFound;
    }

    /** The loop over the price columns: a count of negative values for each one present. */
    method CheckPrices(f: Frame, priceCols: seq<string>) returns (issuesFound: bool)
      modifies this
      ensures issues == old(issues) + PriceIssues(f, priceCols)
      ensures issuesFound <==> PriceIssues(f, priceCols) != []
      ensures checksPassed == old(checksPassed)
    {
      issuesFound := false;
      var i := 0;
      while i < |priceCols|
        invariant 0 <= i <= |priceCols|
        invariant issues == old(issues) + PriceIssues(f, priceCols[..i])
        invariant issuesFound <==> PriceIssues(f, priceCols[..i]) != []
        invariant checksPassed == old(checksPassed)
      {
        var col := priceCols[i];
        var found := CheckPriceColumn(f, col);
        issuesFound := issuesFound || found;
        PriceIssuesSnoc(f, priceCols, i);
        Associative(old(issues), PriceIssues(f, priceCols[..i]), PriceIssue(f, col));
        i := i + 1;
      }
      assert priceCols[..i] == priceCols;
    }

    /** One step of that loop: the negative values of one price column, if present. */
    method CheckPriceColumn(f: Frame, col: string) returns (issuesFound: bool)
      modifies this
      ensures issues == old(issues) + PriceIssue(f, col)
      ensures issuesFound <==> PriceIssue(f, col) != []
      ensures checksPassed == old(checksPassed)
    {
      issuesFound := false;
      if col in Names(f) {
        var negativeCount := CountNegative(Get(f, col));
        if negativeCount > 0 {
          issues := issues + [NegativePrices(col, negativeCount)];
          issuesFound := true;
        }
      }
    }

    /** Negative volumes, when the frame has a volume column. */
    method CheckVolume(f: Frame) returns (issuesFound: bool)
      modifies this
      ensures issues == old(issues) + VolumeIssue(f)
      ensures issuesFound <==> VolumeIssue(f) != []
      ensures checksPassed == old(checksPassed)
    {
      issuesFound := false;
      if "volume" in Names(f) {
        var negativeVolume := CountNegative(Get(f, "volume"));
        if negativeVolume > 0 {
          issues := issues + [NegativeVolume(negativeVolume)];
          issuesFound := true;
        }
      }
    }

    /** Rows whose high is below their low, when the frame has both columns. */
    method CheckHighLow(f: Frame) returns (issuesFound: bool)
      modifies this
      ensures issues == old(issues) + RangeIssue(f)
      ensures issuesFound <==> RangeIssue(f) != []
      ensures checksPassed == old(checksPassed)
    {
      issuesFound := false;
      if "high" in Names(f) && "low" in Names(f) {
        var invalidRanges := InvertedCount(f);
        if invalidRanges > 0 {
          issues := issues + [HighBelowLow(invalidRanges)];
          issuesFound := true;
        }
      }
    }

    method CheckTemporalConsistency(f: Frame) returns (passed: bool)
      modifies this
      ensures var v := TemporalVerdict(f);
        passed == v.passed && issues == old(issues) + v.found
        && checksPassed == DictPut(old(checksPassed), "temporal", passed)
    {
      if !f.index.DatetimeIndex? {
        issues := issues + [IndexNotDatetime];
        checksPassed := DictPut(checksPassed, "temporal", false);
        return false;
      }
      var stamps := Instants(f.index.stamps);
      var duplicates := DuplicateCount(stamps);
      if duplicates > 0 {
        issues := issues + [DuplicateTimestamps(duplicates)];
        checksPassed := DictPut(checksPassed, "temporal", false);
        return false;
      }
      if !NonDecreasing(stamps) {
        issues := issues + [NotChronological];
        checksPassed := DictPut(checksPassed, "temporal", false);
        return false;
      }
      checksPassed := DictPut(checksPassed, "temporal", true);
      return true;
    }

    method CheckSufficientData(f: Frame, minRows: int) returns (passed: bool)
      modifies this
      ensures var v := SufficientVerdict(f, minRows);
        passed == v.passed && issues == old(issues) + v.found
        && checksPassed == DictPut(old(checksPassed), "sufficient_data", passed)
    {
      if Rows(f) < minRows {
        issues := issues + [InsufficientData(Rows(f), minRows)];
        checksPassed := DictPut(checksPassed, "sufficient_data", false);
        return false;
      }
      checksPassed := DictPut(checksPassed, "sufficient_data", true);
      return true;
    }

    /** Clears both lists, runs the six checks without stopping at a failure, and
        returns their conjunction with the flags and issues. The result depends on the
        frame and the configuration only, so a second run on the same frame repeats it. */
    method RunAllChecks(f: Frame, minRows: int) returns (allPassed: bool, checks: seq<(string, bool)>, found: seq<Issue>)
      modifies this
      ensures QualityReport(allPassed, checks, found) == RunAll(f, nullThreshold, requiredColumns, minRows)
      ensures checksPassed == checks && issues == found
    {
      checksPassed := [];
      issues := [];
      var s := CheckSchema(f);
      assert issues == SchemaVerdict(f, requiredColumns).found;
      var n := CheckNullValues(f);
      var d := CheckDataTypes(f);
      var v := CheckValueRanges(f);
      var t := CheckTemporalConsistency(f);
      var q := CheckSufficientData(f, minRows);
      assert checksPassed == Flags(s, n, d, v, t, q);
      FlagsInOrder(s, n, d, v, t, q);
      allPassed := AllValues(checksPassed);
      checks := checksPassed;
      found := issues;
    }

    /** `generate_report`, with the clock reading it prints passed in as `generated`:
        a full run at the default minimum of rows, then its rendering. */
    method GenerateReport(f: Frame, generated: string) returns (report: string)
      modifies this
      ensures var r := RunAll(f, nullThreshold, requiredColumns, DefaultMinRows);
        report == ReportText(generated, f, r) && checksPassed == r.checks && issues == r.issues
    {
      var allPassed, checks, found := RunAllChecks(f, DefaultMinRows);
      report := Render(generated, Rows(f), Width(f), checks, Messages(found), allPassed);
    }
  }
}
