/** `DataQualityChecker`: six independent checks of a raw OHLCV frame, each recording a
    pass/fail flag and its issues in the checker's state, and a text report of a full run. */
module QualityCheck {
  import opened Wrappers
  import opened Text
  import opened Series
  import opened Frames

  const DefaultNullThreshold: real := 0.01
  const DefaultRequiredColumns: seq<string> := ["open", "high", "low", "close", "volume"]
  const NumericColumns: seq<string> := ["open", "high", "low", "close", "volume"]
  const PriceColumns: seq<string> := ["open", "high", "low", "close"]
  const DefaultMinRows: int := 100

  /** The keys of `checks_passed`, in the order `run_all_checks` inserts them. */
  const CheckNames: seq<string> := ["schema", "null_values", "data_types", "value_ranges", "temporal", "sufficient_data"]

  /** One entry of the issue list, with the figures its message quotes. */
  datatype Issue =
    | MissingColumns(columns: seq<string>)
    | NullsExceed(percentage: real, thresholdPercentage: real)
    | NotNumeric(column: string)
    | NegativePrices(column: string, count: nat)
    | NegativeVolume(count: nat)
    | HighBelowLow(count: nat)
    | IndexNotDatetime
    | DuplicateTimestamps(count: nat)
    | NotChronological
    | InsufficientData(rows: nat, minRows: int)

  /** The position in `CheckNames` of the check that reports an issue. */
  function CheckOf(i: Issue): nat
  {
    match i
    case MissingColumns(_) => 0
    case NullsExceed(_, _) => 1
    case NotNumeric(_) => 2
    case NegativePrices(_, _) => 3
    case NegativeVolume(_) => 3
    case HighBelowLow(_) => 3
    case IndexNotDatetime => 4
    case DuplicateTimestamps(_) => 4
    case NotChronological => 4
    case InsufficientData(_, _) => 5
  }

  /** What one check decides about a frame: its flag and the issues it appends. */
  datatype Verdict = Verdict(passed: bool, found: seq<Issue>)

  // ---------------------------------------------------------------- check_schema

  /** `set(required) - set(present)`, listed in the order of `required`. */
  function Missing(required: seq<string>, present: seq<string>): (m: seq<string>)
    ensures forall c :: c in m <==> c in required && c !in present
    ensures Distinct(m)
  {
    if required == [] then []
    else
      var init := required[..|required| - 1];
      var c := required[|required| - 1];
      var rest := Missing(init, present);
      assert forall x :: x in required <==> x in init || x == c;
      if c !in present && c !in rest then rest + [c] else rest
  }

  predicate SchemaOk(f: Frame, required: seq<string>)
  {
    forall c :: c in required ==> c in Names(f)
  }

  function SchemaVerdict(f: Frame, required: seq<string>): (v: Verdict)
    ensures AllOf(v.found, 0) && |v.found| <= 1
    ensures v.passed <==> v.found == []
  {
    var m := Missing(required, Names(f));
    if m != [] then Verdict(false, [MissingColumns(m)]) else Verdict(true, [])
  }

  /** The schema check passes exactly when every required column is present. */
  lemma SchemaPassed(f: Frame, required: seq<string>)
    ensures SchemaVerdict(f, required).passed <==> SchemaOk(f, required)
  {
    var m := Missing(required, Names(f));
    if m != [] { assert m[0] in m; }
  }

  /** A failed schema check reports one issue listing exactly the required columns that
      are absent. */
  lemma SchemaIssue(f: Frame, required: seq<string>)
    ensures var v := SchemaVerdict(f, required);
      !v.passed ==> (v.found[0].MissingColumns?
        && forall c :: c in v.found[0].columns <==> c in required && c !in Names(f))
  {
  }

  // ---------------------------------------------------------------- check_null_values

  function CountMissing(s: Col): (n: nat)
    ensures n <= |s|
  {
    if s == [] then 0 else CountMissing(s[..|s| - 1]) + (if s[|s| - 1].None? then 1 else 0)
  }

  function NullCountOf(cols: seq<Column>): nat
  {
    if cols == [] then 0 else CountMissing(cols[0].values) + NullCountOf(cols[1..])
  }

  /** `df.isnull().sum().sum()`: the NaN cells of every column, required or not. */
  function NullCount(f: Frame): nat
  {
    NullCountOf(f.columns)
  }

  /** `df.shape[0] * df.shape[1]` */
  function Cells(f: Frame): nat
  {
    Rows(f) * Width(f)
  }

  /** `null_count / total_cells * 100`; on a frame without cells pandas computes 0/0,
      which is NaN, represented here as `None`. */
  function NullPercentage(f: Frame): Option<real>
  {
    if Cells(f) == 0 then None else Some(NullCount(f) as real / Cells(f) as real * 100.0)
  }

  /** The null ratio stays within the threshold; a frame without cells always does. */
  predicate NullsOk(f: Frame, threshold: real)
  {
    Cells(f) == 0 || NullCount(f) as real <= threshold * Cells(f) as real
  }

  lemma PercentageAbove(n: real, c: real, threshold: real)
    ensures c > 0.0 ==> (n / c * 100.0 > threshold * 100.0 <==> n > threshold * c)
  {
    if c > 0.0 {
      var q := n / c;
      assert n == q * c;
      if q > threshold {
        assert q * c > threshold * c;
      } else {
        assert q * c <= threshold * c;
      }
    }
  }

  function NullVerdict(f: Frame, threshold: real): (v: Verdict)
    ensures AllOf(v.found, 1) && |v.found| <= 1
    ensures v.passed <==> v.found == []
  {
    var p := NullPercentage(f);
    if p.Some? && p.value > threshold * 100.0 then Verdict(false, [NullsExceed(p.value, threshold * 100.0)])
    else Verdict(true, [])
  }

  /** The null check fails exactly when the frame has cells and more than the threshold
      fraction of them are NaN. */
  lemma NullPassed(f: Frame, threshold: real)
    ensures NullVerdict(f, threshold).passed <==> NullsOk(f, threshold)
  {
    PercentageAbove(NullCount(f) as real, Cells(f) as real, threshold);
  }

  /** A failed null check quotes the NaN percentage of a frame with cells, and the
      threshold as a percentage. */
  lemma NullIssue(f: Frame, threshold: real)
    ensures var v := NullVerdict(f, threshold);
      !v.passed ==> Cells(f) > 0 && v.found == [NullsExceed(NullPercentage(f).value, threshold * 100.0)]
  {
  }

  // ---------------------------------------------------------------- check_data_types

  /** The frame has column `c` and its dtype is not numeric. */
  predicate NonNumericPresent(f: Frame, c: string)
  {
    var col := Lookup(f, c);
    col.Some? && col.value.dtype == NonNumeric
  }

  predicate TypesOk(f: Frame)
  {
    forall c :: c in NumericColumns ==> !NonNumericPresent(f, c)
  }

  /** The first of `cols` that is present and not numeric. */
  function FirstNonNumeric(f: Frame, cols: seq<string>): (r: Option<string>)
    ensures r.Some? ==> r.value in cols
  {
    if cols == [] then None
    else if NonNumericPresent(f, cols[0]) then Some(cols[0])
    else FirstNonNumeric(f, cols[1..])
  }

  /** No column is found exactly when no column of `cols` is present and not numeric. */
  lemma {:induction false} FirstNonNumericNone(f: Frame, cols: seq<string>)
    ensures FirstNonNumeric(f, cols).None? <==> forall c :: c in cols ==> !NonNumericPresent(f, c)
  {
    if cols != [] && !NonNumericPresent(f, cols[0]) {
      FirstNonNumericNone(f, cols[1..]);
      assert forall c :: c in cols <==> c == cols[0] || c in cols[1..];
    }
  }

  /** The column found is the first of `cols` that is present and not numeric. */
  lemma {:induction false} FirstNonNumericFirst(f: Frame, cols: seq<string>)
    ensures var r := FirstNonNumeric(f, cols);
      r.Some? ==> exists k :: (0 <= k < |cols| && cols[k] == r.value && NonNumericPresent(f, cols[k])
        && forall j :: 0 <= j < k ==> !NonNumericPresent(f, cols[j]))
  {
    if cols != [] && !NonNumericPresent(f, cols[0]) {
      var r := FirstNonNumeric(f, cols[1..]);
      FirstNonNumericFirst(f, cols[1..]);
      if r.Some? {
        var k :| 0 <= k < |cols[1..]| && cols[1..][k] == r.value && NonNumericPresent(f, cols[1..][k])
          && forall j :: 0 <= j < k ==> !NonNumericPresent(f, cols[1..][j]);
        assert cols[k + 1] == r.value && forall j :: 0 <= j < k + 1 ==> !NonNumericPresent(f, cols[j]);
      }
    }
  }

  function DataTypesVerdict(f: Frame): (v: Verdict)
    ensures AllOf(v.found, 2) && |v.found| <= 1
    ensures v.passed <==> v.found == []
  {
    var r := FirstNonNumeric(f, NumericColumns);
    if r.Some? then Verdict(false, [NotNumeric(r.value)]) else Verdict(true, [])
  }

  /** The type check passes exactly when no expected column is present with a
      non-numeric dtype. */
  lemma DataTypesPassed(f: Frame)
    ensures DataTypesVerdict(f).passed <==> TypesOk(f)
  {
    FirstNonNumericNone(f, NumericColumns);
  }

  /** A failed type check names the first expected column that is present and not
      numeric. */
  lemma DataTypesIssue(f: Frame)
    ensures var v := DataTypesVerdict(f);
      !v.passed ==> exists k :: (0 <= k < |NumericColumns| && v.found == [NotNumeric(NumericColumns[k])]
        && NonNumericPresent(f, NumericColumns[k]) && forall j :: 0 <= j < k ==> !NonNumericPresent(f, NumericColumns[j]))
  {
    FirstNonNumericFirst(f, NumericColumns);
  }

  // ---------------------------------------------------------------- check_value_ranges

  /** Some value of `s` is negative (NaN is not). */
  predicate HasNegative(s: Col)
  {
    exists t :: 0 <= t < |s| && s[t].Some? && s[t].value < 0.0
  }

  /** `(s < 0).sum()` */
  function CountNegative(s: Col): (n: nat)
    ensures n <= |s|
  {
    if s == [] then 0
    else CountNegative(s[..|s| - 1]) + (if s[|s| - 1].Some? && s[|s| - 1].value < 0.0 then 1 else 0)
  }

  /** The count is positive exactly when some value is negative. */
  lemma {:induction false} CountNegativePositive(s: Col)
    ensures CountNegative(s) > 0 <==> HasNegative(s)
  {
    if s != [] {
      var init := s[..|s| - 1];
      CountNegativePositive(init);
      if HasNegative(init) {
        var t :| 0 <= t < |init| && init[t].Some? && init[t].value < 0.0;
        assert s[t] == init[t];
      }
      if HasNegative(s) {
        var t :| 0 <= t < |s| && s[t].Some? && s[t].value < 0.0;
        if t < |s| - 1 { assert init[t] == s[t]; }
      }
    }
  }

  /** Row `t` has both a high and a low and the high is below the low. */
  predicate Inverted(high: Col, low: Col, t: nat)
    requires t < |high|
  {
    high[t].Some? && At(low, t).Some? && high[t].value < At(low, t).value
  }

  predicate HasInverted(high: Col, low: Col)
  {
    exists t :: 0 <= t < |high| && Inverted(high, low, t)
  }

  /** `(df['high'] < df['low']).sum()` over the first `n` rows. */
  function CountInverted(high: Col, low: Col, n: nat): (k: nat)
    requires n <= |high|
    ensures k <= n
  {
    if n == 0 then 0 else CountInverted(high, low, n - 1) + (if Inverted(high, low, n - 1) then 1 else 0)
  }

  lemma {:induction false} CountInvertedPositive(high: Col, low: Col, n: nat)
    requires n <= |high|
    ensures CountInverted(high, low, n) > 0 <==> exists t :: 0 <= t < n && Inverted(high, low, t)
  {
    if n > 0 {
      CountInvertedPositive(high, low, n - 1);
    }
  }

  /** The issue for one price column, in the loop over `PriceColumns`. */
  function PriceIssue(f: Frame, col: string): (r: seq<Issue>)
    ensures AllOf(r, 3) && |r| <= 1
  {
    var n := CountNegative(Get(f, col));
    if col in Names(f) && n > 0 then [NegativePrices(col, n)] else []
  }

  function PriceIssues(f: Frame, cols: seq<string>): (r: seq<Issue>)
    ensures AllOf(r, 3)
    ensures |r| <= |cols|
  {
    if cols == [] then []
    else PriceIssues(f, cols[..|cols| - 1]) + PriceIssue(f, cols[|cols| - 1])
  }

  lemma PriceIssuesSnoc(f: Frame, cols: seq<string>, i: nat)
    requires i < |cols|
    ensures PriceIssues(f, cols[..i + 1]) == PriceIssues(f, cols[..i]) + PriceIssue(f, cols[i])
    ensures PriceIssues(f, cols[..i + 1]) != [] <==> PriceIssues(f, cols[..i]) != [] || PriceIssue(f, cols[i]) != []
  {
    assert cols[..i + 1][..i] == cols[..i];
  }

  /** Each price issue names a column of `cols` and a positive count. */
  lemma {:induction false} PriceIssuesNamed(f: Frame, cols: seq<string>)
    ensures forall i :: 0 <= i < |PriceIssues(f, cols)| ==>
      PriceIssues(f, cols)[i].NegativePrices? && PriceIssues(f, cols)[i].column in cols && PriceIssues(f, cols)[i].count > 0
  {
    if cols != [] {
      var init, last := cols[..|cols| - 1], cols[|cols| - 1];
      PriceIssuesNamed(f, init);
      var a: seq<Issue>, b: seq<Issue> := PriceIssues(f, init), PriceIssue(f, last);
      forall i | 0 <= i < |a + b| ensures (a + b)[i].NegativePrices? && (a + b)[i].column in cols && (a + b)[i].count > 0 {
        if i < |a| { assert (a + b)[i] == a[i] && a[i].column in init; } else { assert (a + b)[i] == b[0]; }
      }
    }
  }

  lemma PriceIssueEmpty(f: Frame, col: string)
    ensures PriceIssue(f, col) == [] <==> (col in Names(f) ==> !HasNegative(Get(f, col)))
  {
    CountNegativePositive(Get(f, col));
  }

  lemma {:induction false} PriceIssuesEmpty(f: Frame, cols: seq<string>)
    ensures PriceIssues(f, cols) == [] <==> forall c :: c in cols ==> (c in Names(f) ==> !HasNegative(Get(f, c)))
  {
    if cols != [] {
      var init := cols[..|cols| - 1];
      assert forall c :: c in cols <==> c in init || c == cols[|cols| - 1];
      PriceIssuesEmpty(f, init);
      PriceIssueEmpty(f, cols[|cols| - 1]);
    }
  }

  function VolumeIssue(f: Frame): (r: seq<Issue>)
    ensures AllOf(r, 3)
    ensures |r| <= 1
  {
    var n := CountNegative(Get(f, "volume"));
    if "volume" in Names(f) && n > 0 then [NegativeVolume(n)] else []
  }

  lemma VolumeIssueEmpty(f: Frame)
    ensures VolumeIssue(f) == [] <==> ("volume" in Names(f) ==> !HasNegative(Get(f, "volume")))
  {
    CountNegativePositive(Get(f, "volume"));
  }

  function InvertedCount(f: Frame): (n: nat)
    ensures n <= |Get(f, "high")|
  {
    CountInverted(Get(f, "high"), Get(f, "low"), |Get(f, "high")|)
  }

  function RangeIssue(f: Frame): (r: seq<Issue>)
    ensures AllOf(r, 3)
    ensures |r| <= 1
  {
    var n := InvertedCount(f);
    if "high" in Names(f) && "low" in Names(f) && n > 0 then [HighBelowLow(n)] else []
  }

  lemma RangeIssueEmpty(f: Frame)
    ensures RangeIssue(f) == [] <==> ("high" in Names(f) && "low" in Names(f) ==> !HasInverted(Get(f, "high"), Get(f, "low")))
  {
    CountInvertedPositive(Get(f, "high"), Get(f, "low"), |Get(f, "high")|);
  }

  predicate PricesNonNegative(f: Frame)
  {
    forall c :: c in PriceColumns ==> (c in Names(f) ==> !HasNegative(Get(f, c)))
  }

  predicate VolumeNonNegative(f: Frame)
  {
    "volume" in Names(f) ==> !HasNegative(Get(f, "volume"))
  }

  predicate HighAtLeastLow(f: Frame)
  {
    "high" in Names(f) && "low" in Names(f) ==> !HasInverted(Get(f, "high"), Get(f, "low"))
  }

  /** No present price or volume is negative, and no row has its high below its low. */
  predicate RangesOk(f: Frame)
  {
    PricesNonNegative(f) && VolumeNonNegative(f) && HighAtLeastLow(f)
  }

  function ValueRangesVerdict(f: Frame): (v: Verdict)
    ensures AllOf(v.found, 3) && |v.found| <= 6
    ensures v.passed <==> v.found == []
  {
    var p, u, h := PriceIssues(f, PriceColumns), VolumeIssue(f), RangeIssue(f);
    JoinParts(p, u, h);
    Verdict(p == [] && u == [] && h == [], p + u + h)
  }

  /** The range check passes exactly when no present price or volume is negative and no
      row has its high below its low. */
  lemma ValueRangesPassed(f: Frame)
    ensures ValueRangesVerdict(f).passed <==> RangesOk(f)
  {
    PriceIssuesEmpty(f, PriceColumns);
    VolumeIssueEmpty(f);
    RangeIssueEmpty(f);
  }

  lemma RangeIssuesJoined(before: seq<Issue>, p: seq<Issue>, u: seq<Issue>, h: seq<Issue>)
    ensures before + p + u + h == before + (p + u + h)
  {
  }

  lemma ValueRangesParts(f: Frame)
    ensures ValueRangesVerdict(f) == Verdict(PriceIssues(f, PriceColumns) == [] && VolumeIssue(f) == [] && RangeIssue(f) == [],
      PriceIssues(f, PriceColumns) + VolumeIssue(f) + RangeIssue(f))
  {
  }

  /** The price loop visits `open`, `high`, `low` and `close`, in that order. */
  lemma PriceIssuesInOrder(f: Frame)
    ensures PriceIssues(f, PriceColumns) == PriceIssue(f, "open") + PriceIssue(f, "high") + PriceIssue(f, "low") + PriceIssue(f, "close")
  {
    PriceIssuesOfFour(f, PriceColumns);
  }

  /** The price issues of four columns, unfolded. */
  lemma PriceIssuesOfFour(f: Frame, cols: seq<string>)
    requires |cols| == 4
    ensures PriceIssues(f, cols) == PriceIssue(f, cols[0]) + PriceIssue(f, cols[1]) + PriceIssue(f, cols[2]) + PriceIssue(f, cols[3])
  {
    PriceIssuesSnoc(f, cols, 0);
    PriceIssuesSnoc(f, cols, 1);
    PriceIssuesSnoc(f, cols, 2);
    PriceIssuesSnoc(f, cols, 3);
    assert cols[..0] == [] && cols[..4] == cols;
    JoinFour(PriceIssues(f, cols[..0]), PriceIssues(f, cols[..1]), PriceIssues(f, cols[..2]), PriceIssues(f, cols[..3]), PriceIssues(f, cols),
      PriceIssue(f, cols[0]), PriceIssue(f, cols[1]), PriceIssue(f, cols[2]), PriceIssue(f, cols[3]));
  }

  /** Four appends to an empty list give the four parts joined. */
  lemma JoinFour(q0: seq<Issue>, q1: seq<Issue>, q2: seq<Issue>, q3: seq<Issue>, q4: seq<Issue>,
                 i0: seq<Issue>, i1: seq<Issue>, i2: seq<Issue>, i3: seq<Issue>)
    requires q0 == [] && q1 == q0 + i0 && q2 == q1 + i1 && q3 == q2 + i2 && q4 == q3 + i3
    ensures q4 == i0 + i1 + i2 + i3
  {
    assert q1 == i0;
  }

  /** Where each kind of issue sits in a list of price, volume and high/low issues. */
  lemma RangePartsPlaced(p: seq<Issue>, u: seq<Issue>, h: seq<Issue>)
    requires forall i :: 0 <= i < |p| ==> p[i].NegativePrices?
    requires u == [] || (|u| == 1 && u[0].NegativeVolume?)
    requires h == [] || (|h| == 1 && h[0].HighBelowLow?)
    ensures var found := p + u + h;
      (forall i :: 0 <= i < |p| ==> found[i] == p[i]) &&
      (u != [] <==> |p| < |found| && found[|p|].NegativeVolume?) &&
      (h != [] <==> found != [] && found[|found| - 1].HighBelowLow?)
  {
    var found := p + u + h;
    forall i | 0 <= i < |p| ensures found[i] == p[i] {
      assert (p + u + h)[i] == p[i];
    }
    if u != [] {
      assert found[|p|] == u[0];
    } else if |p| < |found| {
      assert found[|p|] == h[0];
    }
    if h != [] {
      assert found[|found| - 1] == h[0];
    } else if u != [] {
      assert found[|found| - 1] == u[0];
    } else if found != [] {
      assert found[|found| - 1] == p[|p| - 1];
    }
  }

  /** The four price columns are checked in turn (`open`, `high`, `low`, `close`), then
      the volume, then the high/low order, and every sub-check runs whatever the earlier
      ones found. Each price issue names its column and a positive count, the volume
      issue follows them, and the high/low issue comes last. */
  lemma ValueRangesOrder(f: Frame)
    ensures var found, p := ValueRangesVerdict(f).found, PriceIssues(f, PriceColumns);
      found == PriceIssue(f, "open") + PriceIssue(f, "high") + PriceIssue(f, "low") + PriceIssue(f, "close") + VolumeIssue(f) + RangeIssue(f) &&
      |p| <= |found| &&
      (forall i :: 0 <= i < |p| ==> found[i].NegativePrices? && found[i].column in PriceColumns && found[i].count > 0) &&
      (VolumeIssue(f) != [] <==> |p| < |found| && found[|p|].NegativeVolume?) &&
      (RangeIssue(f) != [] <==> found != [] && found[|found| - 1].HighBelowLow?)
  {
    var p, u, h := PriceIssues(f, PriceColumns), VolumeIssue(f), RangeIssue(f);
    ValueRangesParts(f);
    assert ValueRangesVerdict(f).found == p + u + h;
    PriceIssuesInOrder(f);
    PriceIssuesNamed(f, PriceColumns);
    RangePartsPlaced(p, u, h);
  }

  /** Three lists of issues of check 3, joined. */
  lemma JoinParts(p: seq<Issue>, u: seq<Issue>, h: seq<Issue>)
    requires AllOf(p, 3) && AllOf(u, 3) && AllOf(h, 3)
    ensures p + u + h == [] <==> p == [] && u == [] && h == []
    ensures |p + u + h| == |p| + |u| + |h|
    ensures AllOf(p + u + h, 3)
  {
    AllOfAppend(p, u, 3);
    AllOfAppend(p + u, h, 3);
  }

  /** Every issue of `xs` comes from check `k`. */
  predicate AllOf(xs: seq<Issue>, k: nat)
  {
    forall i :: 0 <= i < |xs| ==> CheckOf(xs[i]) == k
  }

  lemma AllOfAppend(a: seq<Issue>, b: seq<Issue>, k: nat)
    requires AllOf(a, k) && AllOf(b, k)
    ensures AllOf(a + b, k)
  {
    forall i | 0 <= i < |a + b| ensures CheckOf((a + b)[i]) == k {
      if i >= |a| { assert (a + b)[i] == b[i - |a|]; }
    }
  }

  // ---------------------------------------------------------------- check_temporal_consistency

  function Instants(stamps: seq<Stamp>): (s: seq<int>)
    ensures |s| == |stamps|
    ensures forall i :: 0 <= i < |stamps| ==> s[i] == stamps[i].instant
  {
    seq(|stamps|, i requires 0 <= i < |stamps| => stamps[i].instant)
  }

  /** `index.duplicated().sum()`: entries equal to an earlier one. */
  function DuplicateCount(s: seq<int>): nat
  {
    if s == [] then 0 else DuplicateCount(s[..|s| - 1]) + (if s[|s| - 1] in s[..|s| - 1] then 1 else 0)
  }

  /** `index.is_monotonic_increasing`: each entry is at least the one before. */
  predicate NonDecreasing(s: seq<int>)
  {
    forall i :: 0 < i < |s| ==> s[i - 1] <= s[i]
  }

  predicate StrictlyIncreasing(s: seq<int>)
  {
    forall i, j :: 0 <= i < j < |s| ==> s[i] < s[j]
  }

  lemma {:induction false} DuplicateCountZero(s: seq<int>)
    ensures DuplicateCount(s) == 0 <==> Distinct(s)
  {
    if s != [] {
      var init := s[..|s| - 1];
      DuplicateCountZero(init);
      if Distinct(s) {
        assert Distinct(init) by {
          forall i, j | 0 <= i < j < |init| ensures init[i] != init[j] { assert init[i] == s[i] && init[j] == s[j]; }
        }
        assert s[|s| - 1] !in init by {
          forall i | 0 <= i < |init| ensures init[i] != s[|s| - 1] { assert init[i] == s[i]; }
        }
      }
      if DuplicateCount(s) == 0 {
        forall i, j | 0 <= i < j < |s| ensures s[i] != s[j] {
          if j < |s| - 1 { assert init[i] == s[i] && init[j] == s[j]; }
          else { assert s[i] == init[i]; }
        }
      }
    }
  }

  /** A sorted index without repeats is strictly increasing, and conversely. */
  lemma {:induction false} SortedDistinctIsStrict(s: seq<int>)
    ensures NonDecreasing(s) && Distinct(s) <==> StrictlyIncreasing(s)
  {
    if NonDecreasing(s) && Distinct(s) {
      forall i, j | 0 <= i < j < |s| ensures s[i] < s[j] {
        NonDecreasingSpan(s, i, j);
      }
    }
  }

  lemma {:induction false} NonDecreasingSpan(s: seq<int>, i: nat, j: nat)
    requires NonDecreasing(s) && Distinct(s) && i < j < |s|
    ensures s[i] < s[j]
  {
    if i + 1 < j { NonDecreasingSpan(s, i, j - 1); }
  }

  predicate TemporalOk(f: Frame)
  {
    f.index.DatetimeIndex? && StrictlyIncreasing(Instants(f.index.stamps))
  }

  function TemporalVerdict(f: Frame): (v: Verdict)
    ensures AllOf(v.found, 4) && |v.found| <= 1
    ensures v.passed <==> v.found == []
  {
    if !f.index.DatetimeIndex? then Verdict(false, [IndexNotDatetime])
    else
      var s := Instants(f.index.stamps);
      if DuplicateCount(s) > 0 then Verdict(false, [DuplicateTimestamps(DuplicateCount(s))])
      else if !NonDecreasing(s) then Verdict(false, [NotChronological])
      else Verdict(true, [])
  }

  /** The temporal check passes exactly when the index is a DatetimeIndex whose instants
      strictly increase. */
  lemma TemporalPassed(f: Frame)
    ensures TemporalVerdict(f).passed <==> TemporalOk(f)
  {
    if f.index.DatetimeIndex? {
      var s := Instants(f.index.stamps);
      DuplicateCountZero(s);
      SortedDistinctIsStrict(s);
    }
  }

  /** A failed temporal check reports the first problem: a non-datetime index, then
      repeated timestamps (with their count), then an unsorted index. */
  lemma TemporalIssue(f: Frame)
    ensures var v := TemporalVerdict(f);
      (!f.index.DatetimeIndex? ==> v.found == [IndexNotDatetime])
      && (f.index.DatetimeIndex? && !Distinct(Instants(f.index.stamps)) ==>
        v.found == [DuplicateTimestamps(DuplicateCount(Instants(f.index.stamps)))] && DuplicateCount(Instants(f.index.stamps)) > 0)
      && (f.index.DatetimeIndex? && Distinct(Instants(f.index.stamps)) && !NonDecreasing(Instants(f.index.stamps)) ==>
        v.found == [NotChronological])
  {
    if f.index.DatetimeIndex? {
      DuplicateCountZero(Instants(f.index.stamps));
    }
  }

  // ---------------------------------------------------------------- check_sufficient_data

  predicate SufficientOk(f: Frame, minRows: int)
  {
    Rows(f) >= minRows
  }

  function SufficientVerdict(f: Frame, minRows: int): (v: Verdict)
    ensures AllOf(v.found, 5) && |v.found| <= 1
    ensures v.passed <==> v.found == []
    ensures v.passed <==> SufficientOk(f, minRows)
  {
    if Rows(f) < minRows then Verdict(false, [InsufficientData(Rows(f), minRows)]) else Verdict(true, [])
  }

  // ---------------------------------------------------------------- the flags, an insertion-ordered dict

  function DictKeys(d: seq<(string, bool)>): (ks: seq<string>)
    ensures |ks| == |d|
    ensures forall i :: 0 <= i < |d| ==> ks[i] == d[i].0
  {
    if d == [] then [] else [d[0].0] + DictKeys(d[1..])
  }

  function DictGet(d: seq<(string, bool)>, k: string): (r: Option<bool>)
    ensures r.Some? <==> k in DictKeys(d)
  {
    if d == [] then None else if d[0].0 == k then Some(d[0].1) else DictGet(d[1..], k)
  }

  /** `d[k] = v`: an existing key keeps its place, a new one goes last. */
  function DictPut(d: seq<(string, bool)>, k: string, v: bool): seq<(string, bool)>
  {
    if d == [] then [(k, v)]
    else if d[0].0 == k then [(k, v)] + d[1..]
    else [d[0]] + DictPut(d[1..], k, v)
  }

  /** After `d[k] = v` the keys keep their order, with `k` last if it is new. */
  lemma {:induction false} DictPutKeys(d: seq<(string, bool)>, k: string, v: bool)
    ensures DictKeys(DictPut(d, k, v)) == if k in DictKeys(d) then DictKeys(d) else DictKeys(d) + [k]
  {
    if d != [] && d[0].0 != k {
      DictPutKeys(d[1..], k, v);
      assert DictKeys(d) == [d[0].0] + DictKeys(d[1..]);
    }
  }

  /** After `d[k] = v`, `k` maps to `v` and every other key keeps its value. */
  lemma {:induction false} DictPutGet(d: seq<(string, bool)>, k: string, v: bool)
    ensures DictGet(DictPut(d, k, v), k) == Some(v)
    ensures forall k' :: k' != k ==> DictGet(DictPut(d, k, v), k') == DictGet(d, k')
  {
    if d != [] && d[0].0 != k {
      DictPutGet(d[1..], k, v);
    }
  }

  /** `all(d.values())` */
  function AllValues(d: seq<(string, bool)>): (b: bool)
    ensures b <==> forall i :: 0 <= i < |d| ==> d[i].1
  {
    if d == [] then true else d[0].1 && AllValues(d[1..])
  }

  // ---------------------------------------------------------------- run_all_checks

  datatype QualityReport = QualityReport(allPassed: bool, checks: seq<(string, bool)>, issues: seq<Issue>)

  /** Everything the six checks demand of a frame. */
  predicate Acceptable(f: Frame, threshold: real, required: seq<string>, minRows: int)
  {
    SchemaOk(f, required) && NullsOk(f, threshold) && TypesOk(f) && RangesOk(f) && TemporalOk(f) && SufficientOk(f, minRows)
  }

  /** Issues are grouped by the check that found them, in check order. */
  predicate InCheckOrder(issues: seq<Issue>)
  {
    forall i, j :: 0 <= i < j < |issues| ==> CheckOf(issues[i]) <= CheckOf(issues[j])
  }

  /** `xs` is in check order and comes from checks up to `k`. */
  predicate OrderedUpTo(xs: seq<Issue>, k: nat)
  {
    InCheckOrder(xs) && forall i :: 0 <= i < |xs| ==> CheckOf(xs[i]) <= k
  }

  lemma OrderedExtend(a: seq<Issue>, b: seq<Issue>, k: nat, k': nat)
    requires OrderedUpTo(a, k) && AllOf(b, k') && k <= k'
    ensures OrderedUpTo(a + b, k')
  {
    forall i | 0 <= i < |a + b| ensures CheckOf((a + b)[i]) <= k' {
      if i >= |a| { assert (a + b)[i] == b[i - |a|]; }
    }
    forall i, j | 0 <= i < j < |a + b| ensures CheckOf((a + b)[i]) <= CheckOf((a + b)[j]) {
      if j >= |a| {
        assert (a + b)[j] == b[j - |a|];
        if i >= |a| { assert (a + b)[i] == b[i - |a|]; }
      }
    }
  }

  /** The flags of the six checks, stored under their names in the order they run. */
  function Flags(s: bool, n: bool, d: bool, v: bool, t: bool, q: bool): seq<(string, bool)>
  {
    DictPut(DictPut(DictPut(DictPut(DictPut(DictPut([], "schema", s), "null_values", n), "data_types", d),
      "value_ranges", v), "temporal", t), "sufficient_data", q)
  }

  /** Storing a new key appends it. */
  lemma {:induction false} DictPutNew(d: seq<(string, bool)>, k: string, v: bool)
    requires forall i :: 0 <= i < |d| ==> d[i].0 != k
    ensures DictPut(d, k, v) == d + [(k, v)]
  {
    if d != [] {
      DictPutNew(d[1..], k, v);
      assert d == [d[0]] + d[1..];
    }
  }

  /** Six distinct names, stored one after the other into an empty dict. */
  lemma FlagsInOrder(s: bool, n: bool, d: bool, v: bool, t: bool, q: bool)
    ensures Flags(s, n, d, v, t, q) == Listed(s, n, d, v, t, q)
  {
    var d1 := [("schema", s)];
    var d2 := [("schema", s), ("null_values", n)];
    var d3 := [("schema", s), ("null_values", n), ("data_types", d)];
    var d4 := [("schema", s), ("null_values", n), ("data_types", d), ("value_ranges", v)];
    var d5 := [("schema", s), ("null_values", n), ("data_types", d), ("value_ranges", v), ("temporal", t)];
    assert DictPut([], "schema", s) == d1;
    assert DictPut(d1, "null_values", n) == d2 by { DictPutNew(d1, "null_values", n); }
    assert DictPut(d2, "data_types", d) == d3 by { DictPutNew(d2, "data_types", d); }
    assert DictPut(d3, "value_ranges", v) == d4 by { DictPutNew(d3, "value_ranges", v); }
    assert DictPut(d4, "temporal", t) == d5 by { DictPutNew(d4, "temporal", t); }
    assert DictPut(d5, "sufficient_data", q) == Listed(s, n, d, v, t, q) by { DictPutNew(d5, "sufficient_data", q); }
  }

  /** The flags of six checks, listed under their names. */
  function Listed(s: bool, n: bool, d: bool, v: bool, t: bool, q: bool): (r: seq<(string, bool)>)
    ensures DictKeys(r) == CheckNames
    ensures AllValues(r) <==> s && n && d && v && t && q
  {
    var r := [("schema", s), ("null_values", n), ("data_types", d), ("value_ranges", v), ("temporal", t), ("sufficient_data", q)];
    assert r[0].1 == s && r[1].1 == n && r[2].1 == d && r[3].1 == v && r[4].1 == t && r[5].1 == q;
    r
  }

  /** The result of `run_all_checks`: the six verdicts, their flags and their issues. */
  function RunAll(f: Frame, threshold: real, required: seq<string>, minRows: int): (r: QualityReport)
    ensures |r.issues| <= 11
  {
    var s, n, d, v, t, q := SchemaVerdict(f, required), NullVerdict(f, threshold), DataTypesVerdict(f),
      ValueRangesVerdict(f), TemporalVerdict(f), SufficientVerdict(f, minRows);
    var checks := Listed(s.passed, n.passed, d.passed, v.passed, t.passed, q.passed);
    QualityReport(AllValues(checks), checks, s.found + n.found + d.found + v.found + t.found + q.found)
  }

  /** One flag per check, under the check's name and in running order, each set exactly
      when the frame meets that check's condition. */
  lemma RunAllFlags(f: Frame, threshold: real, required: seq<string>, minRows: int)
    ensures RunAll(f, threshold, required, minRows).checks
      == [("schema", SchemaOk(f, required)), ("null_values", NullsOk(f, threshold)),
          ("data_types", TypesOk(f)), ("value_ranges", RangesOk(f)),
          ("temporal", TemporalOk(f)), ("sufficient_data", SufficientOk(f, minRows))]
  {
    var s, n, d, v, t, q := SchemaVerdict(f, required), NullVerdict(f, threshold), DataTypesVerdict(f),
      ValueRangesVerdict(f), TemporalVerdict(f), SufficientVerdict(f, minRows);
    SchemaPassed(f, required);
    NullPassed(f, threshold);
    DataTypesPassed(f);
    ValueRangesPassed(f);
    TemporalPassed(f);
  }

  /** The overall flag holds exactly when the frame is acceptable to every check, which
      is exactly when no issue was recorded. */
  lemma RunAllPassed(f: Frame, threshold: real, required: seq<string>, minRows: int)
    ensures var r := RunAll(f, threshold, required, minRows);
      (r.allPassed <==> Acceptable(f, threshold, required, minRows)) && (r.allPassed <==> r.issues == [])
  {
    var s, n, d, v, t, q := SchemaVerdict(f, required), NullVerdict(f, threshold), DataTypesVerdict(f),
      ValueRangesVerdict(f), TemporalVerdict(f), SufficientVerdict(f, minRows);
    SchemaPassed(f, required);
    NullPassed(f, threshold);
    DataTypesPassed(f);
    ValueRangesPassed(f);
    TemporalPassed(f);
    var all := s.found + n.found + d.found + v.found + t.found + q.found;
    assert |all| == |s.found| + |n.found| + |d.found| + |v.found| + |t.found| + |q.found|;
    assert all == [] <==> |all| == 0;
  }

  /** The issues come grouped by check, in the order the checks run. */
  lemma RunAllOrdered(f: Frame, threshold: real, required: seq<string>, minRows: int)
    ensures InCheckOrder(RunAll(f, threshold, required, minRows).issues)
  {
    var s, n, d, v, t, q := SchemaVerdict(f, required), NullVerdict(f, threshold), DataTypesVerdict(f),
      ValueRangesVerdict(f), TemporalVerdict(f), SufficientVerdict(f, minRows);
    OrderedExtend(s.found, n.found, 0, 1);
    OrderedExtend(s.found + n.found, d.found, 1, 2);
    OrderedExtend(s.found + n.found + d.found, v.found, 2, 3);
    OrderedExtend(s.found + n.found + d.found + v.found, t.found, 3, 4);
    OrderedExtend(s.found + n.found + d.found + v.found + t.found, q.found, 4, 5);
  }
}
