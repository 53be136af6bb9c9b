/** What `transform` promises as a whole: when it raises, which columns it writes, and
    which rows `dropna` leaves. Every row it returns has a value in every column, the
    rows keep their order, the warm-up rows of `volatility_10` and the last `horizon`
    rows are gone, and a column no step writes comes through with the surviving rows'
    values. */
module PipelineFacts {
  import opened Wrappers
  import opened Text
  import opened Series
  import opened SeriesFacts
  import opened Frames
  import opened Transform
  import opened TransformFacts
  import opened FeatureNames
  import opened StepValues

  // ---------------------------------------------------------------- the feature steps

  /** The first two steps raise exactly when the target column is missing. */
  lemma FirstStepsWrite(f: Frame, target: string, windows: seq<nat>, num: Numerics)
    ensures var s1 := Returns(f, target, num);
      (s1.result.Ok? <==> target in Names(f)) &&
      (s1.result.Ok? ==>
        Volatility(s1.result.value, target, windows, num).result.Ok? &&
        var s2 := Volatility(s1.result.value, target, windows, num);
        Extends(f, s2.result.value, s1.added + s2.added) && target in Names(s2.result.value) &&
        "returns" in Names(s2.result.value))
  {
    ReturnsWrites(f, target, num);
    if target in Names(f) {
      var g1 := Returns(f, target, num).result.value;
      VolatilityWrites(g1, target, windows, num);
      WrittenIn(f, g1, ReturnNames, "returns");
      ExtendsChain(f, g1, Volatility(g1, target, windows, num).result.value, ReturnNames,
        Volatility(g1, target, windows, num).added);
    }
  }

  /** After them the lag, rolling and technical steps cannot raise, since the target
      column is still there, and the time step raises exactly without a datetime index. */
  lemma LaterStepsWrite(g2: Frame, target: string, windows: seq<nat>, lagCols: seq<string>, lags: seq<int>, num: Numerics)
    requires target in Names(g2)
    ensures var s3 := Lags(g2, lagCols, lags);
      var s4 := Rolling(s3.frame, target, windows, num);
      s4.result.Ok? &&
      var s5 := Technical(s4.result.value, target, num);
      s5.result.Ok? &&
      var s6 := Time(s5.result.value, num);
      (s6.result.Ok? <==> g2.index.DatetimeIndex?) &&
      (s6.result.Err? ==> s6.result.error == NoCalendar) &&
      (s6.result.Ok? ==> Extends(g2, s6.result.value, s3.added + s4.added + s5.added + s6.added))
  {
    var s3 := Lags(g2, lagCols, lags);
    LagsWrites(g2, lagCols, lags);
    var s4 := Rolling(s3.frame, target, windows, num);
    RollingWrites(s3.frame, target, windows, num);
    var g4 := s4.result.value;
    var s5 := Technical(g4, target, num);
    TechnicalWrites(g4, target, num);
    var g5 := s5.result.value;
    var s6 := Time(g5, num);
    TimeWrites(g5, num);
    ExtendsChain(g2, s3.frame, g4, s3.added, s4.added);
    ExtendsChain(g2, g4, g5, s3.added + s4.added, s5.added);
    if s6.result.Ok? {
      ExtendsChain(g2, g5, s6.result.value, s3.added + s4.added + s5.added, s6.added);
    }
  }

  lemma WrittenIn(f: Frame, g: Frame, written: seq<string>, n: string)
    requires Extends(f, g, written) && (n in written || n in Names(f))
    ensures n in Names(g)
  {
  }

  lemma Regroup(a: seq<string>, b: seq<string>, c: seq<string>, d: seq<string>, e: seq<string>, g: seq<string>)
    ensures a + b + (c + d + e + g) == a + b + c + d + e + g
  {
  }

  /** The feature steps raise `KeyError(target)` before appending anything when the
      target column is missing, and otherwise raise only at the calendar fields of an
      index that is not a datetime index; when they succeed the frame they return is
      the input with the columns they name written. */
  lemma FeaturesWrites(f: Frame, target: string, windows: seq<nat>, lagCols: seq<string>, lags: seq<int>, num: Numerics)
    ensures var s := Features(f, target, windows, lagCols, lags, num);
      (s.result.Ok? <==> target in Names(f) && f.index.DatetimeIndex?) &&
      (target !in Names(f) ==> s.result == Err(MissingColumn(target)) && s.added == []) &&
      (target in Names(f) && !f.index.DatetimeIndex? ==> s.result == Err(NoCalendar)) &&
      (s.result.Ok? ==> Extends(f, s.result.value, s.added) && "returns" in Names(s.result.value))
  {
    FirstStepsWrite(f, target, windows, num);
    if target in Names(f) {
      var s1 := Returns(f, target, num);
      var s2 := Volatility(s1.result.value, target, windows, num);
      var g2 := s2.result.value;
      LaterStepsWrite(g2, target, windows, lagCols, lags, num);
      var s3 := Lags(g2, lagCols, lags);
      var s4 := Rolling(s3.frame, target, windows, num);
      var s5 := Technical(s4.result.value, target, num);
      var s6 := Time(s5.result.value, num);
      if s6.result.Ok? {
        ExtendsChain(f, g2, s6.result.value, s1.added + s2.added, s3.added + s4.added + s5.added + s6.added);
        Regroup(s1.added, s2.added, s3.added, s4.added, s5.added, s6.added);
        WrittenIn(g2, s6.result.value, s3.added + s4.added + s5.added + s6.added, "returns");
      }
    } else {
      ReturnsWrites(f, target, num);
    }
  }

  // ---------------------------------------------------------------- the whole pipeline

  /** The frame `transform` hands to `dropna`: the features and then the targets. */
  function Labelled(f: Frame, target: string, horizon: int, windows: seq<nat>, lagCols: seq<string>, lags: seq<int>,
                    num: Numerics): Result<Frame, TransformError>
  {
    var s := Features(f, target, windows, lagCols, lags, num);
    if s.result.Err? then s.result else Target(s.result.value, horizon, num.std).result
  }

  /** `transform` raises exactly when the feature steps do, and otherwise returns the
      complete rows of the labelled frame, which is the input with the feature and target
      columns written. */
  lemma PipelineWrites(f: Frame, target: string, horizon: int, windows: seq<nat>, lagCols: seq<string>, lags: seq<int>,
                       num: Numerics)
    ensures var p := Pipeline(f, target, horizon, windows, lagCols, lags, num);
      var g := Labelled(f, target, horizon, windows, lagCols, lags, num);
      (p.result.Ok? <==> target in Names(f) && f.index.DatetimeIndex?) &&
      (p.result.Err? ==> p.result == Features(f, target, windows, lagCols, lags, num).result) &&
      (p.result.Ok? ==> g.Ok? && p.result.value == DropNa(g.value) && Extends(f, g.value, p.added + TargetNames))
  {
    var s := Features(f, target, windows, lagCols, lags, num);
    FeaturesWrites(f, target, windows, lagCols, lags, num);
    if s.result.Ok? {
      var g := s.result.value;
      TargetWrites(g, horizon, num.std);
      ExtendsChain(f, g, Target(g, horizon, num.std).result.value, s.added, TargetNames);
    }
  }

  // ---------------------------------------------------------------- columns no later step writes

  /** A column is kept by every step whose names all have fingerprints other than its
      own. */
  lemma KeptBy(f: Frame, g: Frame, written: seq<string>, keys: seq<Fingerprint>, n: string)
    requires Extends(f, g, written) && KeysIn(written, keys) && Key(n) !in keys
    ensures Get(g, n) == Get(f, n)
  {
  }

  /** The fingerprints of the returns and volatility names are none of the later steps'. */
  lemma FirstKeysApart(n: string)
    requires Key(n) in ReturnKeys + [VolatilityKey]
    ensures Key(n) !in LagKeys && Key(n) !in RollingKeys && Key(n) !in IndicatorKeys && Key(n) !in TimeKeys
    ensures Key(n) !in TargetKeys
  {
  }

  lemma LagKeysOf(f: Frame, lags: seq<int>)
    ensures KeysIn(Lags(f, LagSources, lags).added, LagKeys)
  {
    LagsAddedWithin(f, LagSources, lags);
    LagSourceKeys(lags);
  }

  lemma RollingKeysOf(f: Frame, target: string, windows: seq<nat>, num: Numerics)
    ensures KeysIn(Rolling(f, target, windows, num).added, RollingKeys)
  {
    RollingStems(windows);
  }

  lemma TechnicalKeysOf(f: Frame, target: string, num: Numerics)
    ensures KeysIn(Technical(f, target, num).added, IndicatorKeys)
  {
    IndicatorNamesDistinct();
  }

  lemma TimeKeysOf(f: Frame, num: Numerics)
    ensures KeysIn(Time(f, num).added, TimeKeys)
  {
    TimeNamesDistinct();
  }

  /** The columns `calculate_returns` and `calculate_volatility` write reach the labelled
      frame as those steps left them, with the default lag columns. */
  lemma FirstColumnsKept(f: Frame, target: string, horizon: int, windows: seq<nat>, lags: seq<int>, num: Numerics, n: string)
    requires target in Names(f) && f.index.DatetimeIndex?
    requires Key(n) in ReturnKeys + [VolatilityKey]
    ensures var s1 := Returns(f, target, num);
      s1.result.Ok? && Volatility(s1.result.value, target, windows, num).result.Ok? &&
      Labelled(f, target, horizon, windows, LagSources, lags, num).Ok? &&
      var g2 := Volatility(s1.result.value, target, windows, num).result.value;
      Get(Features(f, target, windows, LagSources, lags, num).result.value, n) == Get(g2, n) &&
      Get(Labelled(f, target, horizon, windows, LagSources, lags, num).value, n) == Get(g2, n)
  {
    FirstStepsWrite(f, target, windows, num);
    var g2 := Volatility(Returns(f, target, num).result.value, target, windows, num).result.value;
    LaterStepsWrite(g2, target, windows, LagSources, lags, num);
    FeaturesWrites(f, target, windows, LagSources, lags, num);
    FirstKeysApart(n);
    var s3 := Lags(g2, LagSources, lags);
    LagsWrites(g2, LagSources, lags);
    LagKeysOf(g2, lags);
    KeptBy(g2, s3.frame, s3.added, LagKeys, n);
    var s4 := Rolling(s3.frame, target, windows, num);
    RollingWrites(s3.frame, target, windows, num);
    RollingKeysOf(s3.frame, target, windows, num);
    KeptBy(s3.frame, s4.result.value, s4.added, RollingKeys, n);
    var g4 := s4.result.value;
    var s5 := Technical(g4, target, num);
    TechnicalWrites(g4, target, num);
    TechnicalKeysOf(g4, target, num);
    KeptBy(g4, s5.result.value, s5.added, IndicatorKeys, n);
    var g5 := s5.result.value;
    TimeWrites(g5, num);
    TimeKeysOf(g5, num);
    KeptBy(g5, Time(g5, num).result.value, Time(g5, num).added, TimeKeys, n);
    var g6 := Time(g5, num).result.value;
    TargetWrites(g6, horizon, num.std);
    TargetKeysOf();
    KeptBy(g6, Target(g6, horizon, num.std).result.value, TargetNames, TargetKeys, n);
  }

  /** The labelled frame has the index of the input, the future returns and
      `volatility_<w>` for every window `w` of the list. */
  lemma LabelledNames(f: Frame, target: string, horizon: int, windows: seq<nat>, lags: seq<int>, num: Numerics, w: nat)
    requires target in Names(f) && f.index.DatetimeIndex? && w in windows
    ensures Labelled(f, target, horizon, windows, LagSources, lags, num).Ok?
    ensures var g := Labelled(f, target, horizon, windows, LagSources, lags, num).value;
      "future_returns" in Names(g) && VolatilityName(w) in Names(g) && g.index == f.index
  {
    var g1 := Returns(f, target, num).result.value;
    ReturnsWrites(f, target, num);
    assert "returns" in Names(g1);
    var g2 := Volatility(g1, target, windows, num).result.value;
    assert g2 == VolatilityOver(g1, windows, num.std);
    VolatilityOverWrites(g1, windows, num.std);
    VolatilityNameIn(windows, w);
    WrittenIn(g1, g2, VolatilityNames(windows), VolatilityName(w));
    FirstStepsWrite(f, target, windows, num);
    LaterStepsWrite(g2, target, windows, LagSources, lags, num);
    var s3 := Lags(g2, LagSources, lags);
    var s4 := Rolling(s3.frame, target, windows, num);
    var s5 := Technical(s4.result.value, target, num);
    var g6 := Time(s5.result.value, num).result.value;
    WrittenIn(g2, g6, s3.added + s4.added + s5.added + Time(s5.result.value, num).added, VolatilityName(w));
    FeaturesWrites(f, target, windows, LagSources, lags, num);
    assert g6 == Features(f, target, windows, LagSources, lags, num).result.value;
    var g := Target(g6, horizon, num.std).result.value;
    TargetWrites(g6, horizon, num.std);
    WrittenIn(g6, g, TargetNames, VolatilityName(w));
    WrittenIn(g6, g, TargetNames, "future_returns");
  }

  /** After `calculate_volatility` the returns are the target's percent change and
      `volatility_<w>` is their rolling deviation over `w` rows. */
  lemma FirstColumns(f: Frame, target: string, windows: seq<nat>, num: Numerics, w: nat)
    requires target in Names(f) && w in windows
    ensures Returns(f, target, num).result.Ok? && Volatility(Returns(f, target, num).result.value, target, windows, num).result.Ok?
    ensures var g2 := Volatility(Returns(f, target, num).result.value, target, windows, num).result.value;
      var r := PctChange(Get(f, target));
      Get(g2, "returns") == r && Get(g2, VolatilityName(w)) == RollingStd(r, w, num.std)
  {
    var g1 := Returns(f, target, num).result.value;
    ReturnsColumns(f, target, num);
    ReturnsWrites(f, target, num);
    assert "returns" in Names(g1);
    var g2 := Volatility(g1, target, windows, num).result.value;
    assert g2 == VolatilityOver(g1, windows, num.std);
    VolatilityOverReturns(g1, windows, num.std);
    VolatilityValues(g1, target, windows, num, w, 0);
  }

  lemma FirstKeys(w: nat)
    ensures Key("returns") in ReturnKeys + [VolatilityKey] && Key(VolatilityName(w)) in ReturnKeys + [VolatilityKey]
  {
    StemKey("volatility_", NatToString(w));
  }

  /** In the labelled frame the future returns are the target's percent change shifted
      `horizon` rows up, and `volatility_<w>` is its rolling deviation over `w` rows, for
      every window `w` of the list. */
  lemma LabelledColumns(f: Frame, target: string, horizon: int, windows: seq<nat>, lags: seq<int>, num: Numerics, w: nat)
    requires target in Names(f) && f.index.DatetimeIndex? && w in windows
    ensures Labelled(f, target, horizon, windows, LagSources, lags, num).Ok?
    ensures var g := Labelled(f, target, horizon, windows, LagSources, lags, num).value; var r := PctChange(Get(f, target));
      Get(g, "future_returns") == Shift(r, -horizon) && Get(g, VolatilityName(w)) == RollingStd(r, w, num.std)
  {
    FirstColumns(f, target, windows, num, w);
    FirstKeys(w);
    FirstColumnsKept(f, target, horizon, windows, lags, num, "returns");
    FirstColumnsKept(f, target, horizon, windows, lags, num, VolatilityName(w));
    var g6 := Features(f, target, windows, LagSources, lags, num).result.value;
    TargetColumns(g6, horizon, num.std);
  }

  lemma {:induction false} VolatilityNameIn(windows: seq<nat>, w: nat)
    requires w in windows
    ensures VolatilityName(w) in VolatilityNames(windows)
  {
    if windows[|windows| - 1] != w {
      var init := windows[..|windows| - 1];
      assert w in init by {
        var i :| 0 <= i < |windows| && windows[i] == w;
        assert init[i] == w;
      }
      VolatilityNameIn(init, w);
    }
  }

  /** `dropna` removes the first ten rows whenever `volatility_10` is computed: the
      deviation needs ten present returns ending at the row, and the first row has no
      return. */
  lemma WarmUpDropped(f: Frame, target: string, horizon: int, windows: seq<nat>, lags: seq<int>, num: Numerics, t: nat)
    requires target in Names(f) && f.index.DatetimeIndex? && 10 in windows && t < 10
    ensures Labelled(f, target, horizon, windows, LagSources, lags, num).Ok?
    ensures var g := Labelled(f, target, horizon, windows, LagSources, lags, num).value; t !in KeptRows(g, Rows(g))
  {
    LabelledColumns(f, target, horizon, windows, lags, num, 10);
    LabelledNames(f, target, horizon, windows, lags, num, 10);
    var g := Labelled(f, target, horizon, windows, LagSources, lags, num).value;
    var c := Get(f, target);
    var r := PctChange(c);
    var v := RollingStd(r, 10, num.std);
    if t < |r| {
      RollingStdDefined(r, 10, t, num.std);
      if t == 9 {
        PctChangeValue(c, 0);
        assert r[0].None?;
      }
    }
    assert At(v, t).None?;
    Incomplete(g, VolatilityName(10), t);
  }

  /** With a horizon `h >= 0`, `dropna` removes the last `h` rows of a well-formed frame:
      they have no return `h` rows ahead. */
  lemma TailDropped(f: Frame, target: string, horizon: int, windows: seq<nat>, lags: seq<int>, num: Numerics, t: nat)
    requires WellFormed(f) && target in Names(f) && f.index.DatetimeIndex? && horizon >= 0 && Rows(f) <= t + horizon
    requires windows != []
    ensures Labelled(f, target, horizon, windows, LagSources, lags, num).Ok?
    ensures var g := Labelled(f, target, horizon, windows, LagSources, lags, num).value; t !in KeptRows(g, Rows(g))
  {
    LabelledColumns(f, target, horizon, windows, lags, num, windows[0]);
    LabelledNames(f, target, horizon, windows, lags, num, windows[0]);
    var g := Labelled(f, target, horizon, windows, LagSources, lags, num).value;
    var r := PctChange(Get(f, target));
    GetLength(f, target);
    if t < Rows(f) {
      LeadValue(r, horizon, t);
      Incomplete(g, "future_returns", t);
    }
  }

  /** The rows `dropna` keeps from the labelled frame of `transform(df, horizon)` lie
      after the first ten and before the last `horizon`. */
  lemma KeptRowsWithin(f: Frame, target: string, horizon: int, num: Numerics)
    requires WellFormed(f) && target in Names(f) && f.index.DatetimeIndex? && horizon >= 0
    ensures Labelled(f, target, horizon, DefaultWindows, LagSources, DefaultLags, num).Ok?
    ensures var g := Labelled(f, target, horizon, DefaultWindows, LagSources, DefaultLags, num).value;
      forall t: nat :: t in KeptRows(g, Rows(g)) ==> 10 <= t && t + horizon < Rows(f)
  {
    assert 10 in DefaultWindows;
    LabelledNames(f, target, horizon, DefaultWindows, DefaultLags, num, 10);
    var g := Labelled(f, target, horizon, DefaultWindows, LagSources, DefaultLags, num).value;
    forall t: nat | t in KeptRows(g, Rows(g)) ensures 10 <= t && t + horizon < Rows(f) {
      if t < 10 {
        WarmUpDropped(f, target, horizon, DefaultWindows, DefaultLags, num, t);
      }
      if Rows(f) <= t + horizon {
        TailDropped(f, target, horizon, DefaultWindows, DefaultLags, num, t);
      }
    }
  }

  /** `dropna` of a frame that extends the input: every row it returns has a value in
      every column, and every input column left unwritten holds the values of the kept
      rows. */
  lemma DropNaOfExtended(f: Frame, g: Frame, written: seq<string>)
    requires Extends(f, g, written)
    ensures var out, rows := DropNa(g), KeptRows(g, Rows(g));
      Rows(out) == |rows| &&
      (forall c :: c in out.columns ==> |c.values| == Rows(out) && forall j :: 0 <= j < |c.values| ==> c.values[j].Some?) &&
      (forall n :: n in Names(f) && n !in written ==> n in Names(out) && Get(out, n) == Select(Get(f, n), rows))
  {
    DropNaComplete(g);
    forall n | n in Names(f) && n !in written
      ensures n in Names(DropNa(g)) && Get(DropNa(g), n) == Select(Get(f, n), KeptRows(g, Rows(g)))
    {
      DropNaRows(g, n);
    }
  }

  /** `transform(df, horizon)` with a target column and a datetime index: it succeeds;
      the rows it returns are, in their original order, rows of the input other than the
      first ten and the last `horizon`; every one of them has a value in every column;
      and every input column no step writes holds the values of those rows. */
  lemma TransformRows(f: Frame, target: string, horizon: int, num: Numerics)
    requires WellFormed(f) && target in Names(f) && f.index.DatetimeIndex? && horizon >= 0
    ensures TransformOf(f, target, horizon, num).result.Ok?
    ensures Labelled(f, target, horizon, DefaultWindows, LagSources, DefaultLags, num).Ok?
    ensures var s := TransformOf(f, target, horizon, num); var out := s.result.value;
      var g := Labelled(f, target, horizon, DefaultWindows, LagSources, DefaultLags, num).value;
      var rows := KeptRows(g, Rows(g));
      g.index == f.index && out == DropNa(g) && Rows(out) == |rows| &&
      (forall i, j :: 0 <= i < j < |rows| ==> rows[i] < rows[j]) &&
      (forall t: nat :: t in rows ==> 10 <= t && t + horizon < Rows(f)) &&
      (forall c :: c in out.columns ==> |c.values| == Rows(out) && forall j :: 0 <= j < |c.values| ==> c.values[j].Some?) &&
      (forall n :: n in Names(f) && n !in s.added && n !in TargetNames ==> n in Names(out) && Get(out, n) == Select(Get(f, n), rows))
  {
    var s := TransformOf(f, target, horizon, num);
    PipelineWrites(f, target, horizon, DefaultWindows, LagSources, DefaultLags, num);
    var g := Labelled(f, target, horizon, DefaultWindows, LagSources, DefaultLags, num).value;
    KeptRowsWithin(f, target, horizon, num);
    DropNaOfExtended(f, g, s.added + TargetNames);
  }
}
