/** `StockDataTransformer`: the target column it was built with and the list of
    feature names that every step extends in place. Each method returns what the
    step function of the same name in `Transform` computes, or the error it raises, and
    extends `featureNames` by exactly the names that function reports. */
module Transformer {
  import opened Wrappers
  import opened Text
  import opened Series
  import opened Frames
  import opened Transform

  class StockDataTransformer {
    const targetColumn: string
    var featureNames: seq<string>

    constructor (targetColumn: string)
      ensures this.targetColumn == targetColumn && featureNames == []
    {
      this.targetColumn := targetColumn;
      featureNames := [];
    }

    method CalculateReturns(f: Frame, num: Numerics) returns (r: Result<Frame, TransformError>)
      modifies this
      ensures var s := Returns(f, targetColumn, num); r == s.result && featureNames == old(featureNames) + s.added
    {
      if targetColumn !in Names(f) {
        return Err(MissingColumn(targetColumn));
      }
      var df := SetColumn(f, "returns", PctChange(Get(f, targetColumn)));
      var c := Get(df, targetColumn);
      df := SetColumn(df, "log_returns", MapPresent(Quot(c, Shift(c, 1)), num.log));
      featureNames := featureNames + ReturnNames;
      return Ok(df);
    }

    method CalculateVolatility(f: Frame, windows: seq<nat>, num: Numerics) returns (r: Result<Frame, TransformError>)
      modifies this
      ensures var s := Volatility(f, targetColumn, windows, num); r == s.result && featureNames == old(featureNames) + s.added
    {
      var df := f;
      ghost var added: seq<string> := [];
      if "returns" !in Names(f) {
        var computed := CalculateReturns(f, num);
        if computed.Err? {
          return computed;
        }
        df := computed.value;
        added := ReturnNames;
      }
      ghost var start, names := df, featureNames;
      assert names == old(featureNames) + added;
      for i := 0 to |windows|
        invariant df == VolatilityOver(start, windows[..i], num.std)
        invariant featureNames == names + VolatilityNames(windows[..i])
      {
        var w := windows[i];
        VolatilitySnoc(start, windows, i, num.std);
        Associative(names, VolatilityNames(windows[..i]), [VolatilityName(w)]);
        df := SetColumn(df, VolatilityName(w), RollingStd(Get(df, "returns"), w, num.std));
        featureNames := featureNames + [VolatilityName(w)];
      }
      assert windows[..|windows|] == windows;
      Associative(old(featureNames), added, VolatilityNames(windows));
      return Ok(df);
    }

    method CreateLagFeatures(f: Frame, columns: seq<string>, lags: seq<int>) returns (r: Frame)
      modifies this
      ensures var s := Lags(f, columns, lags); r == s.frame && featureNames == old(featureNames) + s.added
    {
      var df := f;
      for i := 0 to |columns|
        invariant df == Lags(f, columns[..i], lags).frame
        invariant featureNames == old(featureNames) + Lags(f, columns[..i], lags).added
      {
        var col := columns[i];
        LagsSnoc(f, columns, lags, i);
        if col in Names(df) {
          ghost var start, names := df, featureNames;
          for j := 0 to |lags|
            invariant df == LagsOf(start, col, lags[..j])
            invariant featureNames == names + LagNames(col, lags[..j])
          {
            var lag := lags[j];
            LagsOfSnoc(start, col, lags, j);
            Associative(names, LagNames(col, lags[..j]), [LagName(col, lag)]);
            df := SetColumn(df, LagName(col, lag), Shift(Get(df, col), lag));
            featureNames := featureNames + [LagName(col, lag)];
          }
          assert lags[..|lags|] == lags;
          Associative(old(featureNames), Lags(f, columns[..i], lags).added, LagNames(col, lags));
        }
      }
      assert columns[..|columns|] == columns;
      return df;
    }

    method CreateRollingFeatures(f: Frame, windows: seq<nat>, num: Numerics) returns (r: Result<Frame, TransformError>)
      modifies this
      ensures var s := Rolling(f, targetColumn, windows, num); r == s.result && featureNames == old(featureNames) + s.added
    {
      var df := f;
      for i := 0 to |windows|
        invariant df == RollingOver(f, targetColumn, windows[..i], num.std)
        invariant featureNames == old(featureNames) + RollingNames(windows[..i])
        invariant i > 0 ==> targetColumn in Names(f)
        invariant targetColumn in Names(f) ==> targetColumn in Names(df)
      {
        if targetColumn !in Names(df) {
          return Err(MissingColumn(targetColumn));
        }
        var w := windows[i];
        RollingWindowKeeps(df, targetColumn, w, num.std, targetColumn);
        df := SetColumn(df, MaName(w), RollingMean(Get(df, targetColumn), w));
        df := SetColumn(df, StdName(w), RollingStd(Get(df, targetColumn), w, num.std));
        df := SetColumn(df, MinName(w), RollingMin(Get(df, targetColumn), w));
        df := SetColumn(df, MaxName(w), RollingMax(Get(df, targetColumn), w));
        df := SetColumn(df, UpperName(w), Add(Get(df, MaName(w)), Scale(2.0, Get(df, StdName(w)))));
        df := SetColumn(df, LowerName(w), Sub(Get(df, MaName(w)), Scale(2.0, Get(df, StdName(w)))));
        featureNames := featureNames + WindowNames(w);
        RollingSnoc(f, targetColumn, windows, i, num.std);
        Associative(old(featureNames), RollingNames(windows[..i]), WindowNames(w));
      }
      assert windows[..|windows|] == windows;
      return Ok(df);
    }

    method CreateTechnicalIndicators(f: Frame, num: Numerics) returns (r: Result<Frame, TransformError>)
      modifies this
      ensures var s := Technical(f, targetColumn, num); r == s.result && featureNames == old(featureNames) + s.added
    {
      if targetColumn !in Names(f) {
        return Err(MissingColumn(targetColumn));
      }
      var delta := Diff(Get(f, targetColumn));
      var gain := RollingMean(Gains(delta), RsiWindow);
      var loss := RollingMean(Losses(delta), RsiWindow);
      var df := SetColumn(f, "rsi", Rsi(gain, loss));
      var exp1 := Ewm(Get(df, targetColumn), 12, num.ewm);
      var exp2 := Ewm(Get(df, targetColumn), 26, num.ewm);
      df := SetColumn(df, "macd", Sub(exp1, exp2));
      df := SetColumn(df, "macd_signal", Ewm(Get(df, "macd"), 9, num.ewm));
      df := SetColumn(df, "macd_diff", Sub(Get(df, "macd"), Get(df, "macd_signal")));
      df := SetColumn(df, "momentum_3", Sub(Get(df, targetColumn), Shift(Get(df, targetColumn), 3)));
      df := SetColumn(df, "momentum_5", Sub(Get(df, targetColumn), Shift(Get(df, targetColumn), 5)));
      if "volume" in Names(df) {
        df := SetColumn(df, "volume_ma_5", RollingMean(Get(df, "volume"), 5));
        df := SetColumn(df, "volume_ma_10", RollingMean(Get(df, "volume"), 10));
        df := SetColumn(df, "volume_ratio", Quot(Get(df, "volume"), Get(df, "volume_ma_10")));
        featureNames := featureNames + VolumeNames;
        Associative(old(featureNames), VolumeNames, IndicatorNames);
      }
      featureNames := featureNames + IndicatorNames;
      return Ok(df);
    }

    method CreateTimeFeatures(f: Frame, num: Numerics) returns (r: Result<Frame, TransformError>)
      modifies this
      ensures var s := Time(f, num); r == s.result && featureNames == old(featureNames) + s.added
    {
      var df := f;
      if HasHour(f.index) {
        df := SetColumn(df, "hour", Field(f.index.stamps, HourOf));
        df := SetColumn(df, "hour_sin", MapPresent(Get(df, "hour"), Turns(num.sinTurn, 24.0)));
        df := SetColumn(df, "hour_cos", MapPresent(Get(df, "hour"), Turns(num.cosTurn, 24.0)));
        featureNames := featureNames + HourNames;
      } else {
        df := SetColumn(df, "hour", Constant(Rows(f), 0.0));
        df := SetColumn(df, "hour_sin", Constant(Rows(f), 0.0));
        df := SetColumn(df, "hour_cos", Constant(Rows(f), 1.0));
        featureNames := featureNames + HourNames;
      }
      if df.index.OtherIndex? {
        return Err(NoCalendar);
      }
      var stamps := df.index.stamps;
      df := SetColumn(df, "day_of_week", Field(stamps, DayOfWeekOf));
      df := SetColumn(df, "day_of_month", Field(stamps, DayOf));
      df := SetColumn(df, "month", Field(stamps, MonthOf));
      df := SetColumn(df, "quarter", Field(stamps, QuarterOf));
      df := SetColumn(df, "day_sin", MapPresent(Get(df, "day_of_week"), Turns(num.sinTurn, 7.0)));
      df := SetColumn(df, "day_cos", MapPresent(Get(df, "day_of_week"), Turns(num.cosTurn, 7.0)));
      featureNames := featureNames + CalendarNames;
      Associative(old(featureNames), HourNames, CalendarNames);
      return Ok(df);
    }

    method CreateTargetVariable(f: Frame, horizon: int, num: Numerics) returns (r: Result<Frame, TransformError>)
      modifies this
      ensures var s := Target(f, horizon, num.std); r == s.result && featureNames == old(featureNames) + s.added
    {
      if "returns" !in Names(f) {
        return Err(MissingColumn("returns"));
      }
      var df := SetColumn(f, "future_returns", Shift(Get(f, "returns"), -horizon));
      df := SetColumn(df, "target_volatility", Abs(Get(df, "future_returns")));
      if horizon > 1 {
        df := SetColumn(df, "target_realized_vol", RollingStd(Shift(Get(df, "returns"), -horizon), horizon as nat, num.std));
      } else {
        df := SetColumn(df, "target_realized_vol", Get(df, "target_volatility"));
      }
      return Ok(df);
    }

    /** `transform`: the feature names start afresh, whatever earlier calls left. */
    method Transform(f: Frame, horizon: int, num: Numerics) returns (r: Result<Frame, TransformError>)
      modifies this
      ensures var s := TransformOf(f, targetColumn, horizon, num); r == s.result && featureNames == s.added
    {
      featureNames := [];
      r := RunSteps(f, horizon, DefaultWindows, LagSources, DefaultLags, num);
    }

    /** The body of `transform`, with its window and lag arguments named. */
    method RunSteps(f: Frame, horizon: int, windows: seq<nat>, lagCols: seq<string>, lags: seq<int>, num: Numerics)
      returns (r: Result<Frame, TransformError>)
      modifies this
      ensures var s := Pipeline(f, targetColumn, horizon, windows, lagCols, lags, num);
        r == s.result && featureNames == old(featureNames) + s.added
    {
      ghost var s := Features(f, targetColumn, windows, lagCols, lags, num);
      var features := ComputeFeatures(f, windows, lagCols, lags, num);
      if features.Err? {
        assert Pipeline(f, targetColumn, horizon, windows, lagCols, lags, num) == s;
        return features;
      }
      r := CreateTargetVariable(features.value, horizon, num);
      ghost var t := Target(s.result.value, horizon, num.std);
      assert featureNames == old(featureNames) + s.added;
      if r.Ok? {
        r := Ok(DropNa(r.value));
        assert Pipeline(f, targetColumn, horizon, windows, lagCols, lags, num) == Step(r, s.added);
      } else {
        assert Pipeline(f, targetColumn, horizon, windows, lagCols, lags, num) == Step(r, s.added);
      }
    }

    /** The feature steps of `transform`, in order, stopping at the first that raises. */
    method ComputeFeatures(f: Frame, windows: seq<nat>, lagCols: seq<string>, lags: seq<int>, num: Numerics)
      returns (r: Result<Frame, TransformError>)
      modifies this
      ensures var s := Features(f, targetColumn, windows, lagCols, lags, num);
        r == s.result && featureNames == old(featureNames) + s.added
    {
      r := CalculateReturns(f, num);
      if r.Err? {
        return;
      }
      ghost var s1 := Returns(f, targetColumn, num);
      r := CalculateVolatility(r.value, windows, num);
      ghost var s2 := Volatility(s1.result.value, targetColumn, windows, num);
      Associative(old(featureNames), s1.added, s2.added);
      if r.Err? {
        assert Features(f, targetColumn, windows, lagCols, lags, num) == Step(s2.result, s1.added + s2.added);
        return;
      }
      var lagged := CreateLagFeatures(r.value, lagCols, lags);
      ghost var s3 := Lags(s2.result.value, lagCols, lags);
      Associative(old(featureNames), s1.added + s2.added, s3.added);
      r := CreateRollingFeatures(lagged, windows, num);
      ghost var s4 := Rolling(s3.frame, targetColumn, windows, num);
      Associative(old(featureNames), s1.added + s2.added + s3.added, s4.added);
      if r.Err? {
        assert Features(f, targetColumn, windows, lagCols, lags, num) == Step(s4.result, s1.added + s2.added + s3.added + s4.added);
        return;
      }
      r := CreateTechnicalIndicators(r.value, num);
      ghost var s5 := Technical(s4.result.value, targetColumn, num);
      Associative(old(featureNames), s1.added + s2.added + s3.added + s4.added, s5.added);
      if r.Err? {
        assert Features(f, targetColumn, windows, lagCols, lags, num) == Step(s5.result, s1.added + s2.added + s3.added + s4.added + s5.added);
        return;
      }
      r := CreateTimeFeatures(r.value, num);
      ghost var s6 := Time(s5.result.value, num);
      Associative(old(featureNames), s1.added + s2.added + s3.added + s4.added + s5.added, s6.added);
      assert Features(f, targetColumn, windows, lagCols, lags, num) == Step(s6.result, s1.added + s2.added + s3.added + s4.added + s5.added + s6.added);
    }
  }
}
