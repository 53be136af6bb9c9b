/** What the steps of the feature pipeline promise about the frames they return: which
    columns each one writes (and that it leaves every other column and the index as
    they were), when each one raises, and the values of the columns it writes. */
module TransformFacts {
  import opened Wrappers
  import opened Text
  import opened Series
  import opened SeriesFacts
  import opened Frames
  import opened Transform

  // ---------------------------------------------------------------- what a step writes

  /** `g` is `f` with the columns `written` set: the index and every other column are as
      they were, and `g` has the columns of `f` and the written ones. */
  ghost predicate Extends(f: Frame, g: Frame, written: seq<string>)
  {
    g.index == f.index &&
    (forall n :: n !in written ==> Get(g, n) == Get(f, n)) &&
    (forall n :: n in Names(g) <==> n in Names(f) || n in written)
  }

  lemma ExtendsSet(f: Frame, name: string, values: Col)
    ensures Extends(f, SetColumn(f, name, values), [name])
  {
    forall n | n != name ensures Get(SetColumn(f, name, values), n) == Get(f, n) {
      GetSet(f, name, values, n);
    }
  }

  lemma ExtendsChain(f: Frame, g: Frame, h: Frame, a: seq<string>, b: seq<string>)
    requires Extends(f, g, a) && Extends(g, h, b)
    ensures Extends(f, h, a + b)
  {
  }

  lemma ExtendsSet6(f: Frame, n1: string, v1: Col, n2: string, v2: Col, n3: string, v3: Col,
                    n4: string, v4: Col, n5: string, v5: Col, n6: string, v6: Col)
    ensures Extends(f, SetColumn(SetColumn(SetColumn(SetColumn(SetColumn(SetColumn(f, n1, v1), n2, v2), n3, v3), n4, v4), n5, v5), n6, v6),
      [n1, n2, n3, n4, n5, n6])
  {
    var g := SetColumn(SetColumn(SetColumn(f, n1, v1), n2, v2), n3, v3);
    ExtendsSet3(f, n1, v1, n2, v2, n3, v3);
    ExtendsSet3(g, n4, v4, n5, v5, n6, v6);
    ExtendsChain(f, g, SetColumn(SetColumn(SetColumn(g, n4, v4), n5, v5), n6, v6), [n1, n2, n3], [n4, n5, n6]);
    Halves(n1, n2, n3, n4, n5, n6);
  }

  lemma Halves(n1: string, n2: string, n3: string, n4: string, n5: string, n6: string)
    ensures [n1, n2, n3] + [n4, n5, n6] == [n1, n2, n3, n4, n5, n6]
  {
  }

  lemma SwappedMembers(a: seq<string>, b: seq<string>)
    ensures forall n :: n in a + b <==> n in b + a
  {
  }

  /** Only which names were written matters, not their order or repetition. */
  lemma ExtendsSameNames(f: Frame, g: Frame, a: seq<string>, b: seq<string>)
    requires Extends(f, g, a)
    requires forall n :: n in a <==> n in b
    ensures Extends(f, g, b)
  {
  }

  lemma ExtendsSet2(f: Frame, n1: string, v1: Col, n2: string, v2: Col)
    ensures Extends(f, SetColumn(SetColumn(f, n1, v1), n2, v2), [n1, n2])
  {
    var g := SetColumn(f, n1, v1);
    ExtendsSet(f, n1, v1);
    ExtendsSet(g, n2, v2);
    ExtendsChain(f, g, SetColumn(g, n2, v2), [n1], [n2]);
    assert [n1] + [n2] == [n1, n2];
  }

  lemma ExtendsSet3(f: Frame, n1: string, v1: Col, n2: string, v2: Col, n3: string, v3: Col)
    ensures Extends(f, SetColumn(SetColumn(SetColumn(f, n1, v1), n2, v2), n3, v3), [n1, n2, n3])
  {
    var g := SetColumn(SetColumn(f, n1, v1), n2, v2);
    ExtendsSet2(f, n1, v1, n2, v2);
    ExtendsSet(g, n3, v3);
    ExtendsChain(f, g, SetColumn(g, n3, v3), [n1, n2], [n3]);
    assert [n1, n2] + [n3] == [n1, n2, n3];
  }

  /** `calculate_returns` raises exactly when the target column is missing, and
      otherwise writes `returns` and `log_returns`. */
  lemma ReturnsWrites(f: Frame, target: string, num: Numerics)
    ensures var s := Returns(f, target, num);
      (s.result.Ok? <==> target in Names(f)) &&
      (s.result.Err? ==> s.result.error == MissingColumn(target) && s.added == []) &&
      (s.result.Ok? ==> s.added == ReturnNames && Extends(f, s.result.value, ReturnNames))
  {
    if target in Names(f) {
      var g := SetColumn(f, "returns", PctChange(Get(f, target)));
      var c := Get(g, target);
      ExtendsSet2(f, "returns", PctChange(Get(f, target)), "log_returns", MapPresent(Quot(c, Shift(c, 1)), num.log));
    }
  }

  lemma {:induction false} VolatilityOverWrites(f: Frame, windows: seq<nat>, std: seq<real> -> real)
    ensures Extends(f, VolatilityOver(f, windows, std), VolatilityNames(windows))
  {
    if windows != [] {
      var init := windows[..|windows| - 1];
      var g := VolatilityOver(f, init, std);
      var w := windows[|windows| - 1];
      VolatilityOverWrites(f, init, std);
      ExtendsSet(g, VolatilityName(w), RollingStd(Get(g, "returns"), w, std));
      ExtendsChain(f, g, VolatilityOver(f, windows, std), VolatilityNames(init), [VolatilityName(w)]);
    }
  }

  /** `calculate_volatility` raises only when it has to compute the returns itself and
      the target column is missing; it writes the names it appends. */
  lemma VolatilityWrites(f: Frame, target: string, windows: seq<nat>, num: Numerics)
    ensures var s := Volatility(f, target, windows, num);
      (s.result.Ok? <==> "returns" in Names(f) || target in Names(f)) &&
      (s.result.Err? ==> s.result.error == MissingColumn(target) && s.added == []) &&
      (s.result.Ok? ==> Extends(f, s.result.value, s.added))
  {
    ReturnsWrites(f, target, num);
    if "returns" in Names(f) {
      VolatilityOverWrites(f, windows, num.std);
    } else if target in Names(f) {
      var g := Returns(f, target, num).result.value;
      VolatilityOverWrites(g, windows, num.std);
      ExtendsChain(f, g, VolatilityOver(g, windows, num.std), ReturnNames, VolatilityNames(windows));
    }
  }

  lemma {:induction false} LagsOfWrites(f: Frame, col: string, lags: seq<int>)
    ensures Extends(f, LagsOf(f, col, lags), LagNames(col, lags))
  {
    if lags != [] {
      var init := lags[..|lags| - 1];
      var g := LagsOf(f, col, init);
      var k := lags[|lags| - 1];
      LagsOfWrites(f, col, init);
      ExtendsSet(g, LagName(col, k), Shift(Get(g, col), k));
      ExtendsChain(f, g, LagsOf(f, col, lags), LagNames(col, init), [LagName(col, k)]);
    }
  }

  /** `create_lag_features` writes the names it appends. */
  lemma {:induction false} LagsWrites(f: Frame, cols: seq<string>, lags: seq<int>)
    ensures Extends(f, Lags(f, cols, lags).frame, Lags(f, cols, lags).added)
  {
    if cols == [] {
    } else {
      var s := Lags(f, cols[..|cols| - 1], lags);
      var c := cols[|cols| - 1];
      LagsWrites(f, cols[..|cols| - 1], lags);
      if c in Names(s.frame) {
        LagsOfWrites(s.frame, c, lags);
        ExtendsChain(f, s.frame, LagsOf(s.frame, c, lags), s.added, LagNames(c, lags));
      }
    }
  }

  lemma RollingWindowWrites(f: Frame, target: string, w: nat, std: seq<real> -> real)
    ensures Extends(f, RollingWindow(f, target, w, std), WindowNames(w))
  {
    var f1 := SetColumn(f, MaName(w), RollingMean(Get(f, target), w));
    var f2 := SetColumn(f1, StdName(w), RollingStd(Get(f1, target), w, std));
    var f3 := SetColumn(f2, MinName(w), RollingMin(Get(f2, target), w));
    var f4 := SetColumn(f3, MaxName(w), RollingMax(Get(f3, target), w));
    var f5 := SetColumn(f4, UpperName(w), Add(Get(f4, MaName(w)), Scale(2.0, Get(f4, StdName(w)))));
    ExtendsSet6(f, MaName(w), RollingMean(Get(f, target), w), StdName(w), RollingStd(Get(f1, target), w, std),
      MinName(w), RollingMin(Get(f2, target), w), MaxName(w), RollingMax(Get(f3, target), w),
      UpperName(w), Add(Get(f4, MaName(w)), Scale(2.0, Get(f4, StdName(w)))),
      LowerName(w), Sub(Get(f5, MaName(w)), Scale(2.0, Get(f5, StdName(w)))));
  }

  lemma {:induction false} RollingOverWrites(f: Frame, target: string, windows: seq<nat>, std: seq<real> -> real)
    ensures Extends(f, RollingOver(f, target, windows, std), RollingNames(windows))
  {
    if windows != [] {
      var init := windows[..|windows| - 1];
      var g := RollingOver(f, target, init, std);
      RollingOverWrites(f, target, init, std);
      RollingWindowWrites(g, target, windows[|windows| - 1], std);
      ExtendsChain(f, g, RollingOver(f, target, windows, std), RollingNames(init), WindowNames(windows[|windows| - 1]));
    }
  }

  /** `create_rolling_features` raises exactly when there is a window and no target
      column; it writes the names it appends. */
  lemma RollingWrites(f: Frame, target: string, windows: seq<nat>, num: Numerics)
    ensures var s := Rolling(f, target, windows, num);
      (s.result.Ok? <==> windows == [] || target in Names(f)) &&
      (s.result.Err? ==> s.result.error == MissingColumn(target) && s.added == []) &&
      (s.result.Ok? ==> Extends(f, s.result.value, s.added))
  {
    RollingOverWrites(f, target, windows, num.std);
  }

  lemma IndicatorsWrites(f: Frame, target: string, num: Numerics)
    ensures Extends(f, Indicators(f, target, num), IndicatorNames)
  {
    var delta := Diff(Get(f, target));
    var gain := RollingMean(Gains(delta), RsiWindow);
    var loss := RollingMean(Losses(delta), RsiWindow);
    var f1 := SetColumn(f, "rsi", Rsi(gain, loss));
    var exp1 := Ewm(Get(f1, target), 12, num.ewm);
    var exp2 := Ewm(Get(f1, target), 26, num.ewm);
    var f2 := SetColumn(f1, "macd", Sub(exp1, exp2));
    var f3 := SetColumn(f2, "macd_signal", Ewm(Get(f2, "macd"), 9, num.ewm));
    var f4 := SetColumn(f3, "macd_diff", Sub(Get(f3, "macd"), Get(f3, "macd_signal")));
    var f5 := SetColumn(f4, "momentum_3", Sub(Get(f4, target), Shift(Get(f4, target), 3)));
    ExtendsSet6(f, "rsi", Rsi(gain, loss), "macd", Sub(exp1, exp2), "macd_signal", Ewm(Get(f2, "macd"), 9, num.ewm),
      "macd_diff", Sub(Get(f3, "macd"), Get(f3, "macd_signal")),
      "momentum_3", Sub(Get(f4, target), Shift(Get(f4, target), 3)), "momentum_5", Sub(Get(f5, target), Shift(Get(f5, target), 5)));
  }

  lemma VolumeColumnsWrite(f: Frame)
    ensures Extends(f, VolumeColumns(f), VolumeNames)
  {
    var f1 := SetColumn(f, "volume_ma_5", RollingMean(Get(f, "volume"), 5));
    var f2 := SetColumn(f1, "volume_ma_10", RollingMean(Get(f1, "volume"), 10));
    ExtendsSet3(f, "volume_ma_5", RollingMean(Get(f, "volume"), 5), "volume_ma_10", RollingMean(Get(f1, "volume"), 10),
      "volume_ratio", Quot(Get(f2, "volume"), Get(f2, "volume_ma_10")));
  }

  lemma IndicatorsWrite(f: Frame, target: string, num: Numerics)
    requires target in Names(f)
    ensures Technical(f, target, num).result.Ok?
    ensures var s := Technical(f, target, num); Extends(f, s.result.value, s.added)
  {
    var f6 := Indicators(f, target, num);
    IndicatorsWrites(f, target, num);
    if "volume" in Names(f6) {
      VolumeColumnsWrite(f6);
      ExtendsChain(f, f6, VolumeColumns(f6), IndicatorNames, VolumeNames);
      SwappedMembers(IndicatorNames, VolumeNames);
      ExtendsSameNames(f, VolumeColumns(f6), IndicatorNames + VolumeNames, VolumeNames + IndicatorNames);
    }
  }

  /** `create_technical_indicators` raises exactly when the target column is missing;
      it writes the names it appends. */
  lemma TechnicalWrites(f: Frame, target: string, num: Numerics)
    ensures var s := Technical(f, target, num);
      (s.result.Ok? <==> target in Names(f)) &&
      (s.result.Err? ==> s.result.error == MissingColumn(target) && s.added == []) &&
      (s.result.Ok? ==> Extends(f, s.result.value, s.added))
  {
    if target in Names(f) {
      IndicatorsWrite(f, target, num);
    }
  }

  lemma HourColumnsWrite(f: Frame, num: Numerics)
    ensures Extends(f, HourColumns(f, num), HourNames)
  {
    if HasHour(f.index) {
      var f1 := SetColumn(f, "hour", Field(f.index.stamps, HourOf));
      var f2 := SetColumn(f1, "hour_sin", MapPresent(Get(f1, "hour"), Turns(num.sinTurn, 24.0)));
      ExtendsSet3(f, "hour", Field(f.index.stamps, HourOf), "hour_sin", MapPresent(Get(f1, "hour"), Turns(num.sinTurn, 24.0)),
        "hour_cos", MapPresent(Get(f2, "hour"), Turns(num.cosTurn, 24.0)));
    } else {
      ExtendsSet3(f, "hour", Constant(Rows(f), 0.0), "hour_sin", Constant(Rows(f), 0.0), "hour_cos", Constant(Rows(f), 1.0));
    }
  }

  lemma CalendarColumnsWrite(f: Frame, stamps: seq<Stamp>, num: Numerics)
    ensures Extends(f, CalendarColumns(f, stamps, num), CalendarNames)
  {
    var f1 := SetColumn(f, "day_of_week", Field(stamps, DayOfWeekOf));
    var f2 := SetColumn(f1, "day_of_month", Field(stamps, DayOf));
    var f3 := SetColumn(f2, "month", Field(stamps, MonthOf));
    var f4 := SetColumn(f3, "quarter", Field(stamps, QuarterOf));
    var f5 := SetColumn(f4, "day_sin", MapPresent(Get(f4, "day_of_week"), Turns(num.sinTurn, 7.0)));
    ExtendsSet6(f, "day_of_week", Field(stamps, DayOfWeekOf), "day_of_month", Field(stamps, DayOf), "month", Field(stamps, MonthOf),
      "quarter", Field(stamps, QuarterOf), "day_sin", MapPresent(Get(f4, "day_of_week"), Turns(num.sinTurn, 7.0)),
      "day_cos", MapPresent(Get(f5, "day_of_week"), Turns(num.cosTurn, 7.0)));
  }

  /** `create_time_features` appends the hour names in either case, and raises after
      them exactly when the index has no calendar fields; it writes the names it
      appends. */
  lemma TimeWrites(f: Frame, num: Numerics)
    ensures var s := Time(f, num);
      (s.result.Ok? <==> f.index.DatetimeIndex?) &&
      (s.result.Err? ==> s.result.error == NoCalendar && s.added == HourNames) &&
      (s.result.Ok? ==> s.added == HourNames + CalendarNames && Extends(f, s.result.value, s.added))
  {
    var g := HourColumns(f, num);
    HourColumnsWrite(f, num);
    if f.index.DatetimeIndex? {
      CalendarColumnsWrite(g, g.index.stamps, num);
      ExtendsChain(f, g, CalendarColumns(g, g.index.stamps, num), HourNames, CalendarNames);
    }
  }

  /** `create_target_variable` raises exactly when there is no `returns` column, writes
      the three target columns and appends no feature name. */
  lemma TargetWrites(f: Frame, horizon: int, std: seq<real> -> real)
    ensures var s := Target(f, horizon, std);
      s.added == [] &&
      (s.result.Ok? <==> "returns" in Names(f)) &&
      (s.result.Err? ==> s.result.error == MissingColumn("returns")) &&
      (s.result.Ok? ==> Extends(f, s.result.value, TargetNames))
  {
    if "returns" in Names(f) {
      var f1 := SetColumn(f, "future_returns", Shift(Get(f, "returns"), -horizon));
      var f2 := SetColumn(f1, "target_volatility", Abs(Get(f1, "future_returns")));
      var realized := if horizon > 1 then RollingStd(Shift(Get(f2, "returns"), -horizon), horizon as nat, std)
                      else Get(f2, "target_volatility");
      ExtendsSet3(f, "future_returns", Shift(Get(f, "returns"), -horizon), "target_volatility", Abs(Get(f1, "future_returns")),
        "target_realized_vol", realized);
    }
  }
}
