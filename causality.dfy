/** No feature leaks the future: every feature step, run on the first `m` rows of a
    frame, gives the first `m` rows of what it gives on the whole frame. So a feature
    value in row `t` depends on rows `0 .. t` only, and a model trained on the features
    of the past sees nothing of the rows after it. Only the target columns, which are
    not features, read later rows. */
module Causality {
  import opened Wrappers
  import opened Series
  import opened SeriesFacts
  import opened Frames
  import opened Transform

  /** The first `m` rows of a step's frame, its error and appended names unchanged. */
  function TakeStep(s: Step, m: nat): (r: Step)
    ensures r.added == s.added && r.result.Ok? == s.result.Ok?
  {
    if s.result.Ok? then Step(Ok(Take(s.result.value, m)), s.added) else s
  }

  /** The first `m` timestamps. */
  function TakeStamps(stamps: seq<Stamp>, m: nat): seq<Stamp>
  {
    if m <= |stamps| then stamps[..m] else stamps
  }

  // ---------------------------------------------------------------- one column at a time

  /** Writing a column commutes with cutting the frame, once the value written to the
      cut frame is the cut value. */
  lemma SetCut(f: Frame, g: Frame, m: nat, name: string, v: Col, w: Col)
    requires Take(f, m) == g && Prefix(v, m) == w
    ensures Take(SetColumn(f, name, v), m) == SetColumn(g, name, w)
  {
    TakeSet(f, name, v, m);
  }

  /** A column of the cut frame is the cut column. */
  lemma GetCut(f: Frame, g: Frame, m: nat, n: string)
    requires Take(f, m) == g
    ensures Get(g, n) == Prefix(Get(f, n), m) && Names(g) == Names(f)
  {
    GetTake(f, m, n);
  }

  /** The calendar fields of the first `m` timestamps are the first `m` rows of the
      field column. */
  lemma FieldCausal(stamps: seq<Stamp>, k: CalendarField, m: nat)
    ensures Field(TakeStamps(stamps, m), k) == Prefix(Field(stamps, k), m)
  {
  }

  // ---------------------------------------------------------------- calculate_returns, calculate_volatility

  lemma ReturnsCausal(f: Frame, m: nat, target: string, num: Numerics)
    ensures Returns(Take(f, m), target, num) == TakeStep(Returns(f, target, num), m)
  {
    var h := Take(f, m);
    GetCut(f, h, m, target);
    if target in Names(f) {
      var r, r' := PctChange(Get(f, target)), PctChange(Get(h, target));
      PctChangeCausal(Get(f, target), m);
      var g, g' := SetColumn(f, "returns", r), SetColumn(h, "returns", r');
      SetCut(f, h, m, "returns", r, r');
      var c, c' := Get(g, target), Get(g', target);
      GetCut(g, g', m, target);
      ShiftCausal(c, 1, m);
      QuotCausal(c, Shift(c, 1), m);
      MapPresentCausal(Quot(c, Shift(c, 1)), num.log, m);
      SetCut(g, g', m, "log_returns", MapPresent(Quot(c, Shift(c, 1)), num.log), MapPresent(Quot(c', Shift(c', 1)), num.log));
    }
  }

  lemma {:induction false} VolatilityOverCausal(f: Frame, m: nat, windows: seq<nat>, std: seq<real> -> real)
    ensures VolatilityOver(Take(f, m), windows, std) == Take(VolatilityOver(f, windows, std), m)
    decreases |windows|
  {
    if windows != [] {
      var ws, w := windows[..|windows| - 1], windows[|windows| - 1];
      VolatilityOverCausal(f, m, ws, std);
      var g, g' := VolatilityOver(f, ws, std), VolatilityOver(Take(f, m), ws, std);
      GetCut(g, g', m, "returns");
      RollingCausal(Get(g, "returns"), w, m, std);
      SetCut(g, g', m, VolatilityName(w), RollingStd(Get(g, "returns"), w, std), RollingStd(Get(g', "returns"), w, std));
    }
  }

  lemma VolatilityCausal(f: Frame, m: nat, target: string, windows: seq<nat>, num: Numerics)
    ensures Volatility(Take(f, m), target, windows, num) == TakeStep(Volatility(f, target, windows, num), m)
  {
    GetTake(f, m, "returns");
    if "returns" in Names(f) {
      VolatilityOverCausal(f, m, windows, num.std);
    } else {
      ReturnsCausal(f, m, target, num);
      var r := Returns(f, target, num);
      if r.result.Ok? {
        VolatilityOverCausal(r.result.value, m, windows, num.std);
      }
    }
  }

  // ---------------------------------------------------------------- create_lag_features

  /** A lag reads earlier rows; a negative one would read later rows. */
  lemma {:induction false} LagsOfCausal(f: Frame, m: nat, col: string, lags: seq<int>)
    requires forall i :: 0 <= i < |lags| ==> 0 <= lags[i]
    ensures LagsOf(Take(f, m), col, lags) == Take(LagsOf(f, col, lags), m)
    decreases |lags|
  {
    if lags != [] {
      var ks, k := lags[..|lags| - 1], lags[|lags| - 1];
      LagsOfCausal(f, m, col, ks);
      var g, g' := LagsOf(f, col, ks), LagsOf(Take(f, m), col, ks);
      GetCut(g, g', m, col);
      ShiftCausal(Get(g, col), k, m);
      SetCut(g, g', m, LagName(col, k), Shift(Get(g, col), k), Shift(Get(g', col), k));
    }
  }

  lemma {:induction false} LagsCausal(f: Frame, m: nat, cols: seq<string>, lags: seq<int>)
    requires forall i :: 0 <= i < |lags| ==> 0 <= lags[i]
    ensures var s := Lags(f, cols, lags); Lags(Take(f, m), cols, lags) == Stage(Take(s.frame, m), s.added)
    decreases |cols|
  {
    if cols != [] {
      var cs, c := cols[..|cols| - 1], cols[|cols| - 1];
      LagsCausal(f, m, cs, lags);
      var s := Lags(f, cs, lags);
      GetTake(s.frame, m, c);
      if c in Names(s.frame) {
        LagsOfCausal(s.frame, m, c, lags);
      }
    }
  }

  // ---------------------------------------------------------------- create_rolling_features

  /** The mean, deviation, minimum and maximum of one window. */
  lemma RollingStatsCausal(f: Frame, m: nat, target: string, w: nat, std: seq<real> -> real)
    ensures var h := Take(f, m);
      var f1 := SetColumn(f, MaName(w), RollingMean(Get(f, target), w));
      var f2 := SetColumn(f1, StdName(w), RollingStd(Get(f1, target), w, std));
      var f3 := SetColumn(f2, MinName(w), RollingMin(Get(f2, target), w));
      var h1 := SetColumn(h, MaName(w), RollingMean(Get(h, target), w));
      var h2 := SetColumn(h1, StdName(w), RollingStd(Get(h1, target), w, std));
      var h3 := SetColumn(h2, MinName(w), RollingMin(Get(h2, target), w));
      Take(SetColumn(f3, MaxName(w), RollingMax(Get(f3, target), w)), m) == SetColumn(h3, MaxName(w), RollingMax(Get(h3, target), w))
  {
    var h := Take(f, m);
    var f1 := SetColumn(f, MaName(w), RollingMean(Get(f, target), w));
    var h1 := SetColumn(h, MaName(w), RollingMean(Get(h, target), w));
    GetCut(f, h, m, target);
    RollingCausal(Get(f, target), w, m, std);
    SetCut(f, h, m, MaName(w), RollingMean(Get(f, target), w), RollingMean(Get(h, target), w));
    var f2 := SetColumn(f1, StdName(w), RollingStd(Get(f1, target), w, std));
    var h2 := SetColumn(h1, StdName(w), RollingStd(Get(h1, target), w, std));
    GetCut(f1, h1, m, target);
    RollingCausal(Get(f1, target), w, m, std);
    SetCut(f1, h1, m, StdName(w), RollingStd(Get(f1, target), w, std), RollingStd(Get(h1, target), w, std));
    var f3 := SetColumn(f2, MinName(w), RollingMin(Get(f2, target), w));
    var h3 := SetColumn(h2, MinName(w), RollingMin(Get(h2, target), w));
    GetCut(f2, h2, m, target);
    RollingCausal(Get(f2, target), w, m, std);
    SetCut(f2, h2, m, MinName(w), RollingMin(Get(f2, target), w), RollingMin(Get(h2, target), w));
    GetCut(f3, h3, m, target);
    RollingCausal(Get(f3, target), w, m, std);
    SetCut(f3, h3, m, MaxName(w), RollingMax(Get(f3, target), w), RollingMax(Get(h3, target), w));
  }

  /** The Bollinger bands, read back from the frame. */
  lemma BandsCausal(f: Frame, h: Frame, m: nat, w: nat)
    requires Take(f, m) == h
    ensures var f5 := SetColumn(f, UpperName(w), Add(Get(f, MaName(w)), Scale(2.0, Get(f, StdName(w)))));
      var h5 := SetColumn(h, UpperName(w), Add(Get(h, MaName(w)), Scale(2.0, Get(h, StdName(w)))));
      Take(SetColumn(f5, LowerName(w), Sub(Get(f5, MaName(w)), Scale(2.0, Get(f5, StdName(w))))), m)
        == SetColumn(h5, LowerName(w), Sub(Get(h5, MaName(w)), Scale(2.0, Get(h5, StdName(w)))))
  {
    var ma, sd := Get(f, MaName(w)), Get(f, StdName(w));
    GetCut(f, h, m, MaName(w));
    GetCut(f, h, m, StdName(w));
    ScaleCausal(2.0, sd, m);
    AddCausal(ma, Scale(2.0, sd), m);
    var f5 := SetColumn(f, UpperName(w), Add(ma, Scale(2.0, sd)));
    var h5 := SetColumn(h, UpperName(w), Add(Get(h, MaName(w)), Scale(2.0, Get(h, StdName(w)))));
    SetCut(f, h, m, UpperName(w), Add(ma, Scale(2.0, sd)), Add(Get(h, MaName(w)), Scale(2.0, Get(h, StdName(w)))));
    var ma5, sd5 := Get(f5, MaName(w)), Get(f5, StdName(w));
    GetCut(f5, h5, m, MaName(w));
    GetCut(f5, h5, m, StdName(w));
    ScaleCausal(2.0, sd5, m);
    SubCausal(ma5, Scale(2.0, sd5), m);
    SetCut(f5, h5, m, LowerName(w), Sub(ma5, Scale(2.0, sd5)), Sub(Get(h5, MaName(w)), Scale(2.0, Get(h5, StdName(w)))));
  }

  lemma RollingWindowCausal(f: Frame, m: nat, target: string, w: nat, std: seq<real> -> real)
    ensures RollingWindow(Take(f, m), target, w, std) == Take(RollingWindow(f, target, w, std), m)
  {
    var h := Take(f, m);
    var f1 := SetColumn(f, MaName(w), RollingMean(Get(f, target), w));
    var f2 := SetColumn(f1, StdName(w), RollingStd(Get(f1, target), w, std));
    var f3 := SetColumn(f2, MinName(w), RollingMin(Get(f2, target), w));
    var f4 := SetColumn(f3, MaxName(w), RollingMax(Get(f3, target), w));
    var h1 := SetColumn(h, MaName(w), RollingMean(Get(h, target), w));
    var h2 := SetColumn(h1, StdName(w), RollingStd(Get(h1, target), w, std));
    var h3 := SetColumn(h2, MinName(w), RollingMin(Get(h2, target), w));
    var h4 := SetColumn(h3, MaxName(w), RollingMax(Get(h3, target), w));
    RollingStatsCausal(f, m, target, w, std);
    assert Take(f4, m) == h4;
    BandsCausal(f4, h4, m, w);
  }

  lemma {:induction false} RollingOverCausal(f: Frame, m: nat, target: string, windows: seq<nat>, std: seq<real> -> real)
    ensures RollingOver(Take(f, m), target, windows, std) == Take(RollingOver(f, target, windows, std), m)
    decreases |windows|
  {
    if windows != [] {
      var ws := windows[..|windows| - 1];
      RollingOverCausal(f, m, target, ws, std);
      RollingWindowCausal(RollingOver(f, target, ws, std), m, target, windows[|windows| - 1], std);
    }
  }

  lemma RollingStepCausal(f: Frame, m: nat, target: string, windows: seq<nat>, num: Numerics)
    ensures Rolling(Take(f, m), target, windows, num) == TakeStep(Rolling(f, target, windows, num), m)
  {
    GetTake(f, m, target);
    RollingOverCausal(f, m, target, windows, num.std);
  }

  // ---------------------------------------------------------------- create_technical_indicators

  /** RSI, and the MACD line from two exponential means of the target. */
  lemma RsiMacdCausal(f: Frame, m: nat, target: string, num: Numerics)
    ensures var h := Take(f, m);
      var delta, delta' := Diff(Get(f, target)), Diff(Get(h, target));
      var f1 := SetColumn(f, "rsi", Rsi(RollingMean(Gains(delta), RsiWindow), RollingMean(Losses(delta), RsiWindow)));
      var h1 := SetColumn(h, "rsi", Rsi(RollingMean(Gains(delta'), RsiWindow), RollingMean(Losses(delta'), RsiWindow)));
      Take(SetColumn(f1, "macd", Sub(Ewm(Get(f1, target), 12, num.ewm), Ewm(Get(f1, target), 26, num.ewm))), m)
        == SetColumn(h1, "macd", Sub(Ewm(Get(h1, target), 12, num.ewm), Ewm(Get(h1, target), 26, num.ewm)))
  {
    var h := Take(f, m);
    var delta, delta' := Diff(Get(f, target)), Diff(Get(h, target));
    GetCut(f, h, m, target);
    DiffCausal(Get(f, target), m);
    GainsLossesCausal(delta, m);
    RollingCausal(Gains(delta), RsiWindow, m, num.std);
    RollingCausal(Losses(delta), RsiWindow, m, num.std);
    RsiCausal(RollingMean(Gains(delta), RsiWindow), RollingMean(Losses(delta), RsiWindow), m);
    var rsi := Rsi(RollingMean(Gains(delta), RsiWindow), RollingMean(Losses(delta), RsiWindow));
    var rsi' := Rsi(RollingMean(Gains(delta'), RsiWindow), RollingMean(Losses(delta'), RsiWindow));
    SetCut(f, h, m, "rsi", rsi, rsi');
    var f1, h1 := SetColumn(f, "rsi", rsi), SetColumn(h, "rsi", rsi');
    var c := Get(f1, target);
    GetCut(f1, h1, m, target);
    EwmCausal(c, 12, m, num.ewm);
    EwmCausal(c, 26, m, num.ewm);
    SubCausal(Ewm(c, 12, num.ewm), Ewm(c, 26, num.ewm), m);
    SetCut(f1, h1, m, "macd", Sub(Ewm(c, 12, num.ewm), Ewm(c, 26, num.ewm)),
      Sub(Ewm(Get(h1, target), 12, num.ewm), Ewm(Get(h1, target), 26, num.ewm)));
  }

  /** The MACD signal and difference, and the two momenta. */
  lemma SignalMomentumCausal(f: Frame, h: Frame, m: nat, target: string, num: Numerics)
    requires Take(f, m) == h
    ensures var f3 := SetColumn(f, "macd_signal", Ewm(Get(f, "macd"), 9, num.ewm));
      var h3 := SetColumn(h, "macd_signal", Ewm(Get(h, "macd"), 9, num.ewm));
      var f4 := SetColumn(f3, "macd_diff", Sub(Get(f3, "macd"), Get(f3, "macd_signal")));
      var h4 := SetColumn(h3, "macd_diff", Sub(Get(h3, "macd"), Get(h3, "macd_signal")));
      var f5 := SetColumn(f4, "momentum_3", Sub(Get(f4, target), Shift(Get(f4, target), 3)));
      var h5 := SetColumn(h4, "momentum_3", Sub(Get(h4, target), Shift(Get(h4, target), 3)));
      Take(SetColumn(f5, "momentum_5", Sub(Get(f5, target), Shift(Get(f5, target), 5))), m)
        == SetColumn(h5, "momentum_5", Sub(Get(h5, target), Shift(Get(h5, target), 5)))
  {
    GetCut(f, h, m, "macd");
    EwmCausal(Get(f, "macd"), 9, m, num.ewm);
    SetCut(f, h, m, "macd_signal", Ewm(Get(f, "macd"), 9, num.ewm), Ewm(Get(h, "macd"), 9, num.ewm));
    var f3 := SetColumn(f, "macd_signal", Ewm(Get(f, "macd"), 9, num.ewm));
    var h3 := SetColumn(h, "macd_signal", Ewm(Get(h, "macd"), 9, num.ewm));
    GetCut(f3, h3, m, "macd");
    GetCut(f3, h3, m, "macd_signal");
    SubCausal(Get(f3, "macd"), Get(f3, "macd_signal"), m);
    SetCut(f3, h3, m, "macd_diff", Sub(Get(f3, "macd"), Get(f3, "macd_signal")), Sub(Get(h3, "macd"), Get(h3, "macd_signal")));
    var f4 := SetColumn(f3, "macd_diff", Sub(Get(f3, "macd"), Get(f3, "macd_signal")));
    var h4 := SetColumn(h3, "macd_diff", Sub(Get(h3, "macd"), Get(h3, "macd_signal")));
    MomentumCausal(f4, h4, m, target, "momentum_3", 3);
    var f5 := SetColumn(f4, "momentum_3", Sub(Get(f4, target), Shift(Get(f4, target), 3)));
    var h5 := SetColumn(h4, "momentum_3", Sub(Get(h4, target), Shift(Get(h4, target), 3)));
    MomentumCausal(f5, h5, m, target, "momentum_5", 5);
  }

  /** A momentum over `k` rows. */
  lemma MomentumCausal(f: Frame, h: Frame, m: nat, target: string, name: string, k: nat)
    requires Take(f, m) == h
    ensures Take(SetColumn(f, name, Sub(Get(f, target), Shift(Get(f, target), k))), m)
      == SetColumn(h, name, Sub(Get(h, target), Shift(Get(h, target), k)))
  {
    var c := Get(f, target);
    GetCut(f, h, m, target);
    ShiftCausal(c, k, m);
    SubCausal(c, Shift(c, k), m);
    SetCut(f, h, m, name, Sub(c, Shift(c, k)), Sub(Get(h, target), Shift(Get(h, target), k)));
  }

  lemma IndicatorsCausal(f: Frame, m: nat, target: string, num: Numerics)
    ensures Indicators(Take(f, m), target, num) == Take(Indicators(f, target, num), m)
  {
    var h := Take(f, m);
    var delta, delta' := Diff(Get(f, target)), Diff(Get(h, target));
    var f1 := SetColumn(f, "rsi", Rsi(RollingMean(Gains(delta), RsiWindow), RollingMean(Losses(delta), RsiWindow)));
    var h1 := SetColumn(h, "rsi", Rsi(RollingMean(Gains(delta'), RsiWindow), RollingMean(Losses(delta'), RsiWindow)));
    var f2 := SetColumn(f1, "macd", Sub(Ewm(Get(f1, target), 12, num.ewm), Ewm(Get(f1, target), 26, num.ewm)));
    var h2 := SetColumn(h1, "macd", Sub(Ewm(Get(h1, target), 12, num.ewm), Ewm(Get(h1, target), 26, num.ewm)));
    RsiMacdCausal(f, m, target, num);
    assert Take(f2, m) == h2;
    SignalMomentumCausal(f2, h2, m, target, num);
  }

  lemma VolumeCausal(f: Frame, m: nat)
    ensures VolumeColumns(Take(f, m)) == Take(VolumeColumns(f), m)
  {
    var h := Take(f, m);
    GetCut(f, h, m, "volume");
    RollingCausal(Get(f, "volume"), 5, m, x => 0.0);
    SetCut(f, h, m, "volume_ma_5", RollingMean(Get(f, "volume"), 5), RollingMean(Get(h, "volume"), 5));
    var f1, h1 := SetColumn(f, "volume_ma_5", RollingMean(Get(f, "volume"), 5)), SetColumn(h, "volume_ma_5", RollingMean(Get(h, "volume"), 5));
    GetCut(f1, h1, m, "volume");
    RollingCausal(Get(f1, "volume"), 10, m, x => 0.0);
    SetCut(f1, h1, m, "volume_ma_10", RollingMean(Get(f1, "volume"), 10), RollingMean(Get(h1, "volume"), 10));
    var f2, h2 := SetColumn(f1, "volume_ma_10", RollingMean(Get(f1, "volume"), 10)), SetColumn(h1, "volume_ma_10", RollingMean(Get(h1, "volume"), 10));
    GetCut(f2, h2, m, "volume");
    GetCut(f2, h2, m, "volume_ma_10");
    QuotCausal(Get(f2, "volume"), Get(f2, "volume_ma_10"), m);
    SetCut(f2, h2, m, "volume_ratio", Quot(Get(f2, "volume"), Get(f2, "volume_ma_10")), Quot(Get(h2, "volume"), Get(h2, "volume_ma_10")));
  }

  lemma TechnicalCausal(f: Frame, m: nat, target: string, num: Numerics)
    ensures Technical(Take(f, m), target, num) == TakeStep(Technical(f, target, num), m)
  {
    GetTake(f, m, target);
    if target in Names(f) {
      IndicatorsCausal(f, m, target, num);
      var g := Indicators(f, target, num);
      GetTake(g, m, "volume");
      VolumeCausal(g, m);
    }
  }

  // ---------------------------------------------------------------- create_time_features

  /** The first `m` rows of a constant column. */
  lemma ConstantCausal(n: nat, v: real, m: nat)
    ensures Prefix(Constant(n, v), m) == Constant(if m <= n then m else n, v)
  {
  }

  /** When no timestamp of a stretch has an hour, its hour column is the default 0 and
      its encodings, under `sin(0) = 0` and `cos(0) = 1`, the defaults 0.0 and 1.0. */
  lemma MidnightColumns(stamps: seq<Stamp>, num: Numerics)
    requires forall t :: 0 <= t < |stamps| ==> stamps[t].hour == 0
    requires num.sinTurn(0.0) == 0.0 && num.cosTurn(0.0) == 1.0
    ensures Field(stamps, HourOf) == Constant(|stamps|, 0.0)
    ensures MapPresent(Constant(|stamps|, 0.0), Turns(num.sinTurn, 24.0)) == Constant(|stamps|, 0.0)
    ensures MapPresent(Constant(|stamps|, 0.0), Turns(num.cosTurn, 24.0)) == Constant(|stamps|, 1.0)
  {
    assert 0.0 / 24.0 == 0.0;
  }

  /** When rows after `m` carry the first hour, the cut frame takes the default branch;
      the two branches agree on its rows. */
  lemma HourColumnsCausal(f: Frame, m: nat, num: Numerics)
    requires num.sinTurn(0.0) == 0.0 && num.cosTurn(0.0) == 1.0
    ensures HourColumns(Take(f, m), num) == Take(HourColumns(f, num), m)
  {
    var h := Take(f, m);
    var n, n' := Rows(f), Rows(h);
    if HasHour(f.index) {
      var stamps, stamps' := f.index.stamps, h.index.stamps;
      assert stamps' == TakeStamps(stamps, m);
      FieldCausal(stamps, HourOf, m);
      var hour, hour' := Field(stamps, HourOf), Field(stamps', HourOf);
      SetCut(f, h, m, "hour", hour, hour');
      var f1, h1 := SetColumn(f, "hour", hour), SetColumn(h, "hour", hour');
      GetCut(f1, h1, m, "hour");
      MapPresentCausal(Get(f1, "hour"), Turns(num.sinTurn, 24.0), m);
      var sin, sin' := MapPresent(Get(f1, "hour"), Turns(num.sinTurn, 24.0)), MapPresent(Get(h1, "hour"), Turns(num.sinTurn, 24.0));
      SetCut(f1, h1, m, "hour_sin", sin, sin');
      var f2, h2 := SetColumn(f1, "hour_sin", sin), SetColumn(h1, "hour_sin", sin');
      GetCut(f2, h2, m, "hour");
      MapPresentCausal(Get(f2, "hour"), Turns(num.cosTurn, 24.0), m);
      var cos, cos' := MapPresent(Get(f2, "hour"), Turns(num.cosTurn, 24.0)), MapPresent(Get(h2, "hour"), Turns(num.cosTurn, 24.0));
      SetCut(f2, h2, m, "hour_cos", cos, cos');
      if !HasHour(h.index) {
        MidnightColumns(stamps', num);
        GetSet(h, "hour", hour', "hour");
        GetSet(h1, "hour_sin", sin', "hour");
      }
    } else {
      ConstantCausal(n, 0.0, m);
      ConstantCausal(n, 1.0, m);
      SetCut(f, h, m, "hour", Constant(n, 0.0), Constant(n', 0.0));
      var f1, h1 := SetColumn(f, "hour", Constant(n, 0.0)), SetColumn(h, "hour", Constant(n', 0.0));
      SetCut(f1, h1, m, "hour_sin", Constant(n, 0.0), Constant(n', 0.0));
      var f2, h2 := SetColumn(f1, "hour_sin", Constant(n, 0.0)), SetColumn(h1, "hour_sin", Constant(n', 0.0));
      SetCut(f2, h2, m, "hour_cos", Constant(n, 1.0), Constant(n', 1.0));
    }
  }

  /** The day of week, day of month, month and quarter. */
  lemma DateFieldsCausal(f: Frame, h: Frame, m: nat, stamps: seq<Stamp>)
    requires Take(f, m) == h
    ensures var s' := TakeStamps(stamps, m);
      var f1 := SetColumn(f, "day_of_week", Field(stamps, DayOfWeekOf));
      var f2 := SetColumn(f1, "day_of_month", Field(stamps, DayOf));
      var f3 := SetColumn(f2, "month", Field(stamps, MonthOf));
      var h1 := SetColumn(h, "day_of_week", Field(s', DayOfWeekOf));
      var h2 := SetColumn(h1, "day_of_month", Field(s', DayOf));
      var h3 := SetColumn(h2, "month", Field(s', MonthOf));
      Take(SetColumn(f3, "quarter", Field(stamps, QuarterOf)), m) == SetColumn(h3, "quarter", Field(s', QuarterOf))
  {
    var s' := TakeStamps(stamps, m);
    FieldCausal(stamps, DayOfWeekOf, m);
    FieldCausal(stamps, DayOf, m);
    FieldCausal(stamps, MonthOf, m);
    FieldCausal(stamps, QuarterOf, m);
    SetCut(f, h, m, "day_of_week", Field(stamps, DayOfWeekOf), Field(s', DayOfWeekOf));
    var f1, h1 := SetColumn(f, "day_of_week", Field(stamps, DayOfWeekOf)), SetColumn(h, "day_of_week", Field(s', DayOfWeekOf));
    SetCut(f1, h1, m, "day_of_month", Field(stamps, DayOf), Field(s', DayOf));
    var f2, h2 := SetColumn(f1, "day_of_month", Field(stamps, DayOf)), SetColumn(h1, "day_of_month", Field(s', DayOf));
    SetCut(f2, h2, m, "month", Field(stamps, MonthOf), Field(s', MonthOf));
    var f3, h3 := SetColumn(f2, "month", Field(stamps, MonthOf)), SetColumn(h2, "month", Field(s', MonthOf));
    SetCut(f3, h3, m, "quarter", Field(stamps, QuarterOf), Field(s', QuarterOf));
  }

  /** The cyclical day-of-week encodings, read back from the frame. */
  lemma DayTurnsCausal(f: Frame, h: Frame, m: nat, num: Numerics)
    requires Take(f, m) == h
    ensures var f5 := SetColumn(f, "day_sin", MapPresent(Get(f, "day_of_week"), Turns(num.sinTurn, 7.0)));
      var h5 := SetColumn(h, "day_sin", MapPresent(Get(h, "day_of_week"), Turns(num.sinTurn, 7.0)));
      Take(SetColumn(f5, "day_cos", MapPresent(Get(f5, "day_of_week"), Turns(num.cosTurn, 7.0))), m)
        == SetColumn(h5, "day_cos", MapPresent(Get(h5, "day_of_week"), Turns(num.cosTurn, 7.0)))
  {
    GetCut(f, h, m, "day_of_week");
    MapPresentCausal(Get(f, "day_of_week"), Turns(num.sinTurn, 7.0), m);
    var sin, sin' := MapPresent(Get(f, "day_of_week"), Turns(num.sinTurn, 7.0)), MapPresent(Get(h, "day_of_week"), Turns(num.sinTurn, 7.0));
    SetCut(f, h, m, "day_sin", sin, sin');
    var f5, h5 := SetColumn(f, "day_sin", sin), SetColumn(h, "day_sin", sin');
    GetCut(f5, h5, m, "day_of_week");
    MapPresentCausal(Get(f5, "day_of_week"), Turns(num.cosTurn, 7.0), m);
    SetCut(f5, h5, m, "day_cos", MapPresent(Get(f5, "day_of_week"), Turns(num.cosTurn, 7.0)), MapPresent(Get(h5, "day_of_week"), Turns(num.cosTurn, 7.0)));
  }

  lemma CalendarCausal(f: Frame, m: nat, stamps: seq<Stamp>, num: Numerics)
    ensures CalendarColumns(Take(f, m), TakeStamps(stamps, m), num) == Take(CalendarColumns(f, stamps, num), m)
  {
    var h, s' := Take(f, m), TakeStamps(stamps, m);
    var f1 := SetColumn(f, "day_of_week", Field(stamps, DayOfWeekOf));
    var f2 := SetColumn(f1, "day_of_month", Field(stamps, DayOf));
    var f3 := SetColumn(f2, "month", Field(stamps, MonthOf));
    var f4 := SetColumn(f3, "quarter", Field(stamps, QuarterOf));
    var h1 := SetColumn(h, "day_of_week", Field(s', DayOfWeekOf));
    var h2 := SetColumn(h1, "day_of_month", Field(s', DayOf));
    var h3 := SetColumn(h2, "month", Field(s', MonthOf));
    var h4 := SetColumn(h3, "quarter", Field(s', QuarterOf));
    DateFieldsCausal(f, h, m, stamps);
    assert Take(f4, m) == h4;
    DayTurnsCausal(f4, h4, m, num);
  }

  lemma TimeCausal(f: Frame, m: nat, num: Numerics)
    requires num.sinTurn(0.0) == 0.0 && num.cosTurn(0.0) == 1.0
    ensures Time(Take(f, m), num) == TakeStep(Time(f, num), m)
  {
    HourColumnsCausal(f, m, num);
    var g := HourColumns(f, num);
    if g.index.DatetimeIndex? {
      assert Take(g, m).index == DatetimeIndex(TakeStamps(g.index.stamps, m));
      CalendarCausal(g, m, g.index.stamps, num);
    }
  }

  // ---------------------------------------------------------------- transform

  /** The indicator and time steps of `transform`, with the names they append. */
  function LateSteps(g: Frame, target: string, num: Numerics): Step
  {
    var s5 := Technical(g, target, num);
    if s5.result.Err? then s5 else
    var s6 := Time(s5.result.value, num);
    Step(s6.result, s5.added + s6.added)
  }

  /** The lag and rolling steps, then the late ones. */
  function MiddleSteps(g: Frame, target: string, windows: seq<nat>, lagCols: seq<string>, lags: seq<int>, num: Numerics): Step
  {
    var s3 := Lags(g, lagCols, lags);
    var s4 := Rolling(s3.frame, target, windows, num);
    if s4.result.Err? then Step(s4.result, s3.added + s4.added) else
    var s := LateSteps(s4.result.value, target, num);
    Step(s.result, s3.added + s4.added + s.added)
  }

  lemma AddedAssoc(a: seq<string>, b: seq<string>, c: seq<string>, d: seq<string>, e: seq<string>)
    ensures a + b + c == a + (b + c)
    ensures a + b + c + d == a + (b + c + d)
    ensures a + b + c + d + e == a + (b + c + (d + e))
  {
  }

  /** `Features` is the first two steps, then the middle ones. */
  lemma FeaturesSplit(f: Frame, target: string, windows: seq<nat>, lagCols: seq<string>, lags: seq<int>, num: Numerics)
    ensures var s1 := Returns(f, target, num);
      Features(f, target, windows, lagCols, lags, num) ==
        if s1.result.Err? then s1 else
        var s2 := Volatility(s1.result.value, target, windows, num);
        if s2.result.Err? then Step(s2.result, s1.added + s2.added) else
        var s := MiddleSteps(s2.result.value, target, windows, lagCols, lags, num);
        Step(s.result, s1.added + s2.added + s.added)
  {
    var s1 := Returns(f, target, num);
    if s1.result.Ok? {
      var s2 := Volatility(s1.result.value, target, windows, num);
      if s2.result.Ok? {
        var s3 := Lags(s2.result.value, lagCols, lags);
        var s4 := Rolling(s3.frame, target, windows, num);
        if s4.result.Ok? {
          var s5 := Technical(s4.result.value, target, num);
          if s5.result.Ok? {
            var s6 := Time(s5.result.value, num);
            AddedAssoc(s1.added + s2.added, s3.added, s4.added, s5.added, s6.added);
          } else {
            AddedAssoc(s1.added + s2.added, s3.added, s4.added, s5.added, []);
          }
        } else {
          AddedAssoc(s1.added + s2.added, s3.added, s4.added, [], []);
        }
      }
    }
  }

  lemma LateStepsCausal(g: Frame, m: nat, target: string, num: Numerics)
    requires num.sinTurn(0.0) == 0.0 && num.cosTurn(0.0) == 1.0
    ensures LateSteps(Take(g, m), target, num) == TakeStep(LateSteps(g, target, num), m)
  {
    TechnicalCausal(g, m, target, num);
    var s5 := Technical(g, target, num);
    if s5.result.Ok? {
      TimeCausal(s5.result.value, m, num);
    }
  }

  lemma MiddleStepsCausal(g: Frame, m: nat, target: string, windows: seq<nat>, lagCols: seq<string>, lags: seq<int>, num: Numerics)
    requires forall i :: 0 <= i < |lags| ==> 0 <= lags[i]
    requires num.sinTurn(0.0) == 0.0 && num.cosTurn(0.0) == 1.0
    ensures MiddleSteps(Take(g, m), target, windows, lagCols, lags, num) == TakeStep(MiddleSteps(g, target, windows, lagCols, lags, num), m)
  {
    LagsCausal(g, m, lagCols, lags);
    var s3 := Lags(g, lagCols, lags);
    RollingStepCausal(s3.frame, m, target, windows, num);
    var s4 := Rolling(s3.frame, target, windows, num);
    if s4.result.Ok? {
      LateStepsCausal(s4.result.value, m, target, num);
    }
  }

  /** The feature steps of `transform`, run on the first `m` rows of a frame, raise when
      they raise on the whole frame, append the same names, and otherwise give the first
      `m` rows of the frame they give on the whole frame. This needs the lags to be
      non-negative, and the hour encodings to agree with the defaults at midnight. */
  lemma FeaturesCausal(f: Frame, m: nat, target: string, windows: seq<nat>, lagCols: seq<string>, lags: seq<int>, num: Numerics)
    requires forall i :: 0 <= i < |lags| ==> 0 <= lags[i]
    requires num.sinTurn(0.0) == 0.0 && num.cosTurn(0.0) == 1.0
    ensures Features(Take(f, m), target, windows, lagCols, lags, num) == TakeStep(Features(f, target, windows, lagCols, lags, num), m)
  {
    FeaturesSplit(f, target, windows, lagCols, lags, num);
    FeaturesSplit(Take(f, m), target, windows, lagCols, lags, num);
    ReturnsCausal(f, m, target, num);
    var s1 := Returns(f, target, num);
    if s1.result.Ok? {
      VolatilityCausal(s1.result.value, m, target, windows, num);
      var s2 := Volatility(s1.result.value, target, windows, num);
      if s2.result.Ok? {
        MiddleStepsCausal(s2.result.value, m, target, windows, lagCols, lags, num);
      }
    }
  }

  /** With the lags `transform` passes, only the midnight encodings are required. */
  lemma TransformFeaturesCausal(f: Frame, m: nat, target: string, num: Numerics)
    requires num.sinTurn(0.0) == 0.0 && num.cosTurn(0.0) == 1.0
    ensures Features(Take(f, m), target, DefaultWindows, LagSources, DefaultLags, num)
      == TakeStep(Features(f, target, DefaultWindows, LagSources, DefaultLags, num), m)
  {
    FeaturesCausal(f, m, target, DefaultWindows, LagSources, DefaultLags, num);
  }

  /** Every column of the features of the first `m` rows, the appended ones included,
      is the first `m` rows of that column of the features of the whole frame. */
  lemma FeatureColumnCausal(f: Frame, m: nat, target: string, windows: seq<nat>, lagCols: seq<string>, lags: seq<int>, num: Numerics, n: string)
    requires forall i :: 0 <= i < |lags| ==> 0 <= lags[i]
    requires num.sinTurn(0.0) == 0.0 && num.cosTurn(0.0) == 1.0
    ensures var s, s' := Features(f, target, windows, lagCols, lags, num), Features(Take(f, m), target, windows, lagCols, lags, num);
      s'.added == s.added && s'.result.Ok? == s.result.Ok? &&
      (s.result.Ok? ==> Names(s'.result.value) == Names(s.result.value) &&
                        Get(s'.result.value, n) == Prefix(Get(s.result.value, n), m))
  {
    FeaturesCausal(f, m, target, windows, lagCols, lags, num);
    var s := Features(f, target, windows, lagCols, lags, num);
    if s.result.Ok? {
      GetTake(s.result.value, m, n);
    }
  }
}
