/** The feature pipeline of `StockDataTransformer`, one function per step. Each step
    works on a copy of its input frame (a Dafny value) and reports, besides the new
    frame or the error it stops with, the feature names it appends, in order. */
module Transform {
  import opened Wrappers
  import opened Text
  import opened Series
  import opened Frames

  /** The floating-point routines the pipeline calls and whose numeric values the model
      does not fix: the sample deviation of a window, the natural logarithm (NaN or an
      infinity outside the positive reals), the `span`-weighted exponential mean of a
      column's rows up to the current one, and `x -> sin(2*pi*x)`, `x -> cos(2*pi*x)`. */
  datatype Numerics = Numerics(
    std: seq<real> -> real,
    log: real -> Option<real>,
    ewm: (nat, Col) -> Option<real>,
    sinTurn: real -> real,
    cosTurn: real -> real)

  /** What makes a step raise: a `KeyError` for a column it reads, or the
      `AttributeError` of asking an index without calendar fields for `dayofweek`. */
  datatype TransformError = MissingColumn(name: string) | NoCalendar

  /** The outcome of a step that can raise, with the names it appended to
      `feature_names` before it returned or raised. */
  datatype Step = Step(result: Result<Frame, TransformError>, added: seq<string>)

  /** The frame and appended names of a step that cannot raise. */
  datatype Stage = Stage(frame: Frame, added: seq<string>)

  const DefaultTarget := "close"
  const DefaultWindows: seq<nat> := [3, 5, 10]
  const DefaultLags: seq<int> := [1, 2, 3]
  const LagSources: seq<string> := ["close", "returns", "volume"]
  const DefaultHorizon := 1
  const RsiWindow: nat := 7

  const ReturnNames: seq<string> := ["returns", "log_returns"]
  const VolumeNames: seq<string> := ["volume_ma_5", "volume_ma_10", "volume_ratio"]
  const IndicatorNames: seq<string> := ["rsi", "macd", "macd_signal", "macd_diff", "momentum_3", "momentum_5"]
  const HourNames: seq<string> := ["hour", "hour_sin", "hour_cos"]
  const CalendarNames: seq<string> := ["day_of_week", "day_of_month", "month", "quarter", "day_sin", "day_cos"]
  /** The columns `create_target_variable` writes; they are not features. */
  const TargetNames: seq<string> := ["future_returns", "target_volatility", "target_realized_vol"]

  // ---------------------------------------------------------------- calculate_returns

  /** `returns` is the percent change of the target column and `log_returns` the log of
      its ratio to the previous row, read back from the frame that already holds
      `returns`. */
  function Returns(f: Frame, target: string, num: Numerics): Step
  {
    if target !in Names(f) then Step(Err(MissingColumn(target)), [])
    else
      var g := SetColumn(f, "returns", PctChange(Get(f, target)));
      var c := Get(g, target);
      Step(Ok(SetColumn(g, "log_returns", MapPresent(Quot(c, Shift(c, 1)), num.log))), ReturnNames)
  }

  // ---------------------------------------------------------------- calculate_volatility

  function VolatilityName(w: nat): string
  {
    "volatility_" + NatToString(w)
  }

  function VolatilityNames(windows: seq<nat>): seq<string>
  {
    if windows == [] then [] else VolatilityNames(windows[..|windows| - 1]) + [VolatilityName(windows[|windows| - 1])]
  }

  /** One `volatility_<w>` column per window, in window order. */
  function VolatilityOver(f: Frame, windows: seq<nat>, std: seq<real> -> real): Frame
  {
    if windows == [] then f
    else
      var g := VolatilityOver(f, windows[..|windows| - 1], std);
      var w := windows[|windows| - 1];
      SetColumn(g, VolatilityName(w), RollingStd(Get(g, "returns"), w, std))
  }

  /** The returns are computed first when the frame has no `returns` column. */
  function Volatility(f: Frame, target: string, windows: seq<nat>, num: Numerics): Step
  {
    if "returns" in Names(f) then Step(Ok(VolatilityOver(f, windows, num.std)), VolatilityNames(windows))
    else
      var r := Returns(f, target, num);
      if r.result.Err? then r
      else Step(Ok(VolatilityOver(r.result.value, windows, num.std)), r.added + VolatilityNames(windows))
  }

  lemma VolatilitySnoc(f: Frame, windows: seq<nat>, i: nat, std: seq<real> -> real)
    requires i < |windows|
    ensures var g := VolatilityOver(f, windows[..i], std); var w := windows[i];
      VolatilityOver(f, windows[..i + 1], std) == SetColumn(g, VolatilityName(w), RollingStd(Get(g, "returns"), w, std))
    ensures VolatilityNames(windows[..i + 1]) == VolatilityNames(windows[..i]) + [VolatilityName(windows[i])]
  {
    assert windows[..i + 1][..i] == windows[..i];
  }

  // ---------------------------------------------------------------- create_lag_features

  function LagName(col: string, lag: int): string
  {
    col + "_lag_" + IntToString(lag)
  }

  function LagNames(col: string, lags: seq<int>): seq<string>
  {
    if lags == [] then [] else LagNames(col, lags[..|lags| - 1]) + [LagName(col, lags[|lags| - 1])]
  }

  /** The lags of one column, in lag order. */
  function LagsOf(f: Frame, col: string, lags: seq<int>): Frame
  {
    if lags == [] then f
    else
      var g := LagsOf(f, col, lags[..|lags| - 1]);
      var k := lags[|lags| - 1];
      SetColumn(g, LagName(col, k), Shift(Get(g, col), k))
  }

  lemma LagsOfSnoc(f: Frame, col: string, lags: seq<int>, j: nat)
    requires j < |lags|
    ensures var g := LagsOf(f, col, lags[..j]); var k := lags[j];
      LagsOf(f, col, lags[..j + 1]) == SetColumn(g, LagName(col, k), Shift(Get(g, col), k))
    ensures LagNames(col, lags[..j + 1]) == LagNames(col, lags[..j]) + [LagName(col, lags[j])]
  {
    assert lags[..j + 1][..j] == lags[..j];
  }

  lemma LagsSnoc(f: Frame, cols: seq<string>, lags: seq<int>, i: nat)
    requires i < |cols|
    ensures var s := Lags(f, cols[..i], lags); var c := cols[i];
      Lags(f, cols[..i + 1], lags) == if c in Names(s.frame) then Stage(LagsOf(s.frame, c, lags), s.added + LagNames(c, lags)) else s
  {
    assert cols[..i + 1][..i] == cols[..i];
  }

  /** Columns in order; a column absent from the frame built so far is skipped. */
  function Lags(f: Frame, cols: seq<string>, lags: seq<int>): Stage
  {
    if cols == [] then Stage(f, [])
    else
      var s := Lags(f, cols[..|cols| - 1], lags);
      var c := cols[|cols| - 1];
      if c in Names(s.frame) then Stage(LagsOf(s.frame, c, lags), s.added + LagNames(c, lags)) else s
  }

  // ---------------------------------------------------------------- create_rolling_features

  function MaName(w: nat): string { "close_ma_" + NatToString(w) }
  function StdName(w: nat): string { "close_std_" + NatToString(w) }
  function MinName(w: nat): string { "close_min_" + NatToString(w) }
  function MaxName(w: nat): string { "close_max_" + NatToString(w) }
  function UpperName(w: nat): string { "bb_upper_" + NatToString(w) }
  function LowerName(w: nat): string { "bb_lower_" + NatToString(w) }

  function WindowNames(w: nat): seq<string>
  {
    [MaName(w), StdName(w), MinName(w), MaxName(w), UpperName(w), LowerName(w)]
  }

  function RollingNames(windows: seq<nat>): seq<string>
  {
    if windows == [] then [] else RollingNames(windows[..|windows| - 1]) + WindowNames(windows[|windows| - 1])
  }

  /** The six columns of one window; every statement reads the frame as the previous
      ones left it, and the bands read the mean and deviation back from it. */
  function RollingWindow(f: Frame, target: string, w: nat, std: seq<real> -> real): Frame
  {
    var f1 := SetColumn(f, MaName(w), RollingMean(Get(f, target), w));
    var f2 := SetColumn(f1, StdName(w), RollingStd(Get(f1, target), w, std));
    var f3 := SetColumn(f2, MinName(w), RollingMin(Get(f2, target), w));
    var f4 := SetColumn(f3, MaxName(w), RollingMax(Get(f3, target), w));
    var f5 := SetColumn(f4, UpperName(w), Add(Get(f4, MaName(w)), Scale(2.0, Get(f4, StdName(w)))));
    SetColumn(f5, LowerName(w), Sub(Get(f5, MaName(w)), Scale(2.0, Get(f5, StdName(w)))))
  }

  function RollingOver(f: Frame, target: string, windows: seq<nat>, std: seq<real> -> real): Frame
  {
    if windows == [] then f
    else RollingWindow(RollingOver(f, target, windows[..|windows| - 1], std), target, windows[|windows| - 1], std)
  }

  lemma RollingWindowKeeps(f: Frame, target: string, w: nat, std: seq<real> -> real, n: string)
    ensures n in Names(f) ==> n in Names(RollingWindow(f, target, w, std))
  {
    var f1 := SetColumn(f, MaName(w), RollingMean(Get(f, target), w));
    var f2 := SetColumn(f1, StdName(w), RollingStd(Get(f1, target), w, std));
    var f3 := SetColumn(f2, MinName(w), RollingMin(Get(f2, target), w));
    var f4 := SetColumn(f3, MaxName(w), RollingMax(Get(f3, target), w));
    var f5 := SetColumn(f4, UpperName(w), Add(Get(f4, MaName(w)), Scale(2.0, Get(f4, StdName(w)))));
    SetKeeps(f, MaName(w), RollingMean(Get(f, target), w), n);
    SetKeeps(f1, StdName(w), RollingStd(Get(f1, target), w, std), n);
    SetKeeps(f2, MinName(w), RollingMin(Get(f2, target), w), n);
    SetKeeps(f3, MaxName(w), RollingMax(Get(f3, target), w), n);
    SetKeeps(f4, UpperName(w), Add(Get(f4, MaName(w)), Scale(2.0, Get(f4, StdName(w)))), n);
    SetKeeps(f5, LowerName(w), Sub(Get(f5, MaName(w)), Scale(2.0, Get(f5, StdName(w)))), n);
  }

  lemma RollingSnoc(f: Frame, target: string, windows: seq<nat>, i: nat, std: seq<real> -> real)
    requires i < |windows|
    ensures RollingOver(f, target, windows[..i + 1], std) == RollingWindow(RollingOver(f, target, windows[..i], std), target, windows[i], std)
    ensures RollingNames(windows[..i + 1]) == RollingNames(windows[..i]) + WindowNames(windows[i])
  {
    assert windows[..i + 1][..i] == windows[..i];
  }

  /** A missing target raises at the first window, before any name is appended. */
  function Rolling(f: Frame, target: string, windows: seq<nat>, num: Numerics): Step
  {
    if windows != [] && target !in Names(f) then Step(Err(MissingColumn(target)), [])
    else Step(Ok(RollingOver(f, target, windows, num.std)), RollingNames(windows))
  }

  // ---------------------------------------------------------------- create_technical_indicators

  /** The three volume columns, each reading the frame the previous one left. */
  function VolumeColumns(f: Frame): Frame
  {
    var f1 := SetColumn(f, "volume_ma_5", RollingMean(Get(f, "volume"), 5));
    var f2 := SetColumn(f1, "volume_ma_10", RollingMean(Get(f1, "volume"), 10));
    SetColumn(f2, "volume_ratio", Quot(Get(f2, "volume"), Get(f2, "volume_ma_10")))
  }

  /** RSI over 7 rows, MACD, its signal and difference, and two momenta, each reading
      the frame the previous one left. */
  function Indicators(f: Frame, target: string, num: Numerics): Frame
  {
    var delta := Diff(Get(f, target));
    var gain := RollingMean(Gains(delta), RsiWindow);
    var loss := RollingMean(Losses(delta), RsiWindow);
    var f1 := SetColumn(f, "rsi", Rsi(gain, loss));
    var exp1 := Ewm(Get(f1, target), 12, num.ewm);
    var exp2 := Ewm(Get(f1, target), 26, num.ewm);
    var f2 := SetColumn(f1, "macd", Sub(exp1, exp2));
    var f3 := SetColumn(f2, "macd_signal", Ewm(Get(f2, "macd"), 9, num.ewm));
    var f4 := SetColumn(f3, "macd_diff", Sub(Get(f3, "macd"), Get(f3, "macd_signal")));
    var f5 := SetColumn(f4, "momentum_3", Sub(Get(f4, target), Shift(Get(f4, target), 3)));
    SetColumn(f5, "momentum_5", Sub(Get(f5, target), Shift(Get(f5, target), 5)))
  }

  /** The indicators, and the volume columns when there is a volume column; the volume
      names come first. */
  function Technical(f: Frame, target: string, num: Numerics): Step
  {
    if target !in Names(f) then Step(Err(MissingColumn(target)), [])
    else
      var f6 := Indicators(f, target, num);
      if "volume" in Names(f6) then Step(Ok(VolumeColumns(f6)), VolumeNames + IndicatorNames)
      else Step(Ok(f6), IndicatorNames)
  }

  // ---------------------------------------------------------------- create_time_features

  /** `hasattr(df.index, 'hour') and (df.index.hour != 0).any()` */
  predicate HasHour(i: Index)
  {
    i.DatetimeIndex? && exists t :: 0 <= t < |i.stamps| && i.stamps[t].hour != 0
  }

  function Constant(n: nat, v: real): Col
  {
    seq(n, _ => Some(v))
  }

  /** The calendar fields pandas derives from a timestamp. */
  datatype CalendarField = HourOf | DayOfWeekOf | DayOf | MonthOf | QuarterOf

  function FieldOf(s: Stamp, k: CalendarField): nat
  {
    match k
    case HourOf => s.hour
    case DayOfWeekOf => s.dayOfWeek
    case DayOf => s.day
    case MonthOf => s.month
    case QuarterOf => s.quarter
  }

  /** `df.index.hour`, `df.index.dayofweek`, ... as a column. */
  function Field(stamps: seq<Stamp>, k: CalendarField): Col
  {
    seq(|stamps|, t requires 0 <= t < |stamps| => Some(FieldOf(stamps[t], k) as real))
  }

  /** `g(x / period)` for a present cell `x`: the cyclical encodings. */
  function Turns(g: real -> real, period: real): real -> Option<real>
    requires period != 0.0
  {
    x => Some(g(x / period))
  }

  /** The hour of each row and its cyclical encoding, or the defaults 0, 0.0 and 1.0
      when no timestamp has an hour. */
  function HourColumns(f: Frame, num: Numerics): Frame
  {
    if HasHour(f.index) then
      var f1 := SetColumn(f, "hour", Field(f.index.stamps, HourOf));
      var f2 := SetColumn(f1, "hour_sin", MapPresent(Get(f1, "hour"), Turns(num.sinTurn, 24.0)));
      SetColumn(f2, "hour_cos", MapPresent(Get(f2, "hour"), Turns(num.cosTurn, 24.0)))
    else
      var n := Rows(f);
      SetColumn(SetColumn(SetColumn(f, "hour", Constant(n, 0.0)), "hour_sin", Constant(n, 0.0)), "hour_cos", Constant(n, 1.0))
  }

  function CalendarColumns(f: Frame, stamps: seq<Stamp>, num: Numerics): Frame
  {
    var f1 := SetColumn(f, "day_of_week", Field(stamps, DayOfWeekOf));
    var f2 := SetColumn(f1, "day_of_month", Field(stamps, DayOf));
    var f3 := SetColumn(f2, "month", Field(stamps, MonthOf));
    var f4 := SetColumn(f3, "quarter", Field(stamps, QuarterOf));
    var f5 := SetColumn(f4, "day_sin", MapPresent(Get(f4, "day_of_week"), Turns(num.sinTurn, 7.0)));
    SetColumn(f5, "day_cos", MapPresent(Get(f5, "day_of_week"), Turns(num.cosTurn, 7.0)))
  }

  /** The hour names are appended in both branches; an index without calendar fields
      then raises before the calendar columns. */
  function Time(f: Frame, num: Numerics): Step
  {
    var g := HourColumns(f, num);
    match g.index
    case OtherIndex(_) => Step(Err(NoCalendar), HourNames)
    case DatetimeIndex(stamps) => Step(Ok(CalendarColumns(g, stamps, num)), HourNames + CalendarNames)
  }

  // ---------------------------------------------------------------- create_target_variable

  /** Returns `horizon` rows ahead, their absolute value, and the realized deviation over
      the `horizon` rows ahead (a copy of the absolute value for a horizon of one). */
  function Target(f: Frame, horizon: int, std: seq<real> -> real): Step
  {
    if "returns" !in Names(f) then Step(Err(MissingColumn("returns")), [])
    else
      var f1 := SetColumn(f, "future_returns", Shift(Get(f, "returns"), -horizon));
      var f2 := SetColumn(f1, "target_volatility", Abs(Get(f1, "future_returns")));
      var realized := if horizon > 1 then RollingStd(Shift(Get(f2, "returns"), -horizon), horizon as nat, std)
                      else Get(f2, "target_volatility");
      Step(Ok(SetColumn(f2, "target_realized_vol", realized)), [])
  }

  // ---------------------------------------------------------------- transform

  /** The steps of `transform` before `dropna`, with the window, lag and horizon
      arguments it passes; the names of all steps that ran are kept when one raises. */
  function Features(f: Frame, target: string, windows: seq<nat>, lagCols: seq<string>, lags: seq<int>, num: Numerics): Step
  {
    var s1 := Returns(f, target, num);
    if s1.result.Err? then s1 else
    var s2 := Volatility(s1.result.value, target, windows, num);
    if s2.result.Err? then Step(s2.result, s1.added + s2.added) else
    var s3 := Lags(s2.result.value, lagCols, lags);
    var s4 := Rolling(s3.frame, target, windows, num);
    if s4.result.Err? then Step(s4.result, s1.added + s2.added + s3.added + s4.added) else
    var s5 := Technical(s4.result.value, target, num);
    if s5.result.Err? then Step(s5.result, s1.added + s2.added + s3.added + s4.added + s5.added) else
    var s6 := Time(s5.result.value, num);
    Step(s6.result, s1.added + s2.added + s3.added + s4.added + s5.added + s6.added)
  }

  /** The targets are added to the features and the rows with a NaN anywhere dropped. */
  function Pipeline(f: Frame, target: string, horizon: int, windows: seq<nat>, lagCols: seq<string>, lags: seq<int>, num: Numerics): Step
  {
    var s := Features(f, target, windows, lagCols, lags, num);
    if s.result.Err? then s else
    var t := Target(s.result.value, horizon, num.std);
    if t.result.Err? then Step(t.result, s.added) else Step(Ok(DropNa(t.result.value)), s.added)
  }

  /** `transform(df, horizon)`: the pipeline with its default windows and lags. */
  function TransformOf(f: Frame, target: string, horizon: int, num: Numerics): Step
  {
    Pipeline(f, target, horizon, DefaultWindows, LagSources, DefaultLags, num)
  }
}
