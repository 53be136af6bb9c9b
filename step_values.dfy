/** The values of the columns each step of the feature pipeline writes, row by row:
    which input rows every feature reads, where it is undefined, and the relations
    the transformer's formulas promise between its columns. */
module StepValues {
  import opened Wrappers
  import opened Text
  import opened Series
  import opened SeriesFacts
  import opened Frames
  import opened Transform
  import opened TransformFacts
  import opened FeatureNames

  // ---------------------------------------------------------------- calculate_returns

  /** `calculate_returns` writes the percent change of the target column as `returns`
      (whose row values `PctChangeValue` gives) and, unless the target is `returns`
      itself, the logarithm of its ratio to the previous row as `log_returns`. */
  lemma ReturnsColumns(f: Frame, target: string, num: Numerics)
    requires target in Names(f)
    ensures var c := Get(f, target);
      Get(Returns(f, target, num).result.value, "returns") == PctChange(c) &&
      (target != "returns" ==> Get(Returns(f, target, num).result.value, "log_returns") == MapPresent(Quot(c, Shift(c, 1)), num.log))
  {
    var c := Get(f, target);
    var g := SetColumn(f, "returns", PctChange(c));
    var d := Get(g, target);
    GetSet(g, "log_returns", MapPresent(Quot(d, Shift(d, 1)), num.log), "returns");
    GetSet(g, "log_returns", MapPresent(Quot(d, Shift(d, 1)), num.log), "log_returns");
    GetSet(f, "returns", PctChange(c), "returns");
    GetSet(f, "returns", PctChange(c), target);
  }

  /** The ratio of a column to its lag of one row. */
  lemma RatioValue(c: Col, t: nat)
    requires t < |c|
    ensures |Quot(c, Shift(c, 1))| == |c|
    ensures Quot(c, Shift(c, 1))[t] == if t == 0 then None else DivOpt(c[t], c[t - 1])
  {
    assert Shift(c, 1)[t] == At(c, t - 1);
  }

  /** `log_returns[t]` is the logarithm of the ratio of the prices at `t` and `t-1`,
      read from the target column as the frame holds it after `returns` is written;
      the first row has none. */
  lemma LogReturnsValues(f: Frame, target: string, num: Numerics, t: nat)
    requires target in Names(f) && target != "returns" && t < |Get(f, target)|
    ensures var c := Get(f, target); var l := Get(Returns(f, target, num).result.value, "log_returns");
      |l| == |c| &&
      (t == 0 ==> l[t].None?) &&
      (1 <= t && c[t].Some? && c[t - 1].Some? && c[t - 1].value != 0.0 ==> l[t] == num.log(c[t].value / c[t - 1].value)) &&
      (1 <= t && (c[t].None? || c[t - 1].None? || c[t - 1] == Some(0.0)) ==> l[t].None?)
  {
    ReturnsColumns(f, target, num);
    RatioValue(Get(f, target), t);
  }

  // ---------------------------------------------------------------- calculate_volatility

  lemma VolatilityNameInjective(v: nat, w: nat)
    requires v != w
    ensures VolatilityName(v) != VolatilityName(w)
  {
    NatToStringInjective(v, w);
    Cancel("volatility_", NatToString(v), NatToString(w));
  }

  /** Only the `volatility_<w>` columns are written. */
  lemma VolatilityOverKeeps(f: Frame, windows: seq<nat>, std: seq<real> -> real, n: string)
    requires Key(n) != VolatilityKey
    ensures Get(VolatilityOver(f, windows, std), n) == Get(f, n)
  {
    VolatilityOverWrites(f, windows, std);
    VolatilityStems(windows);
    assert Key("volatility_") == VolatilityKey;
    assert n !in VolatilityNames(windows);
  }

  lemma VolatilityOverReturns(f: Frame, windows: seq<nat>, std: seq<real> -> real)
    ensures Get(VolatilityOver(f, windows, std), "returns") == Get(f, "returns")
  {
    assert Key("returns") == Fingerprint('r', 'r', ' ', ' ');
    VolatilityOverKeeps(f, windows, std, "returns");
  }

  /** `volatility_<w>` is the `w`-row rolling deviation of `returns`, for every window
      `w`, also when a window is repeated. */
  lemma {:induction false} VolatilityOverValues(f: Frame, windows: seq<nat>, std: seq<real> -> real, w: nat)
    requires w in windows
    ensures Get(VolatilityOver(f, windows, std), VolatilityName(w)) == RollingStd(Get(f, "returns"), w, std)
  {
    var init := windows[..|windows| - 1];
    var v := windows[|windows| - 1];
    var g := VolatilityOver(f, init, std);
    VolatilityOverReturns(f, init, std);
    GetSet(g, VolatilityName(v), RollingStd(Get(g, "returns"), v, std), VolatilityName(w));
    if w != v {
      VolatilityNameInjective(v, w);
      assert w in init;
      VolatilityOverValues(f, init, std, w);
    }
  }

  /** Every `volatility_<w>` column of the step's frame is the `w`-row rolling deviation
      of its `returns` column: at row `t` it is defined exactly when `w >= 2` and the
      `w` returns up to `t` are all present, and it is then the deviation of those. */
  lemma VolatilityValues(f: Frame, target: string, windows: seq<nat>, num: Numerics, w: nat, t: nat)
    requires Volatility(f, target, windows, num).result.Ok? && w in windows
    ensures var g := Volatility(f, target, windows, num).result.value;
      var r := Get(g, "returns"); var v := Get(g, VolatilityName(w));
      v == RollingStd(r, w, num.std) &&
      (t < |r| ==> (v[t].Some? <==> 2 <= w <= t + 1 && forall i :: t + 1 - w <= i <= t ==> r[i].Some?)) &&
      (t < |r| && v[t].Some? ==> v[t] == Some(num.std(Window(r, t, w).value)))
  {
    var start := if "returns" in Names(f) then f else Returns(f, target, num).result.value;
    assert Volatility(f, target, windows, num).result.value == VolatilityOver(start, windows, num.std);
    VolatilityOverValues(start, windows, num.std, w);
    VolatilityOverReturns(start, windows, num.std);
    var r := Get(start, "returns");
    if t < |r| {
      RollingStdDefined(r, w, t, num.std);
    }
  }

  // ---------------------------------------------------------------- create_lag_features

  lemma LagNameInjective(col: string, j: int, k: int)
    requires j != k
    ensures LagName(col, j) != LagName(col, k)
  {
    IntToStringInjective(j, k);
    Cancel(col + "_lag_", IntToString(j), IntToString(k));
  }

  lemma {:induction false} LagNamesLonger(col: string, lags: seq<int>)
    ensures forall x :: x in LagNames(col, lags) ==> |x| > |col|
  {
    if lags != [] {
      LagNamesLonger(col, lags[..|lags| - 1]);
    }
  }

  /** `<col>_lag_<k>` is the column shifted down `k` rows, for every lag `k`, and the
      column itself is left as it was. */
  lemma {:induction false} LagsOfValues(f: Frame, col: string, lags: seq<int>, k: int)
    requires k in lags
    ensures Get(LagsOf(f, col, lags), LagName(col, k)) == Shift(Get(f, col), k)
    ensures Get(LagsOf(f, col, lags), col) == Get(f, col)
  {
    var init := lags[..|lags| - 1];
    var j := lags[|lags| - 1];
    var g := LagsOf(f, col, init);
    LagsOfWrites(f, col, lags);
    LagNamesLonger(col, lags);
    LagsOfWrites(f, col, init);
    LagNamesLonger(col, init);
    GetSet(g, LagName(col, j), Shift(Get(g, col), j), LagName(col, k));
    if j != k {
      LagNameInjective(col, j, k);
      assert k in init;
      LagsOfValues(f, col, init, k);
    }
  }

  /** Row `t` of `<col>_lag_<k>`, for a lag `k >= 0`: the value `k` rows earlier, and
      none for the first `k` rows. */
  lemma LagsOfRows(f: Frame, col: string, lags: seq<int>, k: int, t: nat)
    requires k in lags && k >= 0 && t < |Get(f, col)|
    ensures var c := Get(f, col); var l := Get(LagsOf(f, col, lags), LagName(col, k));
      |l| == |c| && (t < k ==> l[t].None?) && (k <= t ==> l[t] == c[t - k])
  {
    LagsOfValues(f, col, lags, k);
    ShiftValue(Get(f, col), k, t);
  }

  lemma DistinctParts<T>(a: seq<T>, b: seq<T>)
    requires Distinct(a + b)
    ensures Distinct(a) && Distinct(b) && forall x :: x in a ==> x !in b
  {
    forall i, j | 0 <= i < j < |a| ensures a[i] != a[j] {
      assert (a + b)[i] == a[i] && (a + b)[j] == a[j];
    }
    forall i, j | 0 <= i < j < |b| ensures b[i] != b[j] {
      assert (a + b)[|a| + i] == b[i] && (a + b)[|a| + j] == b[j];
    }
    forall x | x in a ensures x !in b {
      forall j | 0 <= j < |b| ensures b[j] != x {
        var i :| 0 <= i < |a| && a[i] == x;
        assert (a + b)[i] == x && (a + b)[|a| + j] == b[j];
      }
    }
  }

  lemma {:induction false} LagNameInLags(col: string, lags: seq<int>, k: int)
    requires k in lags
    ensures LagName(col, k) in LagNames(col, lags)
  {
    if lags[|lags| - 1] != k {
      assert k in lags[..|lags| - 1];
      LagNameInLags(col, lags[..|lags| - 1], k);
    }
  }

  lemma {:induction false} LagNameIn(cols: seq<string>, lags: seq<int>, c: string, k: int)
    requires c in cols && k in lags
    ensures LagName(c, k) in LagNamesOver(cols, lags)
  {
    if cols[|cols| - 1] == c {
      LagNameInLags(c, lags, k);
    } else {
      assert c in cols[..|cols| - 1];
      LagNameIn(cols[..|cols| - 1], lags, c, k);
    }
  }

  /** The names `create_lag_features` appends are lag names of its columns. */
  lemma {:induction false} LagsAddedWithin(f: Frame, cols: seq<string>, lags: seq<int>)
    ensures forall n :: n in Lags(f, cols, lags).added ==> n in LagNamesOver(cols, lags)
  {
    if cols != [] {
      LagsAddedWithin(f, cols[..|cols| - 1], lags);
    }
  }

  /** A column of the list is never itself overwritten when no lag name is the name of
      one of the columns. */
  lemma LagsSources(f: Frame, cols: seq<string>, lags: seq<int>, d: string)
    requires d !in LagNamesOver(cols, lags)
    ensures Get(Lags(f, cols, lags).frame, d) == Get(f, d)
  {
    LagsWrites(f, cols, lags);
    LagsAddedWithin(f, cols, lags);
  }

  /** When the lag names are distinct and none is the name of a listed column,
      `<c>_lag_<k>` is the column `c` of the input shifted down `k` rows, for every
      listed column `c` the input has and every lag `k`. */
  lemma {:induction false} LagsValues(f: Frame, cols: seq<string>, lags: seq<int>, c: string, k: int)
    requires c in cols && c in Names(f) && k in lags
    requires Distinct(LagNamesOver(cols, lags))
    requires forall d :: d in cols ==> d !in LagNamesOver(cols, lags)
    ensures Get(Lags(f, cols, lags).frame, LagName(c, k)) == Shift(Get(f, c), k)
  {
    var init := cols[..|cols| - 1];
    var e := cols[|cols| - 1];
    var s := Lags(f, init, lags);
    assert LagNamesOver(cols, lags) == LagNamesOver(init, lags) + LagNames(e, lags);
    DistinctParts(LagNamesOver(init, lags), LagNames(e, lags));
    LagsWrites(f, init, lags);
    LagsAddedWithin(f, init, lags);
    if e == c {
      assert c in Names(s.frame);
      LagsOfValues(s.frame, c, lags, k);
    } else {
      assert c in init;
      assert forall d :: d in init ==> d in cols;
      LagsValues(f, init, lags, c, k);
      if e in Names(s.frame) {
        LagNameIn(init, lags, c, k);
        LagsOfWrites(s.frame, e, lags);
      }
    }
  }

  /** A listed column the frame does not have (and no lag creates) is skipped: the
      step behaves as if it were not listed. */
  lemma LagsSkipAbsent(f: Frame, cols: seq<string>, lags: seq<int>, c: string)
    requires c !in Names(f) && c !in LagNamesOver(cols, lags)
    ensures Lags(f, cols + [c], lags) == Lags(f, cols, lags)
  {
    assert (cols + [c])[..|cols|] == cols;
    LagsWrites(f, cols, lags);
    LagsAddedWithin(f, cols, lags);
  }

  lemma SourceKeys(lags: seq<int>)
    ensures forall d :: d in LagSources ==> Key(d) !in LagKeys
  {
  }

  /** With the default columns and distinct lags, `<c>_lag_<k>` is `c` shifted down `k`
      rows for every default column `c` the frame has. */
  lemma LagSourcesValues(f: Frame, lags: seq<int>, c: string, k: int)
    requires Distinct(lags) && c in LagSources && c in Names(f) && k in lags
    ensures Get(Lags(f, LagSources, lags).frame, LagName(c, k)) == Shift(Get(f, c), k)
    ensures forall d :: d in LagSources ==> Get(Lags(f, LagSources, lags).frame, d) == Get(f, d)
  {
    LagSourcesDistinct(lags);
    SourceKeys(lags);
    assert forall d :: d in LagSources ==> d !in LagNamesOver(LagSources, lags);
    LagsValues(f, LagSources, lags, c, k);
    forall d | d in LagSources ensures Get(Lags(f, LagSources, lags).frame, d) == Get(f, d) {
      LagsSources(f, LagSources, lags, d);
    }
  }

  /** Lags are created only for the columns that are present: without a `volume`
      column the step is that of the other two columns. */
  lemma LagsWithoutVolume(f: Frame, lags: seq<int>)
    requires "volume" !in Names(f)
    ensures Lags(f, LagSources, lags) == Lags(f, ["close", "returns"], lags)
  {
    var front := ["close", "returns"];
    assert LagSources == front + ["volume"];
    assert front[..1] == ["close"] && front[1..] == ["returns"];
    assert LagNamesOver(["close"], lags) == LagNames("close", lags);
    assert LagNamesOver(front, lags) == LagNames("close", lags) + LagNames("returns", lags);
    LagStems("close", lags);
    LagStems("returns", lags);
    assert Key("volume") != Key("close" + "_lag_") && Key("volume") != Key("returns" + "_lag_");
    LagsSkipAbsent(f, front, lags, "volume");
  }

  // ---------------------------------------------------------------- create_rolling_features

  /** The six columns of window `w` over the column `c`: its rolling mean, deviation,
      minimum and maximum, and the bands two deviations above and below the mean. */
  ghost predicate WindowColumns(g: Frame, c: Col, w: nat, std: seq<real> -> real)
  {
    Get(g, MaName(w)) == RollingMean(c, w) &&
    Get(g, StdName(w)) == RollingStd(c, w, std) &&
    Get(g, MinName(w)) == RollingMin(c, w) &&
    Get(g, MaxName(w)) == RollingMax(c, w) &&
    Get(g, UpperName(w)) == Add(RollingMean(c, w), Scale(2.0, RollingStd(c, w, std))) &&
    Get(g, LowerName(w)) == Sub(RollingMean(c, w), Scale(2.0, RollingStd(c, w, std)))
  }

  /** The names of one window are six different names. */
  lemma WindowNamesDiffer(w: nat)
    ensures MaName(w) != StdName(w) && MaName(w) != MinName(w) && MaName(w) != MaxName(w)
    ensures MaName(w) != UpperName(w) && MaName(w) != LowerName(w)
    ensures StdName(w) != MinName(w) && StdName(w) != MaxName(w) && StdName(w) != UpperName(w) && StdName(w) != LowerName(w)
    ensures MinName(w) != MaxName(w) && MinName(w) != UpperName(w) && MinName(w) != LowerName(w)
    ensures MaxName(w) != UpperName(w) && MaxName(w) != LowerName(w) && UpperName(w) != LowerName(w)
  {
    WindowDistinct(w);
    var ns := WindowNames(w);
    assert ns[0] != ns[1] && ns[0] != ns[2] && ns[0] != ns[3] && ns[0] != ns[4] && ns[0] != ns[5];
    assert ns[1] != ns[2] && ns[1] != ns[3] && ns[1] != ns[4] && ns[1] != ns[5];
    assert ns[2] != ns[3] && ns[2] != ns[4] && ns[2] != ns[5] && ns[3] != ns[4] && ns[3] != ns[5] && ns[4] != ns[5];
  }

  /** The four statistics of one window over a target column that is none of them. */
  lemma WindowStats(f: Frame, target: string, w: nat, std: seq<real> -> real)
    requires target !in WindowNames(w)
    ensures var c := Get(f, target);
      var f1 := SetColumn(f, MaName(w), RollingMean(c, w));
      var f2 := SetColumn(f1, StdName(w), RollingStd(c, w, std));
      var f3 := SetColumn(f2, MinName(w), RollingMin(c, w));
      var f4 := SetColumn(f3, MaxName(w), RollingMax(c, w));
      Get(f1, target) == c && Get(f2, target) == c && Get(f3, target) == c &&
      Get(f4, MaName(w)) == RollingMean(c, w) && Get(f4, StdName(w)) == RollingStd(c, w, std) &&
      Get(f4, MinName(w)) == RollingMin(c, w) && Get(f4, MaxName(w)) == RollingMax(c, w)
  {
    var c := Get(f, target);
    var f1 := SetColumn(f, MaName(w), RollingMean(c, w));
    var f2 := SetColumn(f1, StdName(w), RollingStd(c, w, std));
    var f3 := SetColumn(f2, MinName(w), RollingMin(c, w));
    WindowNamesDiffer(w);
    GetSet(f, MaName(w), RollingMean(c, w), target);
    GetSet(f1, StdName(w), RollingStd(c, w, std), target);
    GetSet(f2, MinName(w), RollingMin(c, w), target);
    GetSet(f, MaName(w), RollingMean(c, w), MaName(w));
    GetSet(f1, StdName(w), RollingStd(c, w, std), MaName(w));
    GetSet(f2, MinName(w), RollingMin(c, w), MaName(w));
    GetSet(f3, MaxName(w), RollingMax(c, w), MaName(w));
    GetSet(f1, StdName(w), RollingStd(c, w, std), StdName(w));
    GetSet(f2, MinName(w), RollingMin(c, w), StdName(w));
    GetSet(f3, MaxName(w), RollingMax(c, w), StdName(w));
    GetSet(f2, MinName(w), RollingMin(c, w), MinName(w));
    GetSet(f3, MaxName(w), RollingMax(c, w), MinName(w));
    GetSet(f3, MaxName(w), RollingMax(c, w), MaxName(w));
  }

  /** The bands, read back from the mean and deviation just written. */
  lemma WindowBands(f4: Frame, c: Col, w: nat, std: seq<real> -> real)
    requires Get(f4, MaName(w)) == RollingMean(c, w) && Get(f4, StdName(w)) == RollingStd(c, w, std)
    requires Get(f4, MinName(w)) == RollingMin(c, w) && Get(f4, MaxName(w)) == RollingMax(c, w)
    ensures var f5 := SetColumn(f4, UpperName(w), Add(Get(f4, MaName(w)), Scale(2.0, Get(f4, StdName(w)))));
      WindowColumns(SetColumn(f5, LowerName(w), Sub(Get(f5, MaName(w)), Scale(2.0, Get(f5, StdName(w))))), c, w, std)
  {
    WindowNamesDiffer(w);
    var up := Add(RollingMean(c, w), Scale(2.0, RollingStd(c, w, std)));
    var f5 := SetColumn(f4, UpperName(w), up);
    var lo := Sub(RollingMean(c, w), Scale(2.0, RollingStd(c, w, std)));
    GetSet(f4, UpperName(w), up, MaName(w));
    GetSet(f4, UpperName(w), up, StdName(w));
    GetSet(f4, UpperName(w), up, MinName(w));
    GetSet(f4, UpperName(w), up, MaxName(w));
    GetSet(f4, UpperName(w), up, UpperName(w));
    GetSet(f5, LowerName(w), lo, MaName(w));
    GetSet(f5, LowerName(w), lo, StdName(w));
    GetSet(f5, LowerName(w), lo, MinName(w));
    GetSet(f5, LowerName(w), lo, MaxName(w));
    GetSet(f5, LowerName(w), lo, UpperName(w));
    GetSet(f5, LowerName(w), lo, LowerName(w));
  }

  /** One window's columns, when the target column is not one of them. */
  lemma RollingWindowValues(f: Frame, target: string, w: nat, std: seq<real> -> real)
    requires target !in WindowNames(w)
    ensures WindowColumns(RollingWindow(f, target, w, std), Get(f, target), w, std)
  {
    var c := Get(f, target);
    var f1 := SetColumn(f, MaName(w), RollingMean(c, w));
    var f2 := SetColumn(f1, StdName(w), RollingStd(c, w, std));
    var f3 := SetColumn(f2, MinName(w), RollingMin(c, w));
    var f4 := SetColumn(f3, MaxName(w), RollingMax(c, w));
    WindowStats(f, target, w, std);
    WindowBands(f4, c, w, std);
  }

  /** A window's columns stay as they are while other columns are written. */
  lemma WindowColumnsKept(f: Frame, g: Frame, written: seq<string>, c: Col, w: nat, std: seq<real> -> real)
    requires WindowColumns(f, c, w, std) && Extends(f, g, written)
    requires forall x :: x in WindowNames(w) ==> x !in written
    ensures WindowColumns(g, c, w, std)
  {
    assert MaName(w) in WindowNames(w) && StdName(w) in WindowNames(w) && MinName(w) in WindowNames(w);
    assert MaxName(w) in WindowNames(w) && UpperName(w) in WindowNames(w) && LowerName(w) in WindowNames(w);
  }

  /** Every window's columns are those of the original target column, also when a
      window is repeated, provided the target is none of the columns written. */
  lemma {:induction false} RollingOverValues(f: Frame, target: string, windows: seq<nat>, std: seq<real> -> real, w: nat)
    requires w in windows && target !in RollingNames(windows)
    ensures WindowColumns(RollingOver(f, target, windows, std), Get(f, target), w, std)
  {
    var init := windows[..|windows| - 1];
    var v := windows[|windows| - 1];
    var g := RollingOver(f, target, init, std);
    assert RollingNames(windows) == RollingNames(init) + WindowNames(v);
    RollingOverWrites(f, target, init, std);
    assert Get(g, target) == Get(f, target);
    if v == w {
      RollingWindowValues(g, target, w, std);
    } else {
      assert w in init;
      RollingOverValues(f, target, init, std, w);
      RollingWindowWrites(g, target, v, std);
      WindowsApart(w, v);
      WindowColumnsKept(g, RollingOver(f, target, windows, std), WindowNames(v), Get(f, target), w, std);
    }
  }

  /** Row `t` of a window's columns: the mean, minimum and maximum are defined exactly
      when the `w` values up to `t` are all present, and the mean then lies between the
      other two; the deviation needs at least two values; the bands are defined with
      it and lie two deviations above and below the mean. */
  lemma WindowRows(g: Frame, c: Col, w: nat, std: seq<real> -> real, t: nat)
    requires WindowColumns(g, c, w, std) && t < |c|
    ensures var ma, sd, mn, mx := Get(g, MaName(w)), Get(g, StdName(w)), Get(g, MinName(w)), Get(g, MaxName(w));
      var up, lo := Get(g, UpperName(w)), Get(g, LowerName(w));
      |ma| == |sd| == |mn| == |mx| == |up| == |lo| == |c| &&
      (ma[t].Some? <==> 1 <= w <= t + 1 && forall i :: t + 1 - w <= i <= t ==> c[i].Some?) &&
      mn[t].Some? == ma[t].Some? == mx[t].Some? &&
      (ma[t].Some? ==> mn[t].value <= ma[t].value <= mx[t].value) &&
      (sd[t].Some? <==> 2 <= w && ma[t].Some?) &&
      up[t].Some? == sd[t].Some? == lo[t].Some? &&
      (sd[t].Some? ==> up[t].value - ma[t].value == 2.0 * sd[t].value && ma[t].value - lo[t].value == 2.0 * sd[t].value)
  {
    RollingBetween(c, w, t);
    RollingStdDefined(c, w, t, std);
  }

  /** `create_rolling_features` over a target column it does not overwrite. */
  lemma RollingValues(f: Frame, target: string, windows: seq<nat>, num: Numerics, w: nat)
    requires target in Names(f) && w in windows && target !in RollingNames(windows)
    ensures Rolling(f, target, windows, num).result.Ok?
    ensures WindowColumns(Rolling(f, target, windows, num).result.value, Get(f, target), w, num.std)
  {
    RollingOverValues(f, target, windows, num.std, w);
  }

  // ---------------------------------------------------------------- create_technical_indicators

  /** The average gain and loss over 7 rows of the target's first difference. */
  function AvgGain(c: Col): Col { RollingMean(Gains(Diff(c)), RsiWindow) }
  function AvgLoss(c: Col): Col { RollingMean(Losses(Diff(c)), RsiWindow) }

  /** The first three indicator columns, over a target column that is none of them. */
  lemma FirstIndicators(f: Frame, target: string, num: Numerics)
    requires target !in IndicatorNames
    ensures var c := Get(f, target);
      var f1 := SetColumn(f, "rsi", Rsi(AvgGain(c), AvgLoss(c)));
      var f2 := SetColumn(f1, "macd", Sub(Ewm(c, 12, num.ewm), Ewm(c, 26, num.ewm)));
      var f3 := SetColumn(f2, "macd_signal", Ewm(Get(f2, "macd"), 9, num.ewm));
      Get(f1, target) == c && Get(f2, target) == c && Get(f3, target) == c &&
      Get(f3, "rsi") == Rsi(AvgGain(c), AvgLoss(c)) &&
      Get(f3, "macd") == Sub(Ewm(c, 12, num.ewm), Ewm(c, 26, num.ewm)) &&
      Get(f3, "macd_signal") == Ewm(Get(f3, "macd"), 9, num.ewm)
  {
    var c := Get(f, target);
    var m := Sub(Ewm(c, 12, num.ewm), Ewm(c, 26, num.ewm));
    var f1 := SetColumn(f, "rsi", Rsi(AvgGain(c), AvgLoss(c)));
    var f2 := SetColumn(f1, "macd", m);
    GetSet(f, "rsi", Rsi(AvgGain(c), AvgLoss(c)), target);
    GetSet(f1, "macd", m, target);
    GetSet(f2, "macd_signal", Ewm(m, 9, num.ewm), target);
    GetSet(f, "rsi", Rsi(AvgGain(c), AvgLoss(c)), "rsi");
    GetSet(f1, "macd", m, "rsi");
    GetSet(f2, "macd_signal", Ewm(m, 9, num.ewm), "rsi");
    GetSet(f1, "macd", m, "macd");
    GetSet(f2, "macd_signal", Ewm(m, 9, num.ewm), "macd");
    GetSet(f2, "macd_signal", Ewm(m, 9, num.ewm), "macd_signal");
  }

  /** The last three indicator columns, keeping the first three. */
  lemma LastIndicators(f3: Frame, target: string, c: Col)
    requires target !in IndicatorNames && Get(f3, target) == c
    ensures var f4 := SetColumn(f3, "macd_diff", Sub(Get(f3, "macd"), Get(f3, "macd_signal")));
      var f5 := SetColumn(f4, "momentum_3", Sub(Get(f4, target), Shift(Get(f4, target), 3)));
      var f6 := SetColumn(f5, "momentum_5", Sub(Get(f5, target), Shift(Get(f5, target), 5)));
      Get(f4, target) == c && Get(f5, target) == c &&
      Get(f6, "rsi") == Get(f3, "rsi") && Get(f6, "macd") == Get(f3, "macd") && Get(f6, "macd_signal") == Get(f3, "macd_signal") &&
      Get(f6, "macd_diff") == Sub(Get(f6, "macd"), Get(f6, "macd_signal")) &&
      Get(f6, "momentum_3") == Sub(c, Shift(c, 3)) &&
      Get(f6, "momentum_5") == Sub(c, Shift(c, 5))
  {
    var d := Sub(Get(f3, "macd"), Get(f3, "macd_signal"));
    var f4 := SetColumn(f3, "macd_diff", d);
    var m3 := Sub(c, Shift(c, 3));
    var f5 := SetColumn(f4, "momentum_3", m3);
    var m5 := Sub(c, Shift(c, 5));
    GetSet(f3, "macd_diff", d, target);
    GetSet(f4, "momentum_3", m3, target);
    GetSet(f3, "macd_diff", d, "rsi");
    GetSet(f4, "momentum_3", m3, "rsi");
    GetSet(f5, "momentum_5", m5, "rsi");
    GetSet(f3, "macd_diff", d, "macd");
    GetSet(f4, "momentum_3", m3, "macd");
    GetSet(f5, "momentum_5", m5, "macd");
    GetSet(f3, "macd_diff", d, "macd_signal");
    GetSet(f4, "momentum_3", m3, "macd_signal");
    GetSet(f5, "momentum_5", m5, "macd_signal");
    GetSet(f3, "macd_diff", d, "macd_diff");
    GetSet(f4, "momentum_3", m3, "macd_diff");
    GetSet(f5, "momentum_5", m5, "macd_diff");
    GetSet(f4, "momentum_3", m3, "momentum_3");
    GetSet(f5, "momentum_5", m5, "momentum_3");
    GetSet(f5, "momentum_5", m5, "momentum_5");
  }

  /** The volume columns: 5- and 10-row means of `volume` and its ratio to the second. */
  lemma VolumeValues(f: Frame)
    ensures var v := Get(f, "volume"); var g := VolumeColumns(f);
      Get(g, "volume_ma_5") == RollingMean(v, 5) && Get(g, "volume_ma_10") == RollingMean(v, 10) &&
      Get(g, "volume_ratio") == Quot(v, RollingMean(v, 10))
  {
    var v := Get(f, "volume");
    var f1 := SetColumn(f, "volume_ma_5", RollingMean(v, 5));
    var f2 := SetColumn(f1, "volume_ma_10", RollingMean(v, 10));
    var r := Quot(v, RollingMean(v, 10));
    GetSet(f, "volume_ma_5", RollingMean(v, 5), "volume");
    GetSet(f1, "volume_ma_10", RollingMean(v, 10), "volume");
    GetSet(f, "volume_ma_5", RollingMean(v, 5), "volume_ma_5");
    GetSet(f1, "volume_ma_10", RollingMean(v, 10), "volume_ma_5");
    GetSet(f2, "volume_ratio", r, "volume_ma_5");
    GetSet(f1, "volume_ma_10", RollingMean(v, 10), "volume_ma_10");
    GetSet(f2, "volume_ratio", r, "volume_ma_10");
    GetSet(f2, "volume_ratio", r, "volume_ratio");
  }

  /** The indicator columns `create_technical_indicators` writes over a target column
      that is none of them: the RSI of the 7-row average gain and loss, MACD and its
      signal and difference, and the 3- and 5-row momenta. */
  lemma IndicatorsValues(f: Frame, target: string, num: Numerics)
    requires target !in IndicatorNames
    ensures var c := Get(f, target); var g := Indicators(f, target, num);
      Get(g, "rsi") == Rsi(AvgGain(c), AvgLoss(c)) &&
      Get(g, "macd") == Sub(Ewm(c, 12, num.ewm), Ewm(c, 26, num.ewm)) &&
      Get(g, "macd_signal") == Ewm(Get(g, "macd"), 9, num.ewm) &&
      Get(g, "macd_diff") == Sub(Get(g, "macd"), Get(g, "macd_signal")) &&
      Get(g, "momentum_3") == Sub(c, Shift(c, 3)) &&
      Get(g, "momentum_5") == Sub(c, Shift(c, 5))
  {
    var c := Get(f, target);
    FirstIndicators(f, target, num);
    var f1 := SetColumn(f, "rsi", Rsi(AvgGain(c), AvgLoss(c)));
    var f2 := SetColumn(f1, "macd", Sub(Ewm(c, 12, num.ewm), Ewm(c, 26, num.ewm)));
    var f3 := SetColumn(f2, "macd_signal", Ewm(Get(f2, "macd"), 9, num.ewm));
    LastIndicators(f3, target, c);
  }

  /** The volume columns come after the indicators and leave them as they are. */
  lemma TechnicalKeeps(f: Frame, target: string, num: Numerics, n: string)
    requires target in Names(f) && n in IndicatorNames
    ensures Technical(f, target, num).result.Ok?
    ensures Get(Technical(f, target, num).result.value, n) == Get(Indicators(f, target, num), n)
  {
    var h := Indicators(f, target, num);
    if "volume" in Names(h) {
      IndicatorNotVolume(n);
      var h1 := SetColumn(h, "volume_ma_5", RollingMean(Get(h, "volume"), 5));
      var h2 := SetColumn(h1, "volume_ma_10", RollingMean(Get(h1, "volume"), 10));
      GetSet(h, "volume_ma_5", RollingMean(Get(h, "volume"), 5), n);
      GetSet(h1, "volume_ma_10", RollingMean(Get(h1, "volume"), 10), n);
      GetSet(h2, "volume_ratio", Quot(Get(h2, "volume"), Get(h2, "volume_ma_10")), n);
    }
  }

  lemma IndicatorNotVolume(n: string)
    requires n in IndicatorNames
    ensures n != "volume_ma_5" && n != "volume_ma_10" && n != "volume_ratio"
  {
  }

  /** With a volume column, the step writes its 5- and 10-row means and its ratio to
      the second, reading the volume column of the input. */
  lemma TechnicalVolumeValues(f: Frame, target: string, num: Numerics)
    requires target in Names(f) && "volume" in Names(f)
    ensures Technical(f, target, num).result.Ok?
    ensures var v := Get(f, "volume"); var g := Technical(f, target, num).result.value;
      Get(g, "volume_ma_5") == RollingMean(v, 5) && Get(g, "volume_ma_10") == RollingMean(v, 10) &&
      Get(g, "volume_ratio") == Quot(v, RollingMean(v, 10))
  {
    var h := Indicators(f, target, num);
    IndicatorsWrites(f, target, num);
    VolumeNotIndicator();
    assert "volume" in Names(h) && Get(h, "volume") == Get(f, "volume");
    VolumeValues(h);
  }

  lemma VolumeNotIndicator()
    ensures "volume" !in IndicatorNames
  {
  }

  lemma GainsLossesAll(delta: Col)
    ensures forall i :: 0 <= i < |delta| ==> Gains(delta)[i].Some? && Gains(delta)[i].value >= 0.0
    ensures forall i :: 0 <= i < |delta| ==> Losses(delta)[i].Some? && Losses(delta)[i].value >= 0.0
  {
  }

  /** The 7-row average gain and loss are defined from row 6 on and are at least 0. */
  lemma AverageRows(c: Col, t: nat)
    requires t < |c|
    ensures |AvgGain(c)| == |AvgLoss(c)| == |c|
    ensures AvgGain(c)[t].Some? <==> 6 <= t
    ensures AvgLoss(c)[t].Some? <==> 6 <= t
    ensures 6 <= t ==> AvgGain(c)[t].value >= 0.0 && AvgLoss(c)[t].value >= 0.0
  {
    var delta := Diff(c);
    GainsLossesAll(delta);
    RollingBetween(Gains(delta), RsiWindow, t);
    RollingBetween(Losses(delta), RsiWindow, t);
    RollingMeanNonNegative(Gains(delta), RsiWindow, t);
    RollingMeanNonNegative(Losses(delta), RsiWindow, t);
  }

  /** Row `t` of the RSI: undefined before row 6; over a positive average loss it is
      `100 - 100 / (1 + gain / loss)` and lies in [0, 100); over no loss it is 100
      after a gain and undefined when nothing moved. */
  lemma RsiRows(c: Col, t: nat)
    requires t < |c|
    ensures var gain, loss, rsi := AvgGain(c), AvgLoss(c), Rsi(AvgGain(c), AvgLoss(c));
      |rsi| == |c| &&
      (t < 6 ==> rsi[t].None?) &&
      (6 <= t && loss[t].value > 0.0 ==>
        gain[t].value >= 0.0 &&
        rsi[t] == Some(100.0 - 100.0 / (1.0 + gain[t].value / loss[t].value)) && 0.0 <= rsi[t].value < 100.0) &&
      (6 <= t && loss[t].value == 0.0 ==> rsi[t] == if gain[t].value == 0.0 then None else Some(100.0))
  {
    AverageRows(c, t);
    if 6 <= t {
      RsiRange(AvgGain(c)[t].value, AvgLoss(c)[t].value);
    }
  }

  /** Row `t` of a `k`-row momentum: the target minus its value `k` rows earlier,
      undefined for the first `k` rows. */
  lemma MomentumRows(c: Col, k: nat, t: nat)
    requires t < |c|
    ensures var m := Sub(c, Shift(c, k));
      |m| == |c| && (t < k ==> m[t].None?) &&
      (k <= t && c[t].Some? && c[t - k].Some? ==> m[t] == Some(c[t].value - c[t - k].value))
  {
    ShiftValue(c, k, t);
  }

  // ---------------------------------------------------------------- create_time_features

  /** A calendar field as a column, and its cyclical encoding, at row `t`. */
  lemma FieldRows(stamps: seq<Stamp>, k: CalendarField, g: real -> real, period: real, t: nat)
    requires t < |stamps| && period != 0.0
    ensures |Field(stamps, k)| == |stamps| && |MapPresent(Field(stamps, k), Turns(g, period))| == |stamps|
    ensures Field(stamps, k)[t] == Some(FieldOf(stamps[t], k) as real)
    ensures MapPresent(Field(stamps, k), Turns(g, period))[t] == Some(g(FieldOf(stamps[t], k) as real / period))
  {
  }

  /** Without any timestamp that has an hour, the three hour columns hold 0, 0.0 and
      1.0 on every row. */
  lemma HourDefaults(f: Frame, num: Numerics, t: nat)
    requires !HasHour(f.index) && t < Rows(f)
    ensures var g := HourColumns(f, num);
      g.index == f.index && |Get(g, "hour")| == |Get(g, "hour_sin")| == |Get(g, "hour_cos")| == Rows(f) &&
      At(Get(g, "hour"), t) == Some(0.0) && At(Get(g, "hour_sin"), t) == Some(0.0) &&
      At(Get(g, "hour_cos"), t) == Some(1.0)
  {
    var n := Rows(f);
    var f1 := SetColumn(f, "hour", Constant(n, 0.0));
    var f2 := SetColumn(f1, "hour_sin", Constant(n, 0.0));
    GetSet(f, "hour", Constant(n, 0.0), "hour");
    GetSet(f1, "hour_sin", Constant(n, 0.0), "hour");
    GetSet(f1, "hour_sin", Constant(n, 0.0), "hour_sin");
    GetSet(f2, "hour_cos", Constant(n, 1.0), "hour");
    GetSet(f2, "hour_cos", Constant(n, 1.0), "hour_sin");
    GetSet(f2, "hour_cos", Constant(n, 1.0), "hour_cos");
  }

  /** When some timestamp has an hour, the hour columns are the hour field of the index
      and its encodings over a period of 24. */
  lemma HourColumnsOf(f: Frame, num: Numerics)
    requires HasHour(f.index)
    ensures var g := HourColumns(f, num); var hour := Field(f.index.stamps, HourOf);
      g.index == f.index && Get(g, "hour") == hour &&
      Get(g, "hour_sin") == MapPresent(hour, Turns(num.sinTurn, 24.0)) &&
      Get(g, "hour_cos") == MapPresent(hour, Turns(num.cosTurn, 24.0))
  {
    var hour := Field(f.index.stamps, HourOf);
    var f1 := SetColumn(f, "hour", hour);
    var hs := MapPresent(hour, Turns(num.sinTurn, 24.0));
    var f2 := SetColumn(f1, "hour_sin", hs);
    var hc := MapPresent(hour, Turns(num.cosTurn, 24.0));
    GetSet(f, "hour", hour, "hour");
    GetSet(f1, "hour_sin", hs, "hour");
    GetSet(f1, "hour_sin", hs, "hour_sin");
    GetSet(f2, "hour_cos", hc, "hour");
    GetSet(f2, "hour_cos", hc, "hour_sin");
    GetSet(f2, "hour_cos", hc, "hour_cos");
  }

  /** Then every row holds the hour of its timestamp and its encodings. */
  lemma HourFromStamps(f: Frame, num: Numerics, t: nat)
    requires HasHour(f.index) && t < Rows(f)
    ensures var g := HourColumns(f, num); var x := f.index.stamps[t].hour as real;
      g.index == f.index && |Get(g, "hour")| == |Get(g, "hour_sin")| == |Get(g, "hour_cos")| == Rows(f) &&
      At(Get(g, "hour"), t) == Some(x) && At(Get(g, "hour_sin"), t) == Some(num.sinTurn(x / 24.0)) &&
      At(Get(g, "hour_cos"), t) == Some(num.cosTurn(x / 24.0))
  {
    HourColumnsOf(f, num);
    FieldRows(f.index.stamps, HourOf, num.sinTurn, 24.0, t);
    FieldRows(f.index.stamps, HourOf, num.cosTurn, 24.0, t);
  }

  /** The two branches agree: when `sin(0) = 0` and `cos(0) = 1` hold of the float
      routines (as they do exactly in IEEE arithmetic), every row of a datetime index
      gets the hour of its timestamp and its encodings, whichever branch ran. */
  lemma HourBranchesAgree(f: Frame, num: Numerics, t: nat)
    requires f.index.DatetimeIndex? && t < Rows(f)
    requires num.sinTurn(0.0) == 0.0 && num.cosTurn(0.0) == 1.0
    ensures var g := HourColumns(f, num); var x := f.index.stamps[t].hour as real;
      At(Get(g, "hour"), t) == Some(x) && At(Get(g, "hour_sin"), t) == Some(num.sinTurn(x / 24.0)) &&
      At(Get(g, "hour_cos"), t) == Some(num.cosTurn(x / 24.0))
  {
    if HasHour(f.index) {
      HourFromStamps(f, num, t);
    } else {
      HourDefaults(f, num, t);
      assert f.index.stamps[t].hour == 0;
    }
  }

  lemma CalendarColumnsValues(f: Frame, stamps: seq<Stamp>, num: Numerics)
    ensures var g := CalendarColumns(f, stamps, num);
      Get(g, "day_of_week") == Field(stamps, DayOfWeekOf) && Get(g, "day_of_month") == Field(stamps, DayOf) &&
      Get(g, "month") == Field(stamps, MonthOf) && Get(g, "quarter") == Field(stamps, QuarterOf) &&
      Get(g, "day_sin") == MapPresent(Field(stamps, DayOfWeekOf), Turns(num.sinTurn, 7.0)) &&
      Get(g, "day_cos") == MapPresent(Field(stamps, DayOfWeekOf), Turns(num.cosTurn, 7.0))
  {
    var dw := Field(stamps, DayOfWeekOf);
    var f1 := SetColumn(f, "day_of_week", dw);
    var f2 := SetColumn(f1, "day_of_month", Field(stamps, DayOf));
    var f3 := SetColumn(f2, "month", Field(stamps, MonthOf));
    var f4 := SetColumn(f3, "quarter", Field(stamps, QuarterOf));
    var ds := MapPresent(dw, Turns(num.sinTurn, 7.0));
    var f5 := SetColumn(f4, "day_sin", ds);
    var dc := MapPresent(dw, Turns(num.cosTurn, 7.0));
    GetSet(f, "day_of_week", dw, "day_of_week");
    GetSet(f1, "day_of_month", Field(stamps, DayOf), "day_of_week");
    GetSet(f2, "month", Field(stamps, MonthOf), "day_of_week");
    GetSet(f3, "quarter", Field(stamps, QuarterOf), "day_of_week");
    GetSet(f4, "day_sin", ds, "day_of_week");
    GetSet(f5, "day_cos", dc, "day_of_week");
    GetSet(f1, "day_of_month", Field(stamps, DayOf), "day_of_month");
    GetSet(f2, "month", Field(stamps, MonthOf), "day_of_month");
    GetSet(f3, "quarter", Field(stamps, QuarterOf), "day_of_month");
    GetSet(f4, "day_sin", ds, "day_of_month");
    GetSet(f5, "day_cos", dc, "day_of_month");
    GetSet(f2, "month", Field(stamps, MonthOf), "month");
    GetSet(f3, "quarter", Field(stamps, QuarterOf), "month");
    GetSet(f4, "day_sin", ds, "month");
    GetSet(f5, "day_cos", dc, "month");
    GetSet(f3, "quarter", Field(stamps, QuarterOf), "quarter");
    GetSet(f4, "day_sin", ds, "quarter");
    GetSet(f5, "day_cos", dc, "quarter");
    GetSet(f4, "day_sin", ds, "day_sin");
    GetSet(f5, "day_cos", dc, "day_sin");
    GetSet(f5, "day_cos", dc, "day_cos");
  }

  /** The calendar columns leave every other column as it is. */
  lemma CalendarKeeps(f: Frame, stamps: seq<Stamp>, num: Numerics, n: string)
    requires n != "day_of_week" && n != "day_of_month" && n != "month" && n != "quarter" && n != "day_sin" && n != "day_cos"
    ensures Get(CalendarColumns(f, stamps, num), n) == Get(f, n)
  {
    var dw := Field(stamps, DayOfWeekOf);
    var f1 := SetColumn(f, "day_of_week", dw);
    var f2 := SetColumn(f1, "day_of_month", Field(stamps, DayOf));
    var f3 := SetColumn(f2, "month", Field(stamps, MonthOf));
    var f4 := SetColumn(f3, "quarter", Field(stamps, QuarterOf));
    var ds := MapPresent(Get(f4, "day_of_week"), Turns(num.sinTurn, 7.0));
    var f5 := SetColumn(f4, "day_sin", ds);
    GetSet(f, "day_of_week", dw, n);
    GetSet(f1, "day_of_month", Field(stamps, DayOf), n);
    GetSet(f2, "month", Field(stamps, MonthOf), n);
    GetSet(f3, "quarter", Field(stamps, QuarterOf), n);
    GetSet(f4, "day_sin", ds, n);
    GetSet(f5, "day_cos", MapPresent(Get(f5, "day_of_week"), Turns(num.cosTurn, 7.0)), n);
  }

  /** `create_time_features` on a datetime index: the hour columns, then the calendar
      columns of the same timestamps, and every name of both groups appended. */
  lemma TimeShape(f: Frame, num: Numerics)
    requires f.index.DatetimeIndex?
    ensures HourColumns(f, num).index == f.index
    ensures Time(f, num) == Step(Ok(CalendarColumns(HourColumns(f, num), f.index.stamps, num)), HourNames + CalendarNames)
  {
  }

  /** Row `t` of the calendar columns: the day of the week, day of the month, month and
      quarter of its timestamp, and the encodings of the day of the week over a period
      of 7. */
  ghost predicate CalendarRow(g: Frame, s: Stamp, num: Numerics, t: nat)
  {
    var d := s.dayOfWeek as real;
    At(Get(g, "day_of_week"), t) == Some(d) && At(Get(g, "day_of_month"), t) == Some(s.day as real) &&
    At(Get(g, "month"), t) == Some(s.month as real) && At(Get(g, "quarter"), t) == Some(s.quarter as real) &&
    At(Get(g, "day_sin"), t) == Some(num.sinTurn(d / 7.0)) && At(Get(g, "day_cos"), t) == Some(num.cosTurn(d / 7.0))
  }

  lemma CalendarRowOf(g: Frame, stamps: seq<Stamp>, num: Numerics, t: nat)
    requires t < |stamps|
    requires Get(g, "day_of_week") == Field(stamps, DayOfWeekOf) && Get(g, "day_of_month") == Field(stamps, DayOf) &&
      Get(g, "month") == Field(stamps, MonthOf) && Get(g, "quarter") == Field(stamps, QuarterOf) &&
      Get(g, "day_sin") == MapPresent(Field(stamps, DayOfWeekOf), Turns(num.sinTurn, 7.0)) &&
      Get(g, "day_cos") == MapPresent(Field(stamps, DayOfWeekOf), Turns(num.cosTurn, 7.0))
    ensures CalendarRow(g, stamps[t], num, t)
  {
    FieldRows(stamps, DayOfWeekOf, num.sinTurn, 7.0, t);
    FieldRows(stamps, DayOfWeekOf, num.cosTurn, 7.0, t);
    FieldRows(stamps, DayOf, num.sinTurn, 7.0, t);
    FieldRows(stamps, MonthOf, num.sinTurn, 7.0, t);
    FieldRows(stamps, QuarterOf, num.sinTurn, 7.0, t);
  }

  lemma CalendarRows(f: Frame, stamps: seq<Stamp>, num: Numerics, t: nat)
    requires t < |stamps|
    ensures CalendarRow(CalendarColumns(f, stamps, num), stamps[t], num, t)
  {
    CalendarColumnsValues(f, stamps, num);
    CalendarRowOf(CalendarColumns(f, stamps, num), stamps, num, t);
  }

  // ---------------------------------------------------------------- create_target_variable

  /** With a `returns` column the step succeeds: the future returns are the returns
      shifted `horizon` rows up, the target their absolute value, the realized target
      their rolling deviation over `horizon` rows when the horizon exceeds one and a copy
      of the target otherwise; the returns themselves are kept. */
  lemma TargetColumns(f: Frame, horizon: int, std: seq<real> -> real)
    requires "returns" in Names(f)
    ensures Target(f, horizon, std).result.Ok?
    ensures var g := Target(f, horizon, std).result.value; var future := Shift(Get(f, "returns"), -horizon);
      g.index == f.index && Get(g, "returns") == Get(f, "returns") &&
      Get(g, "future_returns") == future && Get(g, "target_volatility") == Abs(future) &&
      Get(g, "target_realized_vol") == if horizon > 1 then RollingStd(future, horizon as nat, std) else Abs(future)
  {
    var r := Get(f, "returns");
    var future := Shift(r, -horizon);
    var f1 := SetColumn(f, "future_returns", future);
    var f2 := SetColumn(f1, "target_volatility", Abs(future));
    var realized := if horizon > 1 then RollingStd(future, horizon as nat, std) else Abs(future);
    GetSet(f, "future_returns", future, "future_returns");
    GetSet(f, "future_returns", future, "returns");
    GetSet(f1, "target_volatility", Abs(future), "returns");
    GetSet(f1, "target_volatility", Abs(future), "future_returns");
    GetSet(f1, "target_volatility", Abs(future), "target_volatility");
    GetSet(f2, "target_realized_vol", realized, "returns");
    GetSet(f2, "target_realized_vol", realized, "future_returns");
    GetSet(f2, "target_realized_vol", realized, "target_volatility");
    GetSet(f2, "target_realized_vol", realized, "target_realized_vol");
  }

  /** Row `t` of the future returns for a horizon `h >= 0`: the return `h` rows later,
      undefined for the last `h` rows; the target is its magnitude, defined at the same
      rows and never negative. */
  lemma FutureRows(r: Col, h: int, t: nat)
    requires h >= 0 && t < |r|
    ensures var future, target := Shift(r, -h), Abs(Shift(r, -h));
      |future| == |target| == |r| &&
      (t + h < |r| ==> future[t] == r[t + h]) && (|r| <= t + h ==> future[t].None?) &&
      (target[t].Some? <==> future[t].Some?) &&
      (target[t].Some? ==> target[t].value >= 0.0 && (target[t].value == future[t].value || target[t].value == -future[t].value))
  {
    LeadValue(r, h, t);
  }

  /** Row `t` of the realized target for a horizon `h > 1`: the deviation of the `h`
      returns after row `t` (rows `t + 1 .. t + h`), defined exactly when all of them
      exist and are present and `t >= h - 1` (the rolling window's warm-up). */
  lemma RealizedRows(r: Col, h: nat, std: seq<real> -> real, t: nat)
    requires h > 1 && t < |r|
    ensures var realized := RollingStd(Shift(r, -(h as int)), h, std);
      |realized| == |r| &&
      (realized[t].Some? <==> h <= t + 1 && t + h < |r| && forall j :: t < j <= t + h ==> r[j].Some?) &&
      (realized[t].Some? ==> realized[t] == Some(std(Values(r[t + 1 .. t + h + 1]))))
  {
    var future := Shift(r, -(h as int));
    RollingStdDefined(future, h, t, std);
    if h <= t + 1 && t + h < |r| {
      forall i | t + 1 - h <= i <= t ensures future[i] == r[i + h] {
        LeadValue(r, h, i);
      }
      if forall j :: t < j <= t + h ==> r[j].Some? {
        assert forall i :: t + 1 - h <= i <= t ==> future[i].Some? by {
          forall i | t + 1 - h <= i <= t ensures future[i].Some? {
            assert r[i + h].Some?;
          }
        }
        var w := Window(future, t, h).value;
        var vs := Values(r[t + 1 .. t + h + 1]);
        forall j | 0 <= j < h ensures w[j] == vs[j] {
          assert future[t + 1 - h + j] == Some(w[j]);
          assert r[t + 1 .. t + h + 1][j] == r[t + 1 + j];
        }
        assert w == vs;
      } else {
        var j :| t < j <= t + h && r[j].None?;
        assert future[j - h].None?;
      }
    } else if h <= t + 1 {
      LeadValue(r, h, t);
    }
  }
}
