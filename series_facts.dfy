/** What the column operations promise: the values they produce row by row, and that
    every operation except a shift into the future reads no row after the current one
    (computing it over the first `m` rows gives the first `m` rows of the result). */
module SeriesFacts {
  import opened Wrappers
  import opened Series

  // ---------------------------------------------------------------- values

  lemma AtPrefix(s: Col, m: nat, t: int)
    requires t < m
    ensures At(Prefix(s, m), t) == At(s, t)
  {
  }

  /** `s.ffill()` keeps every present value. */
  lemma FFillPresent(s: Col, t: nat)
    requires t < |s| && s[t].Some?
    ensures FFill(s)[t] == s[t]
  {
    assert s[..t + 1][t] == s[t];
  }

  /** `pct_change` at row `t` is the ratio of two present prices minus one; it is NaN at
      the first row, and NaN (rather than an infinity) after a zero price. */
  lemma PctChangeValue(s: Col, t: nat)
    requires t < |s|
    ensures t == 0 ==> PctChange(s)[t].None?
    ensures 1 <= t && s[t].Some? && s[t - 1].Some? && s[t - 1].value != 0.0 ==>
      PctChange(s)[t] == Some(s[t].value / s[t - 1].value - 1.0)
    ensures 1 <= t && s[t - 1] == Some(0.0) ==> PctChange(s)[t].None?
  {
    if 1 <= t && s[t - 1].Some? {
      FFillPresent(s, t - 1);
      if s[t].Some? {
        FFillPresent(s, t);
      }
    }
  }

  /** A lag of `k >= 0` rows: the value `k` rows earlier, NaN for the first `k` rows. */
  lemma ShiftValue(s: Col, k: nat, t: nat)
    requires t < |s|
    ensures |Shift(s, k)| == |s|
    ensures t < k ==> Shift(s, k)[t].None?
    ensures k <= t ==> Shift(s, k)[t] == s[t - k]
  {
    assert Shift(s, k)[t] == At(s, t - k);
  }

  /** A shift by `-h`: the value `h` rows later, NaN for the last `h` rows. */
  lemma LeadValue(s: Col, h: int, t: nat)
    requires h >= 0 && t < |s|
    ensures t + h < |s| ==> Shift(s, -h)[t] == s[t + h]
    ensures |s| <= t + h ==> Shift(s, -h)[t].None?
  {
    assert Shift(s, -h)[t] == At(s, t + h);
  }

  /** `delta.where(delta > 0, 0)` and `-delta.where(delta < 0, 0)`: every row holds a
      number at least zero, NaN rows included, and one of the two is zero. */
  lemma GainsLossesValues(delta: Col, t: nat)
    requires t < |delta|
    ensures Gains(delta)[t].Some? && Gains(delta)[t].value >= 0.0
    ensures Losses(delta)[t].Some? && Losses(delta)[t].value >= 0.0
    ensures Gains(delta)[t].value == 0.0 || Losses(delta)[t].value == 0.0
    ensures delta[t].None? ==> Gains(delta)[t] == Some(0.0) && Losses(delta)[t] == Some(0.0)
    ensures delta[t].Some? ==> delta[t].value == Gains(delta)[t].value - Losses(delta)[t].value
  {
  }

  /** The first difference is NaN, so the first gain and loss are both 0. */
  lemma FirstGainLoss(s: Col)
    requires |s| > 0
    ensures Gains(Diff(s))[0] == Some(0.0) && Losses(Diff(s))[0] == Some(0.0)
  {
  }

  lemma {:induction false} SumBounds(xs: seq<real>, lo: real, hi: real)
    requires forall i :: 0 <= i < |xs| ==> lo <= xs[i] <= hi
    ensures |xs| as real * lo <= Sum(xs) <= |xs| as real * hi
  {
    if xs != [] {
      var init := xs[..|xs| - 1];
      assert forall i :: 0 <= i < |init| ==> init[i] == xs[i];
      SumBounds(init, lo, hi);
      assert |xs| as real * lo == |init| as real * lo + lo;
      assert |xs| as real * hi == |init| as real * hi + hi;
    }
  }

  lemma QuotientBounds(lo: real, x: real, hi: real, n: real)
    requires n > 0.0 && n * lo <= x <= n * hi
    ensures lo <= x / n <= hi
  {
  }

  /** The mean of a window lies between its minimum and its maximum. */
  lemma MeanBetween(xs: seq<real>)
    requires xs != []
    ensures Min(xs) <= Mean(xs) <= Max(xs)
  {
    SumBounds(xs, Min(xs), Max(xs));
    QuotientBounds(Min(xs), Sum(xs), Max(xs), |xs| as real);
  }

  /** A rolling mean of a column of numbers at least zero is at least zero. */
  lemma RollingMeanNonNegative(s: Col, w: nat, t: nat)
    requires t < |s|
    requires forall i :: 0 <= i < |s| ==> s[i].Some? && s[i].value >= 0.0
    ensures RollingMean(s, w)[t].Some? ==> RollingMean(s, w)[t].value >= 0.0
  {
    var r := Window(s, t, w);
    if r.Some? {
      forall j | 0 <= j < |r.value| ensures 0.0 <= r.value[j] <= Max(r.value) {
        assert s[t + 1 - w + j] == Some(r.value[j]);
      }
      SumBounds(r.value, 0.0, Max(r.value));
      QuotientBounds(0.0, Sum(r.value), Max(r.value), |r.value| as real);
    }
  }

  /** The rolling mean, minimum and maximum are defined at exactly the same rows: those
      with `w` present values ending at the row. There the mean lies between the other
      two. */
  lemma RollingBetween(s: Col, w: nat, t: nat)
    requires t < |s|
    ensures RollingMean(s, w)[t].Some? <==> 1 <= w <= t + 1 && forall i :: t + 1 - w <= i <= t ==> s[i].Some?
    ensures RollingMin(s, w)[t].Some? == RollingMean(s, w)[t].Some? == RollingMax(s, w)[t].Some?
    ensures RollingMean(s, w)[t].Some? ==>
      RollingMin(s, w)[t].value <= RollingMean(s, w)[t].value <= RollingMax(s, w)[t].value
  {
    var r := Window(s, t, w);
    if r.Some? {
      MeanBetween(r.value);
    }
  }

  /** `rolling(w).std()` is defined exactly where a window of at least two values exists;
      it is then the deviation of that window. */
  lemma RollingStdDefined(s: Col, w: nat, t: nat, std: seq<real> -> real)
    requires t < |s|
    ensures RollingStd(s, w, std)[t].Some? <==> 2 <= w <= t + 1 && forall i :: t + 1 - w <= i <= t ==> s[i].Some?
    ensures RollingStd(s, w, std)[t].Some? ==> RollingStd(s, w, std)[t] == Some(std(Window(s, t, w).value))
  {
    var r := Window(s, t, w);
    assert RollingStd(s, w, std)[t] == if w >= 2 && r.Some? then Some(std(r.value)) else None;
  }

  /** The RSI of an average gain over a positive average loss lies in [0, 100) and is
      `100 - 100 / (1 + gain / loss)`; with no loss it is 100 after a gain and NaN when
      nothing moved. */
  lemma RsiRange(gain: real, loss: real)
    requires gain >= 0.0 && loss >= 0.0
    ensures loss > 0.0 ==>
      RsiOf(gain, loss).Some? &&
      RsiOf(gain, loss).value == 100.0 - 100.0 / (1.0 + gain / loss) &&
      0.0 <= RsiOf(gain, loss).value < 100.0
    ensures loss == 0.0 ==> RsiOf(gain, loss) == if gain == 0.0 then None else Some(100.0)
  {
    if loss > 0.0 {
      var rs := gain / loss;
      assert rs >= 0.0;
      assert 0.0 < 100.0 / (1.0 + rs) <= 100.0;
    }
  }

  // ---------------------------------------------------------------- causality

  lemma ShiftCausal(s: Col, k: nat, m: nat)
    ensures Shift(Prefix(s, m), k) == Prefix(Shift(s, k), m)
  {
    forall t | 0 <= t < |Prefix(s, m)| ensures Shift(Prefix(s, m), k)[t] == Shift(s, k)[t] {
      AtPrefix(s, m, t - k);
    }
  }

  lemma AddCausal(a: Col, b: Col, m: nat)
    ensures Add(Prefix(a, m), Prefix(b, m)) == Prefix(Add(a, b), m)
  {
  }

  lemma SubCausal(a: Col, b: Col, m: nat)
    ensures Sub(Prefix(a, m), Prefix(b, m)) == Prefix(Sub(a, b), m)
  {
  }

  lemma QuotCausal(a: Col, b: Col, m: nat)
    ensures Quot(Prefix(a, m), Prefix(b, m)) == Prefix(Quot(a, b), m)
  {
  }

  lemma ScaleCausal(c: real, s: Col, m: nat)
    ensures Scale(c, Prefix(s, m)) == Prefix(Scale(c, s), m)
  {
  }

  lemma AbsCausal(s: Col, m: nat)
    ensures Abs(Prefix(s, m)) == Prefix(Abs(s), m)
  {
  }

  lemma MapPresentCausal(s: Col, g: real -> Option<real>, m: nat)
    ensures MapPresent(Prefix(s, m), g) == Prefix(MapPresent(s, g), m)
  {
  }

  lemma DiffCausal(s: Col, m: nat)
    ensures Diff(Prefix(s, m)) == Prefix(Diff(s), m)
  {
  }

  lemma GainsLossesCausal(s: Col, m: nat)
    ensures Gains(Prefix(s, m)) == Prefix(Gains(s), m)
    ensures Losses(Prefix(s, m)) == Prefix(Losses(s), m)
  {
  }

  lemma FFillCausal(s: Col, m: nat)
    ensures FFill(Prefix(s, m)) == Prefix(FFill(s), m)
  {
    var p := Prefix(s, m);
    forall t | 0 <= t < |p| ensures FFill(p)[t] == FFill(s)[t] {
      assert p[..t + 1] == s[..t + 1];
    }
  }

  lemma PctChangeCausal(s: Col, m: nat)
    ensures PctChange(Prefix(s, m)) == Prefix(PctChange(s), m)
  {
    FFillCausal(s, m);
  }

  lemma WindowCausal(s: Col, m: nat, t: nat, w: nat)
    requires t < |Prefix(s, m)|
    ensures Window(Prefix(s, m), t, w) == Window(s, t, w)
  {
    if 1 <= w <= t + 1 {
      assert Prefix(s, m)[t + 1 - w .. t + 1] == s[t + 1 - w .. t + 1];
    }
  }

  lemma RollingCausal(s: Col, w: nat, m: nat, std: seq<real> -> real)
    ensures RollingMean(Prefix(s, m), w) == Prefix(RollingMean(s, w), m)
    ensures RollingMin(Prefix(s, m), w) == Prefix(RollingMin(s, w), m)
    ensures RollingMax(Prefix(s, m), w) == Prefix(RollingMax(s, w), m)
    ensures RollingStd(Prefix(s, m), w, std) == Prefix(RollingStd(s, w, std), m)
  {
    forall t | 0 <= t < |Prefix(s, m)| ensures Window(Prefix(s, m), t, w) == Window(s, t, w) {
      WindowCausal(s, m, t, w);
    }
  }

  lemma EwmCausal(s: Col, span: nat, m: nat, ewm: (nat, Col) -> Option<real>)
    ensures Ewm(Prefix(s, m), span, ewm) == Prefix(Ewm(s, span, ewm), m)
  {
    forall t | 0 <= t < |Prefix(s, m)| ensures Ewm(Prefix(s, m), span, ewm)[t] == Ewm(s, span, ewm)[t] {
      assert Prefix(s, m)[..t + 1] == s[..t + 1];
    }
  }

  lemma RsiCausal(g: Col, l: Col, m: nat)
    ensures Rsi(Prefix(g, m), Prefix(l, m)) == Prefix(Rsi(g, l), m)
  {
  }
}
