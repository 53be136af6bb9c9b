/** The pandas Series operations the transformer uses, on one column of a frame.
    A column is a value per row, `None` standing for NaN. Binary operations align
    two columns of the same frame row by row. */
module Series {
  import opened Wrappers

  type Col = seq<Option<real>>

  /** Row `t` of `s`, NaN outside the rows `s` has. */
  function At(s: Col, t: int): Option<real>
  {
    if 0 <= t < |s| then s[t] else None
  }

  /** The first `m` rows of a column (all of them when it has fewer). */
  function Prefix(s: Col, m: nat): (p: Col)
    ensures |p| == if m <= |s| then m else |s|
    ensures forall t :: 0 <= t < |p| ==> p[t] == s[t]
  {
    if m <= |s| then s[..m] else s
  }

  // ---------------------------------------------------------------- cell arithmetic

  function AddOpt(a: Option<real>, b: Option<real>): Option<real>
  {
    if a.Some? && b.Some? then Some(a.value + b.value) else None
  }

  function SubOpt(a: Option<real>, b: Option<real>): Option<real>
  {
    if a.Some? && b.Some? then Some(a.value - b.value) else None
  }

  /** Division with an explicit policy for a zero divisor: the cell is undefined.
      (IEEE arithmetic would give an infinity, or NaN for 0/0.) */
  function DivOpt(a: Option<real>, b: Option<real>): Option<real>
  {
    if a.Some? && b.Some? && b.value != 0.0 then Some(a.value / b.value) else None
  }

  function ScaleOpt(c: real, a: Option<real>): Option<real>
  {
    if a.Some? then Some(c * a.value) else None
  }

  function AbsOpt(a: Option<real>): Option<real>
  {
    if a.Some? then Some(if a.value < 0.0 then -a.value else a.value) else None
  }

  // ---------------------------------------------------------------- element-wise columns

  /** `s.shift(k)`: row `t` holds row `t - k` (a later row when `k` is negative). */
  function Shift(s: Col, k: int): Col
  {
    seq(|s|, t requires 0 <= t < |s| => At(s, t - k))
  }

  function Add(a: Col, b: Col): Col
  {
    seq(|a|, t requires 0 <= t < |a| => AddOpt(a[t], At(b, t)))
  }

  function Sub(a: Col, b: Col): Col
  {
    seq(|a|, t requires 0 <= t < |a| => SubOpt(a[t], At(b, t)))
  }

  function Quot(a: Col, b: Col): Col
  {
    seq(|a|, t requires 0 <= t < |a| => DivOpt(a[t], At(b, t)))
  }

  function Scale(c: real, s: Col): Col
  {
    seq(|s|, t requires 0 <= t < |s| => ScaleOpt(c, s[t]))
  }

  /** `s.abs()` */
  function Abs(s: Col): Col
  {
    seq(|s|, t requires 0 <= t < |s| => AbsOpt(s[t]))
  }

  /** A float routine applied to every present cell (NaN stays NaN). */
  function MapPresent(s: Col, g: real -> Option<real>): Col
  {
    seq(|s|, t requires 0 <= t < |s| => if s[t].Some? then g(s[t].value) else None)
  }

  /** `s.diff()`: row `t` minus row `t - 1`. */
  function Diff(s: Col): Col
  {
    seq(|s|, t requires 0 <= t < |s| => SubOpt(s[t], At(s, t - 1)))
  }

  /** The last present value of `s`, if any. */
  function LastPresent(s: Col): (r: Option<real>)
    ensures r.Some? <==> exists i :: 0 <= i < |s| && s[i].Some?
  {
    if s == [] then None
    else if s[|s| - 1].Some? then s[|s| - 1]
    else LastPresent(s[..|s| - 1])
  }

  /** `s.ffill()`: every NaN replaced by the last value before it. */
  function FFill(s: Col): Col
  {
    seq(|s|, t requires 0 <= t < |s| => LastPresent(s[..t + 1]))
  }

  /** `s.pct_change()` with pandas' default `fill_method='pad'`: the column is
      forward-filled, then each row is divided by the one before, minus one. */
  function PctChange(s: Col): Col
  {
    var p := FFill(s);
    seq(|s|, t requires 0 <= t < |s| =>
      var q := DivOpt(p[t], At(p, t - 1));
      if q.Some? then Some(q.value - 1.0) else None)
  }

  /** `delta.where(delta > 0, 0)`: NaN fails `> 0`, so it becomes 0 as well. */
  function Gains(delta: Col): Col
  {
    seq(|delta|, t requires 0 <= t < |delta| =>
      Some(if delta[t].Some? && delta[t].value > 0.0 then delta[t].value else 0.0))
  }

  /** `-delta.where(delta < 0, 0)` */
  function Losses(delta: Col): Col
  {
    seq(|delta|, t requires 0 <= t < |delta| =>
      Some(if delta[t].Some? && delta[t].value < 0.0 then -delta[t].value else 0.0))
  }

  // ---------------------------------------------------------------- rolling windows

  predicate AllPresent(xs: Col)
  {
    forall i :: 0 <= i < |xs| ==> xs[i].Some?
  }

  function Values(xs: Col): (vs: seq<real>)
    requires AllPresent(xs)
    ensures |vs| == |xs|
    ensures forall i :: 0 <= i < |xs| ==> xs[i] == Some(vs[i])
  {
    seq(|xs|, i requires 0 <= i < |xs| => xs[i].value)
  }

  /** The values of rows `t - w + 1 .. t`, when there are `w` of them and none is NaN:
      pandas' `rolling(window=w)` with its default `min_periods = w`. */
  function Window(s: Col, t: nat, w: nat): (r: Option<seq<real>>)
    requires t < |s|
    ensures r.Some? <==> 1 <= w <= t + 1 && forall i :: t + 1 - w <= i <= t ==> s[i].Some?
    ensures r.Some? ==> |r.value| == w && forall j :: 0 <= j < w ==> s[t + 1 - w + j] == Some(r.value[j])
  {
    if 1 <= w <= t + 1 && AllPresent(s[t + 1 - w .. t + 1]) then Some(Values(s[t + 1 - w .. t + 1])) else None
  }

  function Sum(xs: seq<real>): real
  {
    if xs == [] then 0.0 else Sum(xs[..|xs| - 1]) + xs[|xs| - 1]
  }

  function Mean(xs: seq<real>): real
    requires xs != []
  {
    Sum(xs) / |xs| as real
  }

  function Min(xs: seq<real>): (m: real)
    requires xs != []
    ensures forall i :: 0 <= i < |xs| ==> m <= xs[i]
    ensures exists i :: 0 <= i < |xs| && m == xs[i]
  {
    if |xs| == 1 then xs[0]
    else
      var m' := Min(xs[..|xs| - 1]);
      assert forall i :: 0 <= i < |xs| - 1 ==> xs[..|xs| - 1][i] == xs[i];
      if xs[|xs| - 1] < m' then xs[|xs| - 1] else m'
  }

  function Max(xs: seq<real>): (m: real)
    requires xs != []
    ensures forall i :: 0 <= i < |xs| ==> xs[i] <= m
    ensures exists i :: 0 <= i < |xs| && m == xs[i]
  {
    if |xs| == 1 then xs[0]
    else
      var m' := Max(xs[..|xs| - 1]);
      assert forall i :: 0 <= i < |xs| - 1 ==> xs[..|xs| - 1][i] == xs[i];
      if xs[|xs| - 1] > m' then xs[|xs| - 1] else m'
  }

  function RollingMean(s: Col, w: nat): Col
  {
    seq(|s|, t requires 0 <= t < |s| => var r := Window(s, t, w); if r.Some? then Some(Mean(r.value)) else None)
  }

  function RollingMin(s: Col, w: nat): Col
  {
    seq(|s|, t requires 0 <= t < |s| => var r := Window(s, t, w); if r.Some? then Some(Min(r.value)) else None)
  }

  function RollingMax(s: Col, w: nat): Col
  {
    seq(|s|, t requires 0 <= t < |s| => var r := Window(s, t, w); if r.Some? then Some(Max(r.value)) else None)
  }

  /** `rolling(window=w).std()`: the sample deviation (ddof = 1) is undefined for fewer
      than two values; otherwise it is the float routine `std` of the window. */
  function RollingStd(s: Col, w: nat, std: seq<real> -> real): Col
  {
    seq(|s|, t requires 0 <= t < |s| =>
      var r := Window(s, t, w); if w >= 2 && r.Some? then Some(std(r.value)) else None)
  }

  /** `ewm(span=span, adjust=False).mean()`: row `t` is the float routine `ewm` of
      rows `0 .. t`. */
  function Ewm(s: Col, span: nat, ewm: (nat, Col) -> Option<real>): Col
  {
    seq(|s|, t requires 0 <= t < |s| => ewm(span, s[..t + 1]))
  }

  /** `100 - 100 / (1 + gain / loss)`, with the zero-loss case made explicit: a positive
      gain over no loss gives 100 (the IEEE result of dividing by zero); no gain and no
      loss give NaN. */
  function RsiOf(gain: real, loss: real): Option<real>
  {
    if loss == 0.0 then (if gain == 0.0 then None else Some(100.0))
    else if 1.0 + gain / loss == 0.0 then None
    else Some(100.0 - 100.0 / (1.0 + gain / loss))
  }

  function Rsi(avgGain: Col, avgLoss: Col): Col
  {
    seq(|avgGain|, t requires 0 <= t < |avgGain| =>
      var g, l := avgGain[t], At(avgLoss, t);
      if g.Some? && l.Some? then RsiOf(g.value, l.value) else None)
  }
}
