/** The names `transform` appends to `feature_names`. When the windows are distinct, the
    lags are distinct and every lag source is a column, no name is appended twice and
    none is the name of a target column; with the default windows and lags there are
    fifty of them. */
module FeatureNames {
  import opened Text
  import opened Frames
  import opened Transform
  import opened TransformFacts

  // ---------------------------------------------------------------- the names in order

  /** The lags of each column in `cols`, column by column. */
  function LagNamesOver(cols: seq<string>, lags: seq<int>): seq<string>
  {
    if cols == [] then [] else LagNamesOver(cols[..|cols| - 1], lags) + LagNames(cols[|cols| - 1], lags)
  }

  /** What the feature steps append when nothing raises, there is a volume column and
      every lag source is a column. */
  function FeatureNamesOf(windows: seq<nat>, lags: seq<int>): seq<string>
  {
    ReturnNames + VolatilityNames(windows) + LagNamesOver(LagSources, lags) + RollingNames(windows)
      + (VolumeNames + IndicatorNames) + (HourNames + CalendarNames)
  }

  lemma {:induction false} LagsAllPresent(f: Frame, cols: seq<string>, lags: seq<int>)
    requires forall c :: c in cols ==> c in Names(f)
    ensures Lags(f, cols, lags).added == LagNamesOver(cols, lags)
  {
    if cols != [] {
      var init := cols[..|cols| - 1];
      LagsAllPresent(f, init, lags);
      LagsWrites(f, init, lags);
      assert cols[|cols| - 1] in Names(Lags(f, init, lags).frame);
    }
  }

  lemma LagSourceNames(lags: seq<int>)
    ensures LagNamesOver(LagSources, lags) == LagNames("close", lags) + LagNames("returns", lags) + LagNames("volume", lags)
  {
    assert LagSources[..2] == ["close", "returns"];
    assert ["close", "returns"][..1] == ["close"];
    assert ["close"][..0] == [];
    assert LagNamesOver(["close"], lags) == LagNames("close", lags);
    assert LagNamesOver(["close", "returns"], lags) == LagNames("close", lags) + LagNames("returns", lags);
  }

  /** `transform` appends what the feature steps append, whatever happens afterwards. */
  lemma PipelineAdded(f: Frame, target: string, horizon: int, windows: seq<nat>, lagCols: seq<string>, lags: seq<int>, num: Numerics)
    ensures Pipeline(f, target, horizon, windows, lagCols, lags, num).added == Features(f, target, windows, lagCols, lags, num).added
  {
  }

  /** With the target column, `calculate_returns` and `calculate_volatility` append
      the return names and one volatility name per window, and keep every column. */
  lemma FirstAdded(f: Frame, target: string, windows: seq<nat>, num: Numerics)
    requires target in Names(f)
    ensures var s1 := Returns(f, target, num);
      s1.result.Ok? && s1.added == ReturnNames &&
      var s2 := Volatility(s1.result.value, target, windows, num);
      s2.result.Ok? && s2.added == VolatilityNames(windows) && s2.result.value.index == f.index &&
      "returns" in Names(s2.result.value) && forall n :: n in Names(f) ==> n in Names(s2.result.value)
  {
    var s1 := Returns(f, target, num);
    ReturnsWrites(f, target, num);
    var g1 := s1.result.value;
    assert "returns" in Names(g1);
    VolatilityWrites(g1, target, windows, num);
  }

  /** On a frame with the target, `close`, `returns` and `volume` columns and a datetime
      index, the later feature steps append every lag name, the rolling names, the
      volume names before the indicator names, and the time names. */
  lemma LaterAdded(g2: Frame, target: string, windows: seq<nat>, lags: seq<int>, num: Numerics)
    requires target in Names(g2) && "close" in Names(g2) && "returns" in Names(g2) && "volume" in Names(g2)
    requires g2.index.DatetimeIndex?
    ensures var s3 := Lags(g2, LagSources, lags);
      var s4 := Rolling(s3.frame, target, windows, num);
      s4.result.Ok? &&
      var s5 := Technical(s4.result.value, target, num);
      s5.result.Ok? &&
      var s6 := Time(s5.result.value, num);
      s6.result.Ok? &&
      s3.added == LagNamesOver(LagSources, lags) && s4.added == RollingNames(windows) &&
      s5.added == VolumeNames + IndicatorNames && s6.added == HourNames + CalendarNames
  {
    LagsAllPresent(g2, LagSources, lags);
    var s3 := Lags(g2, LagSources, lags);
    LagsWrites(g2, LagSources, lags);
    var s4 := Rolling(s3.frame, target, windows, num);
    RollingWrites(s3.frame, target, windows, num);
    var g4 := s4.result.value;
    IndicatorsWrites(g4, target, num);
    TechnicalWrites(g4, target, num);
    var g5 := Technical(g4, target, num).result.value;
    TimeWrites(g5, num);
  }

  /** With the target, a volume column and a datetime index, the feature steps append
      exactly `FeatureNamesOf(windows, lags)`. */
  lemma FeaturesAdded(f: Frame, target: string, windows: seq<nat>, lags: seq<int>, num: Numerics)
    requires target in Names(f) && "close" in Names(f) && "volume" in Names(f) && f.index.DatetimeIndex?
    ensures Features(f, target, windows, LagSources, lags, num).added == FeatureNamesOf(windows, lags)
  {
    var s1 := Returns(f, target, num);
    FirstAdded(f, target, windows, num);
    var s2 := Volatility(s1.result.value, target, windows, num);
    var g2 := s2.result.value;
    LaterAdded(g2, target, windows, lags, num);
    var s3 := Lags(g2, LagSources, lags);
    var s4 := Rolling(s3.frame, target, windows, num);
    var s5 := Technical(s4.result.value, target, num);
    FeaturesSteps(f, target, windows, LagSources, lags, num);
  }

  /** When no step before the time step raises, the feature steps append what each
      step appends, in order. */
  lemma FeaturesSteps(f: Frame, target: string, windows: seq<nat>, lagCols: seq<string>, lags: seq<int>, num: Numerics)
    ensures var s1 := Returns(f, target, num);
      s1.result.Ok? && Volatility(s1.result.value, target, windows, num).result.Ok? ==>
      var s2 := Volatility(s1.result.value, target, windows, num);
      var s3 := Lags(s2.result.value, lagCols, lags);
      var s4 := Rolling(s3.frame, target, windows, num);
      s4.result.Ok? && Technical(s4.result.value, target, num).result.Ok? ==>
      var s5 := Technical(s4.result.value, target, num);
      var s6 := Time(s5.result.value, num);
      Features(f, target, windows, lagCols, lags, num).added == s1.added + s2.added + s3.added + s4.added + s5.added + s6.added
  {
  }

  // ---------------------------------------------------------------- fingerprints

  // A proof device with no counterpart in `transform`: fingerprints exist only to show
  // that the feature names are distinct.

  /** Four characters of a name, a blank standing for one past its end. */
  datatype Fingerprint = Fingerprint(first: char, fifth: char, eighth: char, ninth: char)

  function CharAt(x: string, i: nat): char
  {
    if i < |x| then x[i] else ' '
  }

  /** Names with different fingerprints differ; every stem of a feature name has a
      fingerprint of its own. */
  function Key(x: string): Fingerprint
  {
    Fingerprint(CharAt(x, 0), CharAt(x, 4), CharAt(x, 7), CharAt(x, 8))
  }

  predicate KeysIn(xs: seq<string>, keys: seq<Fingerprint>)
  {
    forall x :: x in xs ==> Key(x) in keys
  }

  predicate Apart(ka: seq<Fingerprint>, kb: seq<Fingerprint>)
  {
    forall k :: k in ka ==> k !in kb
  }

  /** The fingerprint of a name with a stem of at least nine characters is the stem's. */
  lemma StemKey(p: string, d: string)
    requires |p| >= 9
    ensures Key(p + d) == Key(p)
  {
    assert (p + d)[0] == p[0] && (p + d)[4] == p[4] && (p + d)[7] == p[7] && (p + d)[8] == p[8];
  }

  /** Names with fingerprints apart are different. */
  lemma KeysApart(a: seq<string>, b: seq<string>, ka: seq<Fingerprint>, kb: seq<Fingerprint>)
    requires KeysIn(a, ka) && KeysIn(b, kb) && Apart(ka, kb)
    ensures forall x :: x in a ==> x !in b
  {
  }

  /** A common stem keeps different endings apart. */
  lemma Cancel(p: string, a: string, b: string)
    requires a != b
    ensures p + a != p + b
  {
    assert (p + a)[|p|..] == a;
    assert (p + b)[|p|..] == b;
  }

  lemma DistinctConcat<T>(a: seq<T>, b: seq<T>)
    requires Distinct(a) && Distinct(b)
    requires forall x :: x in a ==> x !in b
    ensures Distinct(a + b)
  {
    forall i, j | 0 <= i < j < |a + b| ensures (a + b)[i] != (a + b)[j] {
      if j < |a| {
        assert (a + b)[i] == a[i] && (a + b)[j] == a[j];
      } else if i >= |a| {
        assert (a + b)[i] == b[i - |a|] && (a + b)[j] == b[j - |a|];
      } else {
        assert (a + b)[i] in a && (a + b)[j] in b;
      }
    }
  }

  lemma DistinctInit<T>(s: seq<T>)
    requires Distinct(s) && s != []
    ensures Distinct(s[..|s| - 1]) && s[|s| - 1] !in s[..|s| - 1]
  {
    var init := s[..|s| - 1];
    forall i, j | 0 <= i < j < |init| ensures init[i] != init[j] {
      assert init[i] == s[i] && init[j] == s[j];
    }
    forall i | 0 <= i < |init| ensures init[i] != s[|s| - 1] {
      assert init[i] == s[i];
    }
  }

  // ---------------------------------------------------------------- volatility names

  lemma {:induction false} VolatilityStems(windows: seq<nat>)
    ensures forall x :: x in VolatilityNames(windows) ==> Key(x) == Key("volatility_")
  {
    if windows != [] {
      VolatilityStems(windows[..|windows| - 1]);
      StemKey("volatility_", NatToString(windows[|windows| - 1]));
    }
  }

  lemma {:induction false} VolatilityFresh(windows: seq<nat>, w: nat)
    requires w !in windows
    ensures VolatilityName(w) !in VolatilityNames(windows)
  {
    if windows != [] {
      var v := windows[|windows| - 1];
      VolatilityFresh(windows[..|windows| - 1], w);
      NatToStringInjective(v, w);
      Cancel("volatility_", NatToString(v), NatToString(w));
    }
  }

  lemma {:induction false} VolatilityDistinct(windows: seq<nat>)
    requires Distinct(windows)
    ensures Distinct(VolatilityNames(windows))
  {
    if windows != [] {
      var init := windows[..|windows| - 1];
      DistinctInit(windows);
      VolatilityDistinct(init);
      VolatilityFresh(init, windows[|windows| - 1]);
      DistinctConcat(VolatilityNames(init), [VolatilityName(windows[|windows| - 1])]);
    }
  }

  // ---------------------------------------------------------------- lag names

  lemma {:induction false} LagStems(col: string, lags: seq<int>)
    requires |col| >= 4
    ensures forall x :: x in LagNames(col, lags) ==> Key(x) == Key(col + "_lag_")
  {
    if lags != [] {
      LagStems(col, lags[..|lags| - 1]);
      StemKey(col + "_lag_", IntToString(lags[|lags| - 1]));
    }
  }

  lemma {:induction false} LagFresh(col: string, lags: seq<int>, k: int)
    requires k !in lags
    ensures LagName(col, k) !in LagNames(col, lags)
  {
    if lags != [] {
      var j := lags[|lags| - 1];
      LagFresh(col, lags[..|lags| - 1], k);
      IntToStringInjective(j, k);
      Cancel(col + "_lag_", IntToString(j), IntToString(k));
    }
  }

  lemma {:induction false} LagDistinct(col: string, lags: seq<int>)
    requires Distinct(lags)
    ensures Distinct(LagNames(col, lags))
  {
    if lags != [] {
      var init := lags[..|lags| - 1];
      DistinctInit(lags);
      LagDistinct(col, init);
      LagFresh(col, init, lags[|lags| - 1]);
      DistinctConcat(LagNames(col, init), [LagName(col, lags[|lags| - 1])]);
    }
  }

  // ---------------------------------------------------------------- rolling names

  lemma WindowStems(w: nat)
    ensures KeysIn(WindowNames(w), RollingKeys)
  {
    var d := NatToString(w);
    StemKey("close_ma_", d);
    StemKey("close_std_", d);
    StemKey("close_min_", d);
    StemKey("close_max_", d);
    StemKey("bb_upper_", d);
    StemKey("bb_lower_", d);
  }

  lemma {:induction false} RollingStems(windows: seq<nat>)
    ensures KeysIn(RollingNames(windows), RollingKeys)
  {
    if windows != [] {
      RollingStems(windows[..|windows| - 1]);
      WindowStems(windows[|windows| - 1]);
    }
  }

  /** The six names of a window have six different stems. */
  lemma WindowDistinct(w: nat)
    ensures Distinct(WindowNames(w))
  {
    var d := NatToString(w);
    StemKey("close_ma_", d);
    StemKey("close_std_", d);
    StemKey("close_min_", d);
    StemKey("close_max_", d);
    StemKey("bb_upper_", d);
    StemKey("bb_lower_", d);
  }

  /** Two windows of different sizes share no name: the stems differ, or the sizes do. */
  lemma WindowsApart(v: nat, w: nat)
    requires v != w
    ensures forall x :: x in WindowNames(v) ==> x !in WindowNames(w)
  {
    var a := NatToString(v);
    var b := NatToString(w);
    NatToStringInjective(v, w);
    StemKey("close_ma_", a);
    StemKey("close_std_", a);
    StemKey("close_min_", a);
    StemKey("close_max_", a);
    StemKey("bb_upper_", a);
    StemKey("bb_lower_", a);
    StemKey("close_ma_", b);
    StemKey("close_std_", b);
    StemKey("close_min_", b);
    StemKey("close_max_", b);
    StemKey("bb_upper_", b);
    StemKey("bb_lower_", b);
    Cancel("close_ma_", a, b);
    Cancel("close_std_", a, b);
    Cancel("close_min_", a, b);
    Cancel("close_max_", a, b);
    Cancel("bb_upper_", a, b);
    Cancel("bb_lower_", a, b);
  }

  lemma {:induction false} RollingFresh(windows: seq<nat>, w: nat)
    requires w !in windows
    ensures forall x :: x in RollingNames(windows) ==> x !in WindowNames(w)
  {
    if windows != [] {
      RollingFresh(windows[..|windows| - 1], w);
      WindowsApart(windows[|windows| - 1], w);
    }
  }

  lemma {:induction false} RollingDistinct(windows: seq<nat>)
    requires Distinct(windows)
    ensures Distinct(RollingNames(windows))
  {
    if windows != [] {
      var init := windows[..|windows| - 1];
      DistinctInit(windows);
      RollingDistinct(init);
      RollingFresh(init, windows[|windows| - 1]);
      WindowDistinct(windows[|windows| - 1]);
      DistinctConcat(RollingNames(init), WindowNames(windows[|windows| - 1]));
    }
  }

  // ---------------------------------------------------------------- all names

  lemma {:induction false} VolatilityLength(windows: seq<nat>)
    ensures |VolatilityNames(windows)| == |windows|
  {
    if windows != [] {
      VolatilityLength(windows[..|windows| - 1]);
    }
  }

  lemma {:induction false} LagLength(col: string, lags: seq<int>)
    ensures |LagNames(col, lags)| == |lags|
  {
    if lags != [] {
      LagLength(col, lags[..|lags| - 1]);
    }
  }

  lemma {:induction false} RollingLength(windows: seq<nat>)
    ensures |RollingNames(windows)| == 6 * |windows|
  {
    if windows != [] {
      RollingLength(windows[..|windows| - 1]);
    }
  }

  const ReturnKeys := [Fingerprint('r', 'r', ' ', ' '), Fingerprint('l', 'r', 'u', 'r')]
  const VolatilityKey := Fingerprint('v', 't', 'i', 't')
  const LagKeys := [Fingerprint('c', 'e', 'a', 'g'), Fingerprint('r', 'r', '_', 'l'), Fingerprint('v', 'm', 'l', 'a')]
  const RollingKeys := [Fingerprint('c', 'e', 'a', '_'), Fingerprint('c', 'e', 't', 'd'), Fingerprint('c', 'e', 'i', 'n'),
    Fingerprint('c', 'e', 'a', 'x'), Fingerprint('b', 'p', 'r', '_'), Fingerprint('b', 'o', 'r', '_')]
  const IndicatorKeys := [Fingerprint('v', 'm', 'm', 'a'), Fingerprint('v', 'm', 'r', 'a'), Fingerprint('r', ' ', ' ', ' '),
    Fingerprint('m', ' ', ' ', ' '), Fingerprint('m', '_', 'g', 'n'), Fingerprint('m', '_', 'f', 'f'), Fingerprint('m', 'n', 'm', '_')]
  const TimeKeys := [Fingerprint('h', ' ', ' ', ' '), Fingerprint('h', '_', 'n', ' '), Fingerprint('h', '_', 's', ' '),
    Fingerprint('d', 'o', 'w', 'e'), Fingerprint('d', 'o', 'm', 'o'), Fingerprint('m', 'h', ' ', ' '), Fingerprint('q', 't', ' ', ' '),
    Fingerprint('d', 's', ' ', ' '), Fingerprint('d', 'c', ' ', ' ')]
  const TargetKeys := [Fingerprint('f', 'r', 'r', 'e'), Fingerprint('t', 'e', 'v', 'o'), Fingerprint('t', 'e', 'r', 'e')]

  /** Two lists of distinct names with fingerprints apart join into one. */
  lemma Join(a: seq<string>, b: seq<string>, ka: seq<Fingerprint>, kb: seq<Fingerprint>)
    requires Distinct(a) && Distinct(b) && KeysIn(a, ka) && KeysIn(b, kb) && Apart(ka, kb)
    ensures Distinct(a + b) && KeysIn(a + b, ka + kb)
  {
    KeysApart(a, b, ka, kb);
    DistinctConcat(a, b);
  }

  lemma LagStemKeys()
    ensures Key("close" + "_lag_") == LagKeys[0] && Key("returns" + "_lag_") == LagKeys[1]
    ensures Key("volume" + "_lag_") == LagKeys[2]
  {
  }

  lemma LagSourceKeys(lags: seq<int>)
    ensures KeysIn(LagNamesOver(LagSources, lags), LagKeys)
  {
    LagSourceNames(lags);
    LagStemKeys();
    LagStems("close", lags);
    LagStems("returns", lags);
    LagStems("volume", lags);
    var c, r, v := LagNames("close", lags), LagNames("returns", lags), LagNames("volume", lags);
    forall x | x in c + r + v ensures Key(x) in LagKeys {
      if x in c {
        assert Key(x) == LagKeys[0];
      } else if x in r {
        assert Key(x) == LagKeys[1];
      } else {
        assert Key(x) == LagKeys[2];
      }
    }
  }

  /** The lags of the three lag sources are distinct from each other. */
  lemma LagSourcesDistinct(lags: seq<int>)
    requires Distinct(lags)
    ensures Distinct(LagNamesOver(LagSources, lags)) && KeysIn(LagNamesOver(LagSources, lags), LagKeys)
  {
    var c := LagNames("close", lags);
    var r := LagNames("returns", lags);
    var v := LagNames("volume", lags);
    LagSourceNames(lags);
    LagDistinct("close", lags);
    LagDistinct("returns", lags);
    LagDistinct("volume", lags);
    LagStemKeys();
    LagStems("close", lags);
    LagStems("returns", lags);
    LagStems("volume", lags);
    Join(c, r, [LagKeys[0]], [LagKeys[1]]);
    Join(c + r, v, [LagKeys[0]] + [LagKeys[1]], [LagKeys[2]]);
    assert [LagKeys[0]] + [LagKeys[1]] + [LagKeys[2]] == LagKeys;
  }

  lemma IndicatorNamesDistinct()
    ensures Distinct(VolumeNames + IndicatorNames) && KeysIn(VolumeNames + IndicatorNames, IndicatorKeys)
  {
  }

  lemma TimeNamesDistinct()
    ensures Distinct(HourNames + CalendarNames) && KeysIn(HourNames + CalendarNames, TimeKeys)
  {
  }

  lemma ApartJoin(a: seq<Fingerprint>, b: seq<Fingerprint>, c: seq<Fingerprint>)
    requires Apart(a, c) && Apart(b, c)
    ensures Apart(a + b, c)
  {
  }

  lemma LagKeysApart()
    ensures Apart(ReturnKeys, [VolatilityKey]) && Apart(ReturnKeys, LagKeys) && Apart([VolatilityKey], LagKeys)
  {
  }

  lemma RollingKeysApart()
    ensures Apart(ReturnKeys, RollingKeys) && Apart([VolatilityKey], RollingKeys) && Apart(LagKeys, RollingKeys)
  {
  }

  lemma IndicatorKeysApart()
    ensures Apart(ReturnKeys, IndicatorKeys) && Apart([VolatilityKey], IndicatorKeys)
    ensures Apart(LagKeys, IndicatorKeys) && Apart(RollingKeys, IndicatorKeys)
  {
  }

  lemma TimeKeysApart()
    ensures Apart(ReturnKeys, TimeKeys) && Apart([VolatilityKey], TimeKeys) && Apart(LagKeys, TimeKeys)
  {
  }

  lemma LaterTimeKeysApart()
    ensures Apart(RollingKeys, TimeKeys) && Apart(IndicatorKeys, TimeKeys)
  {
  }

  /** The fingerprints of each step's names are apart from those of the steps before. */
  lemma KeyGroupsApart()
    ensures Apart(ReturnKeys, [VolatilityKey]) && Apart(ReturnKeys + [VolatilityKey], LagKeys)
    ensures Apart(ReturnKeys + [VolatilityKey] + LagKeys, RollingKeys)
    ensures Apart(ReturnKeys + [VolatilityKey] + LagKeys + RollingKeys, IndicatorKeys)
    ensures Apart(ReturnKeys + [VolatilityKey] + LagKeys + RollingKeys + IndicatorKeys, TimeKeys)
  {
    LagKeysApart();
    RollingKeysApart();
    IndicatorKeysApart();
    TimeKeysApart();
    LaterTimeKeysApart();
    var k1 := ReturnKeys + [VolatilityKey];
    var k2 := k1 + LagKeys;
    var k3 := k2 + RollingKeys;
    ApartJoin(ReturnKeys, [VolatilityKey], LagKeys);
    ApartJoin(ReturnKeys, [VolatilityKey], RollingKeys);
    ApartJoin(k1, LagKeys, RollingKeys);
    ApartJoin(ReturnKeys, [VolatilityKey], IndicatorKeys);
    ApartJoin(k1, LagKeys, IndicatorKeys);
    ApartJoin(k2, RollingKeys, IndicatorKeys);
    ApartJoin(ReturnKeys, [VolatilityKey], TimeKeys);
    ApartJoin(k1, LagKeys, TimeKeys);
    ApartJoin(k2, RollingKeys, TimeKeys);
    ApartJoin(k3, IndicatorKeys, TimeKeys);
  }

  /** The names `calculate_returns` and `calculate_volatility` append. */
  lemma FirstNamesDistinct(windows: seq<nat>)
    requires Distinct(windows)
    ensures Distinct(ReturnNames + VolatilityNames(windows))
    ensures KeysIn(ReturnNames + VolatilityNames(windows), ReturnKeys + [VolatilityKey])
  {
    VolatilityDistinct(windows);
    VolatilityStems(windows);
    assert Key("volatility_") == VolatilityKey;
    KeyGroupsApart();
    Join(ReturnNames, VolatilityNames(windows), ReturnKeys, [VolatilityKey]);
  }

  /** ... then those of `create_lag_features` ... */
  lemma LaggedNamesDistinct(windows: seq<nat>, lags: seq<int>)
    requires Distinct(windows) && Distinct(lags)
    ensures var n := ReturnNames + VolatilityNames(windows) + LagNamesOver(LagSources, lags);
      Distinct(n) && KeysIn(n, ReturnKeys + [VolatilityKey] + LagKeys)
  {
    FirstNamesDistinct(windows);
    LagSourcesDistinct(lags);
    KeyGroupsApart();
    Join(ReturnNames + VolatilityNames(windows), LagNamesOver(LagSources, lags), ReturnKeys + [VolatilityKey], LagKeys);
  }

  /** ... then those of `create_rolling_features` ... */
  lemma RolledNamesDistinct(windows: seq<nat>, lags: seq<int>)
    requires Distinct(windows) && Distinct(lags)
    ensures var n := ReturnNames + VolatilityNames(windows) + LagNamesOver(LagSources, lags) + RollingNames(windows);
      Distinct(n) && KeysIn(n, ReturnKeys + [VolatilityKey] + LagKeys + RollingKeys)
  {
    LaggedNamesDistinct(windows, lags);
    RollingDistinct(windows);
    RollingStems(windows);
    KeyGroupsApart();
    Join(ReturnNames + VolatilityNames(windows) + LagNamesOver(LagSources, lags), RollingNames(windows),
      ReturnKeys + [VolatilityKey] + LagKeys, RollingKeys);
  }

  /** ... then those of `create_technical_indicators` ... */
  lemma IndicatedNamesDistinct(windows: seq<nat>, lags: seq<int>)
    requires Distinct(windows) && Distinct(lags)
    ensures var n := ReturnNames + VolatilityNames(windows) + LagNamesOver(LagSources, lags) + RollingNames(windows)
        + (VolumeNames + IndicatorNames);
      Distinct(n) && KeysIn(n, ReturnKeys + [VolatilityKey] + LagKeys + RollingKeys + IndicatorKeys)
  {
    RolledNamesDistinct(windows, lags);
    IndicatorNamesDistinct();
    KeyGroupsApart();
    Join(ReturnNames + VolatilityNames(windows) + LagNamesOver(LagSources, lags) + RollingNames(windows),
      VolumeNames + IndicatorNames, ReturnKeys + [VolatilityKey] + LagKeys + RollingKeys, IndicatorKeys);
  }

  /** ... and those of `create_time_features`. */
  lemma AllNamesDistinct(windows: seq<nat>, lags: seq<int>)
    requires Distinct(windows) && Distinct(lags)
    ensures Distinct(FeatureNamesOf(windows, lags))
    ensures KeysIn(FeatureNamesOf(windows, lags), ReturnKeys + [VolatilityKey] + LagKeys + RollingKeys + IndicatorKeys + TimeKeys)
  {
    IndicatedNamesDistinct(windows, lags);
    TimeNamesDistinct();
    KeyGroupsApart();
    Join(ReturnNames + VolatilityNames(windows) + LagNamesOver(LagSources, lags) + RollingNames(windows)
      + (VolumeNames + IndicatorNames), HourNames + CalendarNames,
      ReturnKeys + [VolatilityKey] + LagKeys + RollingKeys + IndicatorKeys, TimeKeys);
  }

  lemma TargetKeysApart()
    ensures Apart(TargetKeys, ReturnKeys + [VolatilityKey] + LagKeys + RollingKeys + IndicatorKeys + TimeKeys)
  {
  }

  lemma TargetKeysOf()
    ensures KeysIn(TargetNames, TargetKeys)
  {
  }

  /** With distinct windows and distinct lags no feature name is appended twice, and
      none is a target column. */
  lemma FeatureNamesDistinct(windows: seq<nat>, lags: seq<int>)
    requires Distinct(windows) && Distinct(lags)
    ensures Distinct(FeatureNamesOf(windows, lags))
    ensures forall n :: n in TargetNames ==> n !in FeatureNamesOf(windows, lags)
  {
    var keys := ReturnKeys + [VolatilityKey] + LagKeys + RollingKeys + IndicatorKeys + TimeKeys;
    AllNamesDistinct(windows, lags);
    TargetKeysApart();
    TargetKeysOf();
    KeysApart(TargetNames, FeatureNamesOf(windows, lags), TargetKeys, keys);
  }

  /** There are `20 + 7 * |windows| + 3 * |lags|` feature names. */
  lemma FeatureNamesLength(windows: seq<nat>, lags: seq<int>)
    ensures |FeatureNamesOf(windows, lags)| == 20 + 7 * |windows| + 3 * |lags|
  {
    VolatilityLength(windows);
    RollingLength(windows);
    LagSourceNames(lags);
    LagLength("close", lags);
    LagLength("returns", lags);
    LagLength("volume", lags);
  }

  lemma DefaultsDistinct()
    ensures Distinct(DefaultWindows) && Distinct(DefaultLags)
  {
  }

  /** The default windows and lags give fifty distinct feature names, none of them a
      target column. */
  lemma DefaultNames()
    ensures var names := FeatureNamesOf(DefaultWindows, DefaultLags);
      |names| == 50 && Distinct(names) && forall n :: n in TargetNames ==> n !in names
  {
    DefaultsDistinct();
    FeatureNamesDistinct(DefaultWindows, DefaultLags);
    FeatureNamesLength(DefaultWindows, DefaultLags);
  }

  /** `transform` with its defaults, on a frame with `close` and `volume` columns and a
      datetime index, leaves those fifty names in `feature_names`. */
  lemma DefaultFeatureNames(f: Frame, horizon: int, num: Numerics)
    requires "close" in Names(f) && "volume" in Names(f) && f.index.DatetimeIndex?
    ensures TransformOf(f, DefaultTarget, horizon, num).added == FeatureNamesOf(DefaultWindows, DefaultLags)
  {
    PipelineAdded(f, DefaultTarget, horizon, DefaultWindows, LagSources, DefaultLags, num);
    FeaturesAdded(f, DefaultTarget, DefaultWindows, DefaultLags, num);
  }
}
