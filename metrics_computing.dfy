/** The time-series analyser (`TimeSeriesAnalyzer` in metrics_computing.py).

    The analyser object has one piece of state, the parsed frame, which its
    constructor computes once and nothing writes again; the model keeps that
    frame as a value (`seq<Point>`, ascending by date) and passes it to each
    statistic.  Library numerics (pandas median/std/rolling std, numpy
    polyfit/corrcoef, scipy find_peaks) are the functions of a `Library`
    value; the model reasons over mathematical reals, with `Float.NotFinite`
    standing for the NaN or infinity a floating-point library returns. */
module MetricsComputing {
  import opened Wrappers
  import opened Dates

  /** A float as the libraries return it. */
  datatype Float = Finite(value: real) | NotFinite

  /** One observation as the data source sends it: a date string and a value
      string, which `pd.to_numeric(..., errors='coerce')` turns into a number
      or into NaN (None here, for "." and other non-numeric text). */
  datatype RawObservation = RawObservation(date: DateText, value: Option<real>)

  /** One row of the parsed frame. */
  datatype Point = Point(date: int, value: real)

  /** Why the analyser raises instead of returning a summary. */
  datatype AnalysisError =
    | EmptyInput           // `ValueError("Input data is empty")`
    | UnparsableDate       // `pd.to_datetime` rejects a non-empty date
    | NoNumericValues      // every value was dropped; `idxmax` raises
    | PeakIndexOutOfRange  // the peak finder named a position outside the series
    | FitFailed            // `np.polyfit` raises (a one-point series has a zero-norm x column)

  /** The numeric routines the analyser borrows, as uninterpreted functions. */
  datatype Library = Library(
    median: seq<real> -> real,
    std: seq<real> -> Float,
    slope: seq<real> -> Option<Float>,      // `np.polyfit(arange(n), y, 1)[0]`; None when it raises
    correlation: seq<real> -> Float,        // `np.corrcoef(arange(n), y)[0, 1]`
    rollingStd: (seq<real>, nat) -> seq<Float>,
    findPeaks: (seq<real>, Float) -> seq<nat>)

  // ---------------------------------------------------------------------------
  // Parsing (`__init__` and `_parse_json`)
  // ---------------------------------------------------------------------------

  /** `pd.to_datetime` accepts the list: an empty date becomes NaT, and only
      a malformed one raises. */
  predicate AllDatesParse(data: seq<RawObservation>) {
    forall i :: 0 <= i < |data| ==> !data[i].date.Malformed?
  }

  /** An observation that survives `dropna()`: a date (not NaT) and a number. */
  predicate Kept(obs: RawObservation) {
    obs.date.Iso? && obs.value.Some?
  }

  /** The observations that survive `dropna()`, in input order. */
  function NumericPoints(data: seq<RawObservation>): (ps: seq<Point>)
    ensures |ps| <= |data|
  {
    if data == [] then []
    else
      var last := data[|data| - 1];
      NumericPoints(data[..|data| - 1])
        + (if Kept(last) then [Point(last.date.day, last.value.value)] else [])
  }

  predicate Sorted(ps: seq<Point>) {
    forall i, j :: 0 <= i < j < |ps| ==> ps[i].date <= ps[j].date
  }

  /** Places `p` after every point whose date is not later than its own. */
  function Insert(p: Point, s: seq<Point>): (r: seq<Point>)
    ensures |r| == |s| + 1
    ensures multiset(r) == multiset(s) + multiset{p}
  {
    if s == [] || s[|s| - 1].date <= p.date then s + [p]
    else
      assert s == s[..|s| - 1] + [s[|s| - 1]];
      Insert(p, s[..|s| - 1]) + [s[|s| - 1]]
  }

  lemma {:induction false} InsertSorted(p: Point, s: seq<Point>)
    requires Sorted(s)
    ensures Sorted(Insert(p, s))
  {
    if s != [] && s[|s| - 1].date > p.date {
      var init := s[..|s| - 1];
      var x := s[|s| - 1];
      InsertSorted(p, init);
      var r' := Insert(p, init);
      forall i | 0 <= i < |r'|
        ensures r'[i].date <= x.date
      {
        assert r'[i] in multiset(r');
        if r'[i] != p {
          assert r'[i] in multiset(init);
          assert r'[i] in init;
        }
      }
    }
  }

  /** Insertion sort by date, taking the points in order. */
  function SortByDate(ps: seq<Point>): (r: seq<Point>)
    ensures Sorted(r)
    ensures multiset(r) == multiset(ps)
  {
    if ps == [] then []
    else
      assert ps == ps[..|ps| - 1] + [ps[|ps| - 1]];
      var sorted := SortByDate(ps[..|ps| - 1]);
      InsertSorted(ps[|ps| - 1], sorted);
      Insert(ps[|ps| - 1], sorted)
  }

  /** What the analyser's constructor leaves in `self.df`, or what it raises. */
  function ParsedFrame(data: seq<RawObservation>): (r: Result<seq<Point>, AnalysisError>)
    ensures r == Failure(EmptyInput) <==> data == []
    ensures r.Success? ==> Sorted(r.value) && |r.value| <= |data|
  {
    if data == [] then Failure(EmptyInput)
    else if !AllDatesParse(data) then Failure(UnparsableDate)
    else
      var ps := NumericPoints(data);
      assert |SortByDate(ps)| == |multiset(SortByDate(ps))| == |multiset(ps)| == |ps|;
      Success(SortByDate(ps))
  }

  /** A point survives parsing exactly when some observation carries its date
      and a numeric value; rows with an empty date (NaT) or a missing value
      are dropped. */
  lemma {:induction false} NumericPointsMembers(data: seq<RawObservation>, p: Point)
    ensures p in NumericPoints(data) <==>
      exists i :: 0 <= i < |data| && data[i].value == Some(p.value) && data[i].date == Iso(p.date)
  {
    if data != [] {
      var init := data[..|data| - 1];
      NumericPointsMembers(init, p);
      assert forall i :: 0 <= i < |init| ==> init[i] == data[i];
      var last := data[|data| - 1];
      if p in NumericPoints(data) && p !in NumericPoints(init) {
        assert data[|data| - 1].value == Some(p.value) && data[|data| - 1].date == Iso(p.date);
      }
    }
  }

  /** The constructor raises on empty input and on any malformed date;
      otherwise the frame holds exactly the observations with a date and a
      numeric value, sorted ascending by date, so rows with an empty date are
      dropped rather than raising. */
  lemma ParsedFrameContents(data: seq<RawObservation>)
    ensures ParsedFrame(data) == Failure(EmptyInput) <==> data == []
    ensures ParsedFrame(data) == Failure(UnparsableDate) <==> data != [] && !AllDatesParse(data)
    ensures ParsedFrame(data).Success? ==>
      var frame := ParsedFrame(data).value;
      && Sorted(frame)
      && multiset(frame) == multiset(NumericPoints(data))
      && |frame| <= |data|
      && forall p :: p in frame <==>
           exists i :: 0 <= i < |data| && data[i].value == Some(p.value) && data[i].date == Iso(p.date)
  {
    if data != [] && AllDatesParse(data) {
      var frame := SortByDate(NumericPoints(data));
      assert |frame| == |multiset(frame)| == |NumericPoints(data)|;
      forall p ensures p in frame <==>
        exists i :: 0 <= i < |data| && data[i].value == Some(p.value) && data[i].date == Iso(p.date)
      {
        assert p in frame <==> p in multiset(frame);
        assert p in NumericPoints(data) <==> p in multiset(NumericPoints(data));
        NumericPointsMembers(data, p);
      }
    }
  }

  /** Appending an observation with an empty date changes nothing: its NaT
      row is dropped by `dropna()` rather than raising. */
  lemma BlankDateDropped(data: seq<RawObservation>, value: Option<real>)
    requires data != []
    ensures ParsedFrame(data + [RawObservation(Blank, value)]) == ParsedFrame(data)
  {
    var all := data + [RawObservation(Blank, value)];
    assert all[..|all| - 1] == data;
    assert NumericPoints(all) == NumericPoints(data);
    assert AllDatesParse(all) <==> AllDatesParse(data) by {
      assert forall i :: 0 <= i < |data| ==> all[i] == data[i];
      assert !all[|data|].date.Malformed?;
    }
  }

  /** A blank-dated row among dated ones: only the dated row is analysed. */
  lemma BlankDateExample()
    ensures ParsedFrame([RawObservation(Blank, Some(1.0)), RawObservation(Iso(3), Some(2.0))])
      == Success([Point(3, 2.0)])
  {
    var data := [RawObservation(Blank, Some(1.0)), RawObservation(Iso(3), Some(2.0))];
    assert data[..1] == [RawObservation(Blank, Some(1.0))];
    assert data[..1][..0] == [];
    assert NumericPoints(data) == [Point(3, 2.0)];
  }

  /** The `sort_index(inplace=True)` step for one row: walk left past every
      later-dated row and put `p` there. */
  method InsertByDate(p: Point, frame: seq<Point>) returns (r: seq<Point>)
    ensures r == Insert(p, frame)
  {
    var j := |frame|;
    assert frame[..j] == frame && frame[j..] == [];
    while j > 0 && frame[j - 1].date > p.date
      invariant 0 <= j <= |frame|
      invariant Insert(p, frame) == Insert(p, frame[..j]) + frame[j..]
    {
      InsertPastLater(p, frame, j);
      j := j - 1;
    }
    InsertAfterEarlier(p, frame[..j]);
    r := frame[..j] + [p] + frame[j..];
  }

  /** Walking left past a later-dated row. */
  lemma InsertPastLater(p: Point, frame: seq<Point>, j: nat)
    requires 0 < j <= |frame| && frame[j - 1].date > p.date
    ensures Insert(p, frame[..j]) + frame[j..] == Insert(p, frame[..j - 1]) + frame[j - 1..]
  {
    assert frame[..j][..j - 1] == frame[..j - 1];
    assert frame[..j][j - 1] == frame[j - 1];
    assert [frame[j - 1]] + frame[j..] == frame[j - 1..];
  }

  /** Insertion after a row dated no later stops at the end. */
  lemma InsertAfterEarlier(p: Point, s: seq<Point>)
    requires s == [] || s[|s| - 1].date <= p.date
    ensures Insert(p, s) == s + [p]
  {
  }

  lemma NumericPointsStep(data: seq<RawObservation>, i: nat)
    requires i < |data|
    ensures NumericPoints(data[..i + 1]) ==
      NumericPoints(data[..i]) + (if Kept(data[i]) then [Point(data[i].date.day, data[i].value.value)] else [])
  {
    assert data[..i + 1][..i] == data[..i];
  }

  lemma SortByDateStep(ps: seq<Point>, p: Point)
    ensures SortByDate(ps + [p]) == Insert(p, SortByDate(ps))
  {
    assert (ps + [p])[..|ps|] == ps;
  }

  /** `dropna()` then `sort_index()`: one pass over the observations keeping
      the frame sorted as each dated, numeric one is added. */
  method DropMissingAndSort(data: seq<RawObservation>) returns (frame: seq<Point>)
    ensures frame == SortByDate(NumericPoints(data))
  {
    frame := [];
    for i := 0 to |data|
      invariant frame == SortByDate(NumericPoints(data[..i]))
    {
      NumericPointsStep(data, i);
      ghost var kept := NumericPoints(data[..i]);
      if data[i].date.Iso? && data[i].value.Some? {
        var p := Point(data[i].date.day, data[i].value.value);
        SortByDateStep(kept, p);
        frame := InsertByDate(p, frame);
        assert NumericPoints(data[..i + 1]) == kept + [p];
      } else {
        assert kept + [] == kept;
      }
    }
    assert data[..|data|] == data;
  }

  /** The constructor: rejects empty input and malformed dates, then drops
      every row with an empty date or a non-numeric value and sorts what is
      left by date, inserting each surviving observation at its place. */
  method ParseJson(data: seq<RawObservation>) returns (r: Result<seq<Point>, AnalysisError>)
    ensures r == ParsedFrame(data)
  {
    if data == [] {
      return Failure(EmptyInput);
    }
    for i := 0 to |data|
      invariant forall k :: 0 <= k < i ==> !data[k].date.Malformed?
    {
      if data[i].date.Malformed? {
        return Failure(UnparsableDate);
      }
    }
    var frame := DropMissingAndSort(data);
    r := Success(frame);
  }

  // ---------------------------------------------------------------------------
  // Basic statistics (`calculate_basic_stats`)
  // ---------------------------------------------------------------------------

  function Values(frame: seq<Point>): (vs: seq<real>)
    ensures |vs| == |frame|
    ensures forall i :: 0 <= i < |frame| ==> vs[i] == frame[i].value
  {
    seq(|frame|, i requires 0 <= i < |frame| => frame[i].value)
  }

  function Sum(vs: seq<real>): real {
    if vs == [] then 0.0 else Sum(vs[..|vs| - 1]) + vs[|vs| - 1]
  }

  /** `idxmax`: the first position holding the largest value. */
  function MaxIndex(vs: seq<real>): (k: nat)
    requires vs != []
    ensures k < |vs|
    ensures forall j :: 0 <= j < |vs| ==> vs[j] <= vs[k]
    ensures forall j :: 0 <= j < k ==> vs[j] < vs[k]
  {
    if |vs| == 1 then 0
    else
      var k := MaxIndex(vs[..|vs| - 1]);
      if vs[|vs| - 1] > vs[k] then |vs| - 1 else k
  }

  /** `idxmin`: the first position holding the smallest value. */
  function MinIndex(vs: seq<real>): (k: nat)
    requires vs != []
    ensures k < |vs|
    ensures forall j :: 0 <= j < |vs| ==> vs[k] <= vs[j]
    ensures forall j :: 0 <= j < k ==> vs[k] < vs[j]
  {
    if |vs| == 1 then 0
    else
      var k := MinIndex(vs[..|vs| - 1]);
      if vs[|vs| - 1] < vs[k] then |vs| - 1 else k
  }

  datatype Dated = Dated(value: real, date: int)

  datatype BasicStats = BasicStats(
    max: Dated, min: Dated, mean: real, median: real, std: Float,
    latest: Dated, earliest: Dated)

  function CalculateBasicStats(frame: seq<Point>, lib: Library): (s: BasicStats)
    requires frame != []
    ensures s.min.value <= s.earliest.value <= s.max.value
    ensures s.min.value <= s.latest.value <= s.max.value
  {
    var vs := Values(frame);
    var hi := MaxIndex(vs);
    var lo := MinIndex(vs);
    BasicStats(
      Dated(vs[hi], frame[hi].date),
      Dated(vs[lo], frame[lo].date),
      Sum(vs) / (|vs| as real),
      lib.median(vs),
      lib.std(vs),
      Dated(frame[|frame| - 1].value, frame[|frame| - 1].date),
      Dated(frame[0].value, frame[0].date))
  }

  lemma {:induction false} SumBounds(vs: seq<real>, lo: real, hi: real)
    requires forall i :: 0 <= i < |vs| ==> lo <= vs[i] <= hi
    ensures (|vs| as real) * lo <= Sum(vs) <= (|vs| as real) * hi
  {
    if vs != [] {
      SumBounds(vs[..|vs| - 1], lo, hi);
    }
  }

  lemma MeanBetween(total: real, n: real, lo: real, hi: real)
    requires n > 0.0 && n * lo <= total <= n * hi
    ensures lo <= total / n <= hi
  {
    var m := total / n;
    assert m * n == total;
    assert n * (m - lo) >= 0.0 && n * (hi - m) >= 0.0;
  }

  /** The reported extremes bracket the mean, are attained at the dates
      reported with them, and `latest`/`earliest` are the last and first
      points of the date-sorted frame. */
  lemma BasicStatsFacts(frame: seq<Point>, lib: Library)
    requires frame != []
    ensures var s := CalculateBasicStats(frame, lib);
      && s.min.value <= s.mean <= s.max.value
      && (forall i :: 0 <= i < |frame| ==> s.min.value <= frame[i].value <= s.max.value)
      && Point(s.max.date, s.max.value) in frame
      && Point(s.min.date, s.min.value) in frame
      && s.latest == Dated(frame[|frame| - 1].value, frame[|frame| - 1].date)
      && s.earliest == Dated(frame[0].value, frame[0].date)
      && (Sorted(frame) ==> forall i :: 0 <= i < |frame| ==> s.earliest.date <= frame[i].date <= s.latest.date)
  {
    var vs := Values(frame);
    var hi := MaxIndex(vs);
    var lo := MinIndex(vs);
    SumBounds(vs, vs[lo], vs[hi]);
    MeanBetween(Sum(vs), |vs| as real, vs[lo], vs[hi]);
    assert frame[hi] == Point(frame[hi].date, vs[hi]);
    assert frame[lo] == Point(frame[lo].date, vs[lo]);
  }

  // ---------------------------------------------------------------------------
  // Overall change (`calculate_changes`)
  // ---------------------------------------------------------------------------

  datatype TotalChange = TotalChange(absolute: real, percentage: Float, fromDate: int, toDate: int)

  /** First-to-last change.  The percentage divides by the first value with no
      guard: a zero first value gives numpy's inf/NaN. */
  function CalculateChanges(frame: seq<Point>): (c: TotalChange)
    requires frame != []
    ensures c.absolute + frame[0].value == frame[|frame| - 1].value
    ensures c.percentage.NotFinite? <==> frame[0].value == 0.0
    ensures c.percentage.Finite? ==> c.percentage.value * frame[0].value == 100.0 * c.absolute
    ensures c.fromDate == frame[0].date && c.toDate == frame[|frame| - 1].date
    ensures Sorted(frame) ==> c.fromDate <= c.toDate
  {
    var first := frame[0].value;
    var last := frame[|frame| - 1].value;
    TotalChange(
      last - first,
      if first == 0.0 then NotFinite else Finite((last - first) / first * 100.0),
      frame[0].date,
      frame[|frame| - 1].date)
  }

  // ---------------------------------------------------------------------------
  // Trend (`assess_trend`)
  // ---------------------------------------------------------------------------

  datatype TrendLabel = Stable | Increasing | Decreasing
  datatype Strength = Weak | Moderate | Strong
  datatype Trend = Trend(trend: TrendLabel, strength: Strength, slope: Float)

  function Abs(x: real): real {
    if x < 0.0 then -x else x
  }

  /** `abs(correlation) < bound`, false when the correlation is NaN. */
  predicate BelowInMagnitude(correlation: Float, bound: real) {
    correlation.Finite? && Abs(correlation.value) < bound
  }

  /** The labels for a fitted slope (NaN compares false, so a NaN slope that is
      not stable reads as decreasing) and a correlation. */
  function AssessTrend(slope: Float, correlation: Float): (t: Trend)
    ensures t.slope == slope
    ensures t.trend == Stable <==> BelowInMagnitude(correlation, 0.3)
    ensures t.trend == Increasing <==> !BelowInMagnitude(correlation, 0.3) && Greater(slope, Finite(0.0))
    ensures t.strength == Weak <==> BelowInMagnitude(correlation, 0.5)
    ensures t.strength == Strong <==> !BelowInMagnitude(correlation, 0.8)
  {
    var trend :=
      if BelowInMagnitude(correlation, 0.3) then Stable
      else if Greater(slope, Finite(0.0)) then Increasing
      else Decreasing;
    var strength :=
      if BelowInMagnitude(correlation, 0.5) then Weak
      else if BelowInMagnitude(correlation, 0.8) then Moderate
      else Strong;
    Trend(trend, strength, slope)
  }

  /** The labels agree with each other: a stable trend is always weak, and a
      NaN correlation (a constant series) reads as a strong, non-stable trend. */
  lemma TrendLabelsAgree(slope: Float, correlation: Float)
    ensures AssessTrend(slope, correlation).trend == Stable ==> AssessTrend(slope, correlation).strength == Weak
    ensures AssessTrend(slope, correlation).strength == Strong ==> AssessTrend(slope, correlation).trend != Stable
    ensures correlation.NotFinite? ==>
      AssessTrend(slope, correlation).strength == Strong && AssessTrend(slope, correlation).trend != Stable
  {
  }

  // ---------------------------------------------------------------------------
  // Volatility (`detect_volatility_changes`)
  // ---------------------------------------------------------------------------

  datatype Assessment = VolatilityIncreased | VolatilityDecreased | VolatilityStable
  datatype Volatility = Volatility(recent: Float, earlier: Float, change: Float, assessment: Assessment)

  function FiniteSum(xs: seq<Float>): real {
    if xs == [] then 0.0
    else FiniteSum(xs[..|xs| - 1]) + (match xs[|xs| - 1] case Finite(v) => v case NotFinite => 0.0)
  }

  function FiniteCount(xs: seq<Float>): (n: nat)
    ensures n <= |xs|
  {
    if xs == [] then 0
    else FiniteCount(xs[..|xs| - 1]) + (if xs[|xs| - 1].Finite? then 1 else 0)
  }

  /** Nothing is counted exactly when no entry is finite. */
  lemma {:induction false} NoFiniteEntries(xs: seq<Float>)
    ensures FiniteCount(xs) == 0 <==> forall i :: 0 <= i < |xs| ==> xs[i].NotFinite?
  {
    if xs != [] {
      var init := xs[..|xs| - 1];
      NoFiniteEntries(init);
      assert forall i :: 0 <= i < |init| ==> init[i] == xs[i];
    }
  }

  /** pandas' `Series.mean()`: NaN entries are skipped; no entry left is NaN. */
  function NanMean(xs: seq<Float>): (m: Float)
    ensures m.NotFinite? <==> forall i :: 0 <= i < |xs| ==> xs[i].NotFinite?
  {
    NoFiniteEntries(xs);
    var n := FiniteCount(xs);
    if n == 0 then NotFinite else Finite(FiniteSum(xs) / (n as real))
  }

  /** `a > b` between floats; false when either is NaN. */
  predicate Greater(a: Float, b: Float) {
    a.Finite? && b.Finite? && a.value > b.value
  }

  function Scale(x: Float, k: real): Float {
    match x
    case Finite(v) => Finite(v * k)
    case NotFinite => NotFinite
  }

  function Assess(recent: Float, earlier: Float): (a: Assessment)
    ensures a == VolatilityIncreased <==> Greater(recent, Scale(earlier, 1.2))
    ensures a == VolatilityDecreased <==> !Greater(recent, Scale(earlier, 1.2)) && Greater(Scale(earlier, 0.8), recent)
  {
    if Greater(recent, Scale(earlier, 1.2)) then VolatilityIncreased
    else if Greater(Scale(earlier, 0.8), recent) then VolatilityDecreased
    else VolatilityStable
  }

  /** `iloc[:w]` and `iloc[-w:]`, with Python's clamping on short sequences. */
  function Head<T>(xs: seq<T>, w: nat): seq<T> {
    if w <= |xs| then xs[..w] else xs
  }

  function Tail<T>(xs: seq<T>, w: nat): seq<T> {
    if w <= |xs| then xs[|xs| - w..] else xs
  }

  /** Compares the mean rolling deviation of the last `window` positions with
      that of the first `window`; nothing is reported under `2 * window`
      points. */
  function DetectVolatilityChanges(n: nat, rolling: seq<Float>, window: nat): (v: Option<Volatility>)
    requires window > 0
    ensures v.None? <==> n < 2 * window
    ensures v.Some? ==> v.value.recent == NanMean(Tail(rolling, window))
    ensures v.Some? ==> v.value.earlier == NanMean(Head(rolling, window))
    ensures v.Some? && !Greater(v.value.earlier, Finite(0.0)) ==> v.value.change == Finite(0.0)
    ensures v.Some? && Greater(v.value.earlier, Finite(0.0)) && v.value.recent.Finite? ==>
      v.value.change.Finite? &&
      v.value.change.value * v.value.earlier.value == 100.0 * (v.value.recent.value - v.value.earlier.value)
    ensures v.Some? && Greater(v.value.earlier, Finite(0.0)) && v.value.recent.NotFinite? ==> v.value.change.NotFinite?
    ensures v.Some? ==> v.value.assessment == Assess(v.value.recent, v.value.earlier)
  {
    if n < 2 * window then None
    else
      var recent := NanMean(Tail(rolling, window));
      var earlier := NanMean(Head(rolling, window));
      var change :=
        if Greater(earlier, Finite(0.0)) then
          (if recent.Finite? then Finite((recent.value - earlier.value) / earlier.value * 100.0) else NotFinite)
        else Finite(0.0);
      Some(Volatility(recent, earlier, change, Assess(recent, earlier)))
  }

  lemma {:induction false} AllNaNMean(xs: seq<Float>)
    requires forall i :: 0 <= i < |xs| ==> xs[i].NotFinite?
    ensures FiniteCount(xs) == 0 && FiniteSum(xs) == 0.0
  {
    if xs != [] {
      AllNaNMean(xs[..|xs| - 1]);
    }
  }

  /** The rolling deviation pandas produces is NaN at the first `window - 1`
      positions, and `mean()` skips NaN: so the "earlier" volatility is the
      deviation of the first full window alone, not a mean of `window` of them. */
  lemma EarlierIsFirstWindow(n: nat, rolling: seq<Float>, window: nat)
    requires window > 0 && n >= 2 * window && |rolling| == n
    requires forall i :: 0 <= i < window - 1 ==> rolling[i].NotFinite?
    requires rolling[window - 1].Finite?
    ensures DetectVolatilityChanges(n, rolling, window).value.earlier == rolling[window - 1]
  {
    var head := rolling[..window];
    assert head[..window - 1] == rolling[..window - 1];
    AllNaNMean(rolling[..window - 1]);
    assert FiniteCount(head) == 1;
  }

  // ---------------------------------------------------------------------------
  // Per-point table (`generate_integrated_timeseries`)
  // ---------------------------------------------------------------------------

  datatype Inflection = Peak | Trough

  datatype Delta = Delta(absolute: real, percentage: real)

  datatype Row = Row(date: int, value: real, mom: Option<Delta>, yoy: Option<Delta>, inflection: Option<Inflection>)

  /** The change from `lag` steps back, present only when that position exists
      and holds a non-zero value. */
  function LagDelta(vs: seq<real>, i: nat, lag: nat): (d: Option<Delta>)
    requires i < |vs|
    ensures d.Some? <==> i >= lag && vs[i - lag] != 0.0
    ensures d.Some? ==> d.value.absolute + vs[i - lag] == vs[i]
    ensures d.Some? ==> d.value.percentage * vs[i - lag] == 100.0 * d.value.absolute
  {
    if i >= lag && vs[i - lag] != 0.0 then
      Some(Delta(vs[i] - vs[i - lag], (vs[i] - vs[i - lag]) / vs[i - lag] * 100.0))
    else None
  }

  predicate InRange(idxs: seq<nat>, n: nat) {
    forall k :: 0 <= k < |idxs| ==> idxs[k] < n
  }

  /** Some index in `idxs` points at a row dated `d`. */
  predicate Names(frame: seq<Point>, idxs: seq<nat>, d: int) {
    exists k :: 0 <= k < |idxs| && idxs[k] < |frame| && frame[idxs[k]].date == d
  }

  /** `inflection_dates[dates[idx]] = kind` for every idx, in order. */
  function Mark(frame: seq<Point>, idxs: seq<nat>, kind: Inflection, m: map<int, Inflection>): (r: map<int, Inflection>)
    requires InRange(idxs, |frame|)
    ensures forall d :: d in r <==> d in m || Names(frame, idxs, d)
    ensures forall d :: Names(frame, idxs, d) ==> r[d] == kind
    ensures forall d :: d in m && !Names(frame, idxs, d) ==> r[d] == m[d]
  {
    if idxs == [] then m
    else
      var init := idxs[..|idxs| - 1];
      var m' := Mark(frame, init, kind, m);
      var d := frame[idxs[|idxs| - 1]].date;
      assert forall e :: Names(frame, idxs, e) <==> Names(frame, init, e) || e == d by {
        forall e | Names(frame, init, e) ensures Names(frame, idxs, e) {
          var k :| 0 <= k < |init| && init[k] < |frame| && frame[init[k]].date == e;
          assert idxs[k] == init[k];
        }
        forall e | Names(frame, idxs, e) && e != d ensures Names(frame, init, e) {
          var k :| 0 <= k < |idxs| && idxs[k] < |frame| && frame[idxs[k]].date == e;
          assert k < |init| && init[k] == idxs[k];
        }
        assert idxs[|idxs| - 1] < |frame|;
      }
      m'[d := kind]
  }

  /** The prominence handed to the peak finder: the caller's, else a quarter
      of the standard deviation. */
  function Prominence(given: Option<real>, std: Float): (p: Float)
    ensures given.Some? ==> p == Finite(given.value)
    ensures given.None? && std.Finite? ==> p == Finite(std.value / 4.0)
  {
    match given
    case Some(g) => Finite(g)
    case None => Scale(std, 0.25)
  }

  function Negated(vs: seq<real>): (ns: seq<real>)
    ensures |ns| == |vs| && forall i :: 0 <= i < |vs| ==> ns[i] == -vs[i]
  {
    seq(|vs|, i requires 0 <= i < |vs| => -vs[i])
  }

  /** Inflections are sought only when asked for and with at least 5 points. */
  predicate SeeksInflections(n: nat, withInflections: bool) {
    withInflections && n >= 5
  }

  /** The `inflection_dates` dictionary: peaks of the values, then troughs
      (peaks of the negated values), a trough overwriting a peak on the same
      date.  An out-of-range index makes `dates[idx]` raise. */
  function InflectionDates(frame: seq<Point>, lib: Library, withInflections: bool, prominence: Option<real>)
    : (r: Result<map<int, Inflection>, AnalysisError>)
    ensures !SeeksInflections(|frame|, withInflections) ==> r == Success(map[])
    ensures r.Failure? ==> r.error == PeakIndexOutOfRange
  {
    if !SeeksInflections(|frame|, withInflections) then Success(map[])
    else
      var vs := Values(frame);
      var prom := Prominence(prominence, lib.std(vs));
      var peaks := lib.findPeaks(vs, prom);
      var troughs := lib.findPeaks(Negated(vs), prom);
      if !InRange(peaks, |frame|) || !InRange(troughs, |frame|) then Failure(PeakIndexOutOfRange)
      else Success(Mark(frame, troughs, Trough, Mark(frame, peaks, Peak, map[])))
  }

  function RowAt(frame: seq<Point>, marks: map<int, Inflection>, i: nat): (row: Row)
    requires i < |frame|
  {
    var vs := Values(frame);
    Row(frame[i].date, frame[i].value,
        LagDelta(vs, i, 1), LagDelta(vs, i, 12),
        if frame[i].date in marks then Some(marks[frame[i].date]) else None)
  }

  function Rows(frame: seq<Point>, marks: map<int, Inflection>): (rows: seq<Row>)
    ensures |rows| == |frame|
    ensures forall i :: 0 <= i < |frame| ==> rows[i] == RowAt(frame, marks, i)
  {
    seq(|frame|, i requires 0 <= i < |frame| => RowAt(frame, marks, i))
  }

  function IntegratedTimeseries(frame: seq<Point>, lib: Library, withInflections: bool, prominence: Option<real>)
    : (r: Result<seq<Row>, AnalysisError>)
    ensures r.Success? ==> |r.value| == |frame|
    ensures !SeeksInflections(|frame|, withInflections) ==> r.Success?
  {
    match InflectionDates(frame, lib, withInflections, prominence)
    case Failure(e) => Failure(e)
    case Success(marks) => Success(Rows(frame, marks))
  }

  /** One row per point, in order: MoM is present iff i >= 1 and the previous
      value is non-zero, YoY iff i >= 12 and the value twelve rows back is
      non-zero; a row is marked a trough iff a trough index names its date, a
      peak iff only a peak index does; nothing is marked when inflections are
      switched off or the series has fewer than 5 points. */
  lemma IntegratedTimeseriesRows(frame: seq<Point>, lib: Library, withInflections: bool, prominence: Option<real>)
    requires IntegratedTimeseries(frame, lib, withInflections, prominence).Success?
    ensures var rows := IntegratedTimeseries(frame, lib, withInflections, prominence).value;
      && |rows| == |frame|
      && (forall i :: 0 <= i < |rows| ==> rows[i].date == frame[i].date && rows[i].value == frame[i].value)
      && (forall i :: 0 <= i < |rows| ==> (rows[i].mom.Some? <==> i >= 1 && frame[i - 1].value != 0.0))
      && (forall i :: 0 <= i < |rows| ==> (rows[i].yoy.Some? <==> i >= 12 && frame[i - 12].value != 0.0))
      && (!SeeksInflections(|frame|, withInflections) ==> forall i :: 0 <= i < |rows| ==> rows[i].inflection.None?)
  {
    var marks := InflectionDates(frame, lib, withInflections, prominence).value;
    forall i | 0 <= i < |frame|
      ensures RowAt(frame, marks, i).date == frame[i].date && RowAt(frame, marks, i).value == frame[i].value
      ensures RowAt(frame, marks, i).mom.Some? <==> i >= 1 && frame[i - 1].value != 0.0
      ensures RowAt(frame, marks, i).yoy.Some? <==> i >= 12 && frame[i - 12].value != 0.0
    {
      RowAtFacts(frame, marks, i);
    }
  }

  /** The date, value and lag fields of one row. */
  lemma RowAtFacts(frame: seq<Point>, marks: map<int, Inflection>, i: nat)
    requires i < |frame|
    ensures var row := RowAt(frame, marks, i);
      && row.date == frame[i].date && row.value == frame[i].value
      && (row.mom.Some? <==> i >= 1 && frame[i - 1].value != 0.0)
      && (row.yoy.Some? <==> i >= 12 && frame[i - 12].value != 0.0)
  {
    var vs := Values(frame);
    if i >= 1 {
      assert vs[i - 1] == frame[i - 1].value;
    }
    if i >= 12 {
      assert vs[i - 12] == frame[i - 12].value;
    }
  }

  lemma InflectionMarking(frame: seq<Point>, lib: Library, withInflections: bool, prominence: Option<real>, i: nat)
    requires IntegratedTimeseries(frame, lib, withInflections, prominence).Success?
    requires SeeksInflections(|frame|, withInflections)
    requires i < |frame|
    ensures var vs := Values(frame);
      var prom := Prominence(prominence, lib.std(vs));
      var peaks := lib.findPeaks(vs, prom);
      var troughs := lib.findPeaks(Negated(vs), prom);
      var row := IntegratedTimeseries(frame, lib, withInflections, prominence).value[i];
      && (row.inflection == Some(Trough) <==> Names(frame, troughs, frame[i].date))
      && (row.inflection == Some(Peak) <==> Names(frame, peaks, frame[i].date) && !Names(frame, troughs, frame[i].date))
      && (row.inflection.None? <==> !Names(frame, peaks, frame[i].date) && !Names(frame, troughs, frame[i].date))
  {
  }

  /** One `for idx in ...: inflection_dates[dates[idx]] = kind` loop; None
      when an index is out of range and `dates[idx]` raises. */
  method MarkPositions(frame: seq<Point>, idxs: seq<nat>, kind: Inflection, m: map<int, Inflection>)
    returns (r: Option<map<int, Inflection>>)
    ensures r.Some? <==> InRange(idxs, |frame|)
    ensures r.Some? ==> r.value == Mark(frame, idxs, kind, m)
  {
    var marks := m;
    for k := 0 to |idxs|
      invariant InRange(idxs[..k], |frame|)
      invariant marks == Mark(frame, idxs[..k], kind, m)
    {
      if idxs[k] >= |frame| {
        return None;
      }
      assert idxs[..k + 1][..k] == idxs[..k];
      marks := marks[frame[idxs[k]].date := kind];
    }
    assert idxs[..|idxs|] == idxs;
    r := Some(marks);
  }

  /** The loop that appends one row per point. */
  method BuildRows(frame: seq<Point>, marks: map<int, Inflection>) returns (rows: seq<Row>)
    ensures rows == Rows(frame, marks)
  {
    rows := [];
    for i := 0 to |frame|
      invariant |rows| == i
      invariant forall j :: 0 <= j < i ==> rows[j] == RowAt(frame, marks, j)
    {
      rows := rows + [RowAt(frame, marks, i)];
    }
  }

  /** The loop form of the table: fill the inflection dictionary from the
      peak and trough positions, then append one row per point. */
  method GenerateIntegratedTimeseries(frame: seq<Point>, lib: Library, withInflections: bool, prominence: Option<real>)
    returns (r: Result<seq<Row>, AnalysisError>)
    ensures r == IntegratedTimeseries(frame, lib, withInflections, prominence)
  {
    var marks: map<int, Inflection> := map[];
    if SeeksInflections(|frame|, withInflections) {
      var vs := Values(frame);
      var prom := Prominence(prominence, lib.std(vs));
      var peaks := lib.findPeaks(vs, prom);
      var troughs := lib.findPeaks(Negated(vs), prom);
      var peakMarks := MarkPositions(frame, peaks, Peak, marks);
      if peakMarks.None? {
        return Failure(PeakIndexOutOfRange);
      }
      var allMarks := MarkPositions(frame, troughs, Trough, peakMarks.value);
      if allMarks.None? {
        return Failure(PeakIndexOutOfRange);
      }
      marks := allMarks.value;
    }
    var rows := BuildRows(frame, marks);
    r := Success(rows);
  }

  // ---------------------------------------------------------------------------
  // Summary (`generate_summary`)
  // ---------------------------------------------------------------------------

  datatype TimeSpan = TimeSpan(start: int, end: int, days: int)
  datatype InflectionCounts = InflectionCounts(total: nat, peaks: nat, troughs: nat)

  /** `volatility` and `inflection_summary` are keys the summary may lack. */
  datatype Summary = Summary(
    basicStats: BasicStats,
    changes: TotalChange,
    trend: Trend,
    dataPoints: nat,
    timeSpan: TimeSpan,
    timeseries: seq<Row>,
    volatility: Option<Volatility>,
    inflectionSummary: Option<InflectionCounts>)

  const VOLATILITY_WINDOW: nat := 6

  /** `sum(1 for d in rows if pred(d['inflection_type']))`. */
  function CountMarked(rows: seq<Row>): nat {
    if rows == [] then 0
    else CountMarked(rows[..|rows| - 1]) + (if rows[|rows| - 1].inflection.Some? then 1 else 0)
  }

  function CountKind(rows: seq<Row>, kind: Inflection): nat {
    if rows == [] then 0
    else CountKind(rows[..|rows| - 1], kind) + (if rows[|rows| - 1].inflection == Some(kind) then 1 else 0)
  }

  lemma {:induction false} MarkedSplits(rows: seq<Row>)
    ensures CountMarked(rows) == CountKind(rows, Peak) + CountKind(rows, Trough)
    ensures CountMarked(rows) <= |rows|
  {
    if rows != [] {
      MarkedSplits(rows[..|rows| - 1]);
      match rows[|rows| - 1].inflection
      case None =>
      case Some(kind) => assert kind == Peak || kind == Trough;
    }
  }

  function GenerateSummary(frame: seq<Point>, lib: Library, withInflections: bool, prominence: Option<real>)
    : (r: Result<Summary, AnalysisError>)
    ensures frame == [] ==> r == Failure(NoNumericValues)
    ensures r.Success? ==> r.value.dataPoints == |frame| == |r.value.timeseries|
  {
    if frame == [] then Failure(NoNumericValues)
    else if lib.slope(Values(frame)).None? then Failure(FitFailed)
    else match IntegratedTimeseries(frame, lib, withInflections, prominence)
      case Failure(e) => Failure(e)
      case Success(rows) =>
        var vs := Values(frame);
        Success(Summary(
          CalculateBasicStats(frame, lib),
          CalculateChanges(frame),
          AssessTrend(lib.slope(vs).value, lib.correlation(vs)),
          |frame|,
          TimeSpan(frame[0].date, frame[|frame| - 1].date, frame[|frame| - 1].date - frame[0].date),
          rows,
          DetectVolatilityChanges(|frame|, lib.rollingStd(vs, VOLATILITY_WINDOW), VOLATILITY_WINDOW),
          if withInflections then
            Some(InflectionCounts(CountMarked(rows), CountKind(rows, Peak), CountKind(rows, Trough)))
          else None))
  }

  /** The analysis `call_fred_api` asks for: construct the analyser on the
      observations and summarise with inflections on and the default
      prominence. */
  function Analyze(data: seq<RawObservation>, lib: Library): (r: Result<Summary, AnalysisError>)
    ensures r.Success? ==> ParsedFrame(data).Success? && 0 < r.value.dataPoints <= |data|
  {
    match ParsedFrame(data)
    case Failure(e) => Failure(e)
    case Success(frame) => GenerateSummary(frame, lib, true, None)
  }

  /** When the linear fit raises, so does the summary, whatever else the
      libraries return; the trend of a successful summary is assessed on the
      fitted slope. */
  lemma FitFailureFailsSummary(frame: seq<Point>, lib: Library, withInflections: bool, prominence: Option<real>)
    ensures frame != [] && lib.slope(Values(frame)).None? ==>
      GenerateSummary(frame, lib, withInflections, prominence) == Failure(FitFailed)
    ensures GenerateSummary(frame, lib, withInflections, prominence).Success? ==>
      && lib.slope(Values(frame)).Some?
      && GenerateSummary(frame, lib, withInflections, prominence).value.trend
           == AssessTrend(lib.slope(Values(frame)).value, lib.correlation(Values(frame)))
  {
  }

  /** The summary's fields agree with the frame: the statistics, changes,
      table and volatility are those computed from it; one row per point; the
      span is last date minus first date (never negative for a sorted frame);
      volatility is present iff there are at least 12 points; and the
      inflection counts are the table's peaks and troughs, total = peaks +
      troughs. */
  lemma SummaryFacts(frame: seq<Point>, lib: Library, withInflections: bool, prominence: Option<real>)
    ensures GenerateSummary(frame, lib, withInflections, prominence).Success? ==>
      var s := GenerateSummary(frame, lib, withInflections, prominence).value;
      && frame != []
      && s.dataPoints == |frame| == |s.timeseries|
      && s.timeSpan.start == frame[0].date && s.timeSpan.end == frame[|frame| - 1].date
      && s.timeSpan.days == s.timeSpan.end - s.timeSpan.start
      && (Sorted(frame) ==> s.timeSpan.days >= 0)
      && (s.volatility.Some? <==> |frame| >= 2 * VOLATILITY_WINDOW)
      && s.basicStats == CalculateBasicStats(frame, lib)
      && s.changes == CalculateChanges(frame)
      && IntegratedTimeseries(frame, lib, withInflections, prominence) == Success(s.timeseries)
      && s.volatility == DetectVolatilityChanges(|frame|, lib.rollingStd(Values(frame), VOLATILITY_WINDOW), VOLATILITY_WINDOW)
      && (s.inflectionSummary.Some? <==> withInflections)
      && (s.inflectionSummary.Some? ==>
            s.inflectionSummary.value.peaks == CountKind(s.timeseries, Peak)
            && s.inflectionSummary.value.troughs == CountKind(s.timeseries, Trough)
            && s.inflectionSummary.value.total == s.inflectionSummary.value.peaks + s.inflectionSummary.value.troughs
            && s.inflectionSummary.value.total <= s.dataPoints)
  {
    if GenerateSummary(frame, lib, withInflections, prominence).Success? {
      MarkedSplits(GenerateSummary(frame, lib, withInflections, prominence).value.timeseries);
    }
  }

  /** An analysis that succeeds summarises a non-empty, sorted frame of the
      numeric observations; with every value numeric it has as many points as
      there were observations. */
  lemma AnalyzeFacts(data: seq<RawObservation>, lib: Library)
    ensures Analyze(data, lib).Success? ==>
      && ParsedFrame(data).Success?
      && 0 < Analyze(data, lib).value.dataPoints <= |data|
      && Analyze(data, lib).value.timeSpan.days >= 0
    ensures data == [] ==> Analyze(data, lib) == Failure(EmptyInput)
  {
    ParsedFrameContents(data);
    if Analyze(data, lib).Success? {
      SummaryFacts(ParsedFrame(data).value, lib, true, None);
    }
  }
}
