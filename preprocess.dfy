/**
 * Server-side preprocessing of a numeric frame: the last fixed-length
 * segment, CUSUM change-point bounds, the segment after the last bound, and
 * the change-duration curve of the target column.  Values are Python floats
 * that may be NaN; missing-value filling is a parameter of the pipeline.
 */
module Preprocess {
  import opened Py

  /** A pandas DataFrame of float columns: column names and rows in order. */
  datatype Frame = Frame(columns: seq<string>, rows: seq<map<string, Float>>)

  /** df[c].astype(float): a row without the column reads as NaN. */
  function Column(df: Frame, c: string): (xs: seq<Float>)
    ensures |xs| == |df.rows|
  {
    seq(|df.rows|, i requires 0 <= i < |df.rows| => if c in df.rows[i] then df.rows[i][c] else NaN)
  }

  /** df.iloc[a:], with Python's reading of a negative start. */
  function RowsFrom(df: Frame, a: int): Frame {
    df.(rows := SliceFrom(df.rows, a))
  }

  /**
   * select_last_segment(df, length): the whole frame when it has at most
   * length rows, otherwise df.iloc[-length:].
   */
  function SelectLastSegment(df: Frame, length: int): (r: Frame)
    ensures r.columns == df.columns
    ensures |df.rows| <= length ==> r == df
    ensures 0 < length < |df.rows| ==> r.rows == df.rows[|df.rows| - length..] && |r.rows| == length
  {
    if |df.rows| <= length then df else RowsFrom(df, -length)
  }

  /** For a positive length, the segment is the last min(length, rows) rows. */
  lemma {:induction false} LastSegmentIsSuffix(df: Frame, length: int)
    requires length > 0
    ensures var r := SelectLastSegment(df, length);
            |r.rows| == (if |df.rows| <= length then |df.rows| else length) &&
            r.rows == df.rows[|df.rows| - |r.rows|..]
  {
    if |df.rows| <= length {
      assert df.rows[0..] == df.rows;
    }
  }

  /** np.mean: NaN for an empty array or when any value is NaN. */
  function Sum(xs: seq<real>): real {
    if xs == [] then 0.0 else Sum(xs[..|xs| - 1]) + xs[|xs| - 1]
  }

  predicate AllFinite(xs: seq<Float>) {
    forall i :: 0 <= i < |xs| ==> xs[i].Fin?
  }

  function Mean(xs: seq<Float>): Float {
    if xs == [] || !AllFinite(xs) then NaN
    else Fin(Sum(seq(|xs|, i requires 0 <= i < |xs| => xs[i].v)) / |xs| as real)
  }

  /** s + (x - mean + d), NaN when x or mean is NaN. */
  function Drift(s: real, x: Float, mean: Float, d: real): Float {
    if x.NaN? || mean.NaN? then NaN else Fin(s + (x.v - mean.v + d))
  }

  /** Python max(a, b): b only when b > a, so max(0.0, nan) is 0.0. */
  function PyMax(a: real, b: Float): real {
    if b.Fin? && b.v > a then b.v else a
  }

  /** Python min(a, b): b only when b < a, so min(0.0, nan) is 0.0. */
  function PyMin(a: real, b: Float): real {
    if b.Fin? && b.v < a then b.v else a
  }

  /** The variables of the CUSUM scan. */
  datatype CusumState = CusumState(sPos: real, sNeg: real, mean: Float, bounds: seq<int>)

  /** Default drift and threshold of cusum_bounds. */
  const DefaultK: real := 0.5
  const DefaultH: real := 5.0

  predicate Increasing(s: seq<int>) {
    forall a, b :: 0 <= a < b < |s| ==> s[a] < s[b]
  }

  /** One iteration of the scan at index i. */
  function CusumStep(x: seq<Float>, k: real, h: real, i: nat, c: CusumState): CusumState
    requires i < |x|
  {
    var sPos := PyMax(0.0, Drift(c.sPos, x[i], c.mean, -k));
    var sNeg := PyMin(0.0, Drift(c.sNeg, x[i], c.mean, k));
    if sPos > h || sNeg < -h then
      CusumState(0.0, 0.0, Mean(x[(if i < 100 then 0 else i - 100)..i + 1]), c.bounds + [i])
    else
      CusumState(sPos, sNeg, c.mean, c.bounds)
  }

  /**
   * The scan's variables after its first n iterations: the sums keep their
   * signs, the bounds are increasing indices below n, and a bound recorded
   * at the last index leaves both sums at zero.
   */
  function CusumScan(x: seq<Float>, k: real, h: real, n: nat): (c: CusumState)
    requires n <= |x|
    ensures c.sPos >= 0.0 && c.sNeg <= 0.0
    ensures Increasing(c.bounds)
    ensures forall j :: 0 <= j < |c.bounds| ==> 0 <= c.bounds[j] < n
    ensures c.bounds != [] && c.bounds[|c.bounds| - 1] == n - 1 ==> c.sPos == 0.0 && c.sNeg == 0.0
  {
    if n == 0 then CusumState(0.0, 0.0, Mean(x), [])
    else CusumStep(x, k, h, n - 1, CusumScan(x, k, h, n - 1))
  }

  /** cusum_bounds(x, k, h): strictly increasing indices of x. */
  function Bounds(x: seq<Float>, k: real, h: real): (b: seq<int>)
    ensures Increasing(b)
    ensures forall j :: 0 <= j < |b| ==> 0 <= b[j] < |x|
  {
    CusumScan(x, k, h, |x|).bounds
  }

  /** cusum_bounds: the scan over every index, recording and resetting at each crossing. */
  method CusumBounds(x: seq<Float>, k: real, h: real) returns (bounds: seq<int>)
    ensures bounds == Bounds(x, k, h)
  {
    var sPos, sNeg := 0.0, 0.0;
    var mean := Mean(x);
    bounds := [];
    for i := 0 to |x|
      invariant CusumState(sPos, sNeg, mean, bounds) == CusumScan(x, k, h, i)
    {
      sPos := PyMax(0.0, Drift(sPos, x[i], mean, -k));
      sNeg := PyMin(0.0, Drift(sNeg, x[i], mean, k));
      if sPos > h || sNeg < -h {
        bounds := bounds + [i];
        sPos, sNeg := 0.0, 0.0;
        mean := Mean(x[(if i < 100 then 0 else i - 100)..i + 1]);
      }
    }
  }

  /**
   * A NaN value zeroes both sums (Python's max and min keep 0.0 against
   * NaN), so with a non-negative threshold it never records a bound.
   */
  lemma {:induction false} NaNRecordsNoBound(x: seq<Float>, k: real, h: real, i: nat)
    requires i < |x| && x[i].NaN? && h >= 0.0
    ensures CusumScan(x, k, h, i + 1).bounds == CusumScan(x, k, h, i).bounds
    ensures CusumScan(x, k, h, i + 1).sPos == 0.0 && CusumScan(x, k, h, i + 1).sNeg == 0.0
  {
    var c := CusumScan(x, k, h, i);
    assert Drift(c.sPos, x[i], c.mean, -k) == NaN;
    assert Drift(c.sNeg, x[i], c.mean, k) == NaN;
  }

  const BackWindow: int := 600
  const SegmentLength: int := 200

  /** The window of select_cusum_segment: the last backWindow rows, all of them when there are fewer. */
  function Window(df: Frame, backWindow: int): Frame {
    if |df.rows| > backWindow then RowsFrom(df, -backWindow) else df
  }

  /** The CUSUM bounds of the target column, none when the frame lacks it. */
  function TargetBounds(w: Frame, target: string): (b: seq<int>)
    ensures forall j :: 0 <= j < |b| ==> 0 <= b[j] < |w.rows|
    ensures target !in w.columns ==> b == []
  {
    if target in w.columns then Bounds(Column(w, target), DefaultK, DefaultH) else []
  }

  /** From the last bound to the end, or the last 200 rows without bounds. */
  function SegmentAfter(w: Frame, bnds: seq<int>): Frame {
    if bnds != [] then RowsFrom(w, bnds[|bnds| - 1]) else SelectLastSegment(w, SegmentLength)
  }

  /**
   * select_cusum_segment(df, target, back_window): the last back_window rows;
   * from the last CUSUM bound of the target to the end when there is one,
   * otherwise (or without the target column) the last 200 rows of them.
   */
  function SelectCusumSegment(df: Frame, target: string, backWindow: int): (r: (Frame, seq<int>))
    ensures r.0.columns == df.columns
    ensures target !in df.columns ==> r.1 == []
  {
    var window := Window(df, backWindow);
    var bnds := TargetBounds(window, target);
    (SegmentAfter(window, bnds), bnds)
  }

  /**
   * With a positive window, the segment is a non-empty suffix of the frame
   * (when the frame has rows) of at most backWindow rows; with bounds it
   * starts at the last bound of the window, without them it is the last
   * 200 rows of the window.
   */
  lemma {:induction false} CusumSegmentIsSuffix(df: Frame, target: string, backWindow: int)
    requires backWindow > 0
    ensures var r := SelectCusumSegment(df, target, backWindow);
            var w := Window(df, backWindow);
            |r.0.rows| <= backWindow && |r.0.rows| <= |df.rows| &&
            r.0.rows == df.rows[|df.rows| - |r.0.rows|..] &&
            (|df.rows| > 0 ==> |r.0.rows| > 0) &&
            (r.1 != [] ==> r.0.rows == w.rows[r.1[|r.1| - 1]..]) &&
            (r.1 == [] ==> r.0 == SelectLastSegment(w, SegmentLength))
  {
    var w := Window(df, backWindow);
    WindowIsSuffix(df, backWindow);
    SegmentAfterIsSuffix(df, w, TargetBounds(w, target));
  }

  lemma {:induction false} SegmentAfterIsSuffix(df: Frame, w: Frame, bnds: seq<int>)
    requires |w.rows| <= |df.rows| && w.rows == df.rows[|df.rows| - |w.rows|..]
    requires forall j :: 0 <= j < |bnds| ==> 0 <= bnds[j] < |w.rows|
    ensures var seg := SegmentAfter(w, bnds);
            |seg.rows| <= |w.rows| && seg.rows == df.rows[|df.rows| - |seg.rows|..] &&
            (|w.rows| > 0 ==> |seg.rows| > 0) &&
            (bnds != [] ==> seg.rows == w.rows[bnds[|bnds| - 1]..])
  {
    if bnds != [] {
      SuffixOfSuffix(df.rows, w.rows, bnds[|bnds| - 1]);
    } else {
      LastSegmentIsSuffix(w, SegmentLength);
      SuffixOfSuffix(df.rows, w.rows, |w.rows| - |SelectLastSegment(w, SegmentLength).rows|);
    }
  }

  /** The window is the last min(backWindow, rows) rows. */
  lemma WindowIsSuffix(df: Frame, backWindow: int)
    requires backWindow > 0
    ensures var w := Window(df, backWindow);
            w.columns == df.columns && |w.rows| <= backWindow && |w.rows| <= |df.rows| &&
            w.rows == df.rows[|df.rows| - |w.rows|..]
  {
    if |df.rows| <= backWindow {
      assert df.rows[0..] == df.rows;
    }
  }

  lemma SuffixOfSuffix<T>(s: seq<T>, w: seq<T>, a: nat)
    requires |w| <= |s| && w == s[|s| - |w|..] && a <= |w|
    ensures w[a..] == s[|s| - |w[a..]|..]
  {
  }

  /** The band a run from a start value may stay in, as its lower and upper limits. */
  type Limits = real -> (real, real)

  /**
   * As written, the band is [start*(1-pct), start*(1+pct)], which is empty
   * for a negative start and a positive pct; Ordered takes the two limits in
   * increasing order.
   */
  datatype Band = AsWritten | Ordered

  function BandLimits(b: Band, pct: real): Limits {
    s => if b.Ordered? && s * (1.0 + pct) < s * (1.0 - pct) then (s * (1.0 + pct), s * (1.0 - pct))
         else (s * (1.0 - pct), s * (1.0 + pct))
  }

  /** The inner scan: the first index from j whose value is NaN or outside [lo, hi], or |arr|. */
  function RunEnd(arr: seq<Float>, lo: real, hi: real, j: nat): (e: nat)
    requires j <= |arr|
    ensures j <= e <= |arr|
    ensures forall t :: j <= t < e ==> arr[t].Fin? && lo <= arr[t].v <= hi
    ensures e < |arr| ==> arr[e].NaN? || !(lo <= arr[e].v <= hi)
    decreases |arr| - j
  {
    if j == |arr| || arr[j].NaN? || !(lo <= arr[j].v <= hi) then j
    else RunEnd(arr, lo, hi, j + 1)
  }

  /** Where the run from the non-NaN value at i stops. */
  function End(arr: seq<Float>, lim: Limits, i: nat): nat
    requires i < |arr| && arr[i].Fin?
  {
    RunEnd(arr, lim(arr[i].v).0, lim(arr[i].v).1, i)
  }

  /** One point of the curve: the run from start up to end (exclusive), and its sign. */
  datatype Span = Span(start: nat, end: nat, sign: int)

  function Sign(arr: seq<Float>, start: real, e: nat): int {
    if e < |arr| && arr[e].Fin? then (if arr[e].v > start then 1 else -1) else 0
  }

  function Max(a: nat, b: nat): nat {
    if a < b then b else a
  }

  /** A run starting at a non-NaN value, ending where its inner scan stops, with that end's sign. */
  predicate ScannedRun(arr: seq<Float>, lim: Limits, s: Span) {
    s.start < |arr| && arr[s.start].Fin? &&
    s.end == End(arr, lim, s.start) &&
    s.sign == Sign(arr, arr[s.start].v, s.end)
  }

  /** The runs the outer scan emits from index i on. */
  function Spans(arr: seq<Float>, lim: Limits, i: nat): seq<Span>
    requires i <= |arr|
    decreases |arr| - i
  {
    if i == |arr| then []
    else if arr[i].NaN? then Spans(arr, lim, i + 1)
    else
      var e := End(arr, lim, i);
      [Span(i, e, Sign(arr, arr[i].v, e))] + Spans(arr, lim, Max(e, i + 1))
  }

  /**
   * The runs from i are scanned runs at increasing starts from i, each next
   * one starting no earlier than the previous one's end.
   */
  lemma {:induction false} SpansOrdered(arr: seq<Float>, lim: Limits, i: nat)
    requires i <= |arr|
    ensures forall k :: 0 <= k < |Spans(arr, lim, i)| ==>
              i <= Spans(arr, lim, i)[k].start && ScannedRun(arr, lim, Spans(arr, lim, i)[k])
    ensures forall k :: 0 <= k < |Spans(arr, lim, i)| - 1 ==>
              Spans(arr, lim, i)[k].start < Spans(arr, lim, i)[k + 1].start &&
              Spans(arr, lim, i)[k].end <= Spans(arr, lim, i)[k + 1].start
    decreases |arr| - i
  {
    if i == |arr| {
    } else if arr[i].NaN? {
      SpansOrdered(arr, lim, i + 1);
    } else {
      var e := End(arr, lim, i);
      var head := Span(i, e, Sign(arr, arr[i].v, e));
      var rest := Spans(arr, lim, Max(e, i + 1));
      SpansOrdered(arr, lim, Max(e, i + 1));
      assert Spans(arr, lim, i) == [head] + rest;
      assert ScannedRun(arr, lim, head);
      ConsRuns(arr, lim, i, Max(e, i + 1), head, rest);
    }
  }

  /** A scanned run at i put in front of ordered runs from j > i, with its end at most j, keeps them ordered. */
  lemma ConsRuns(arr: seq<Float>, lim: Limits, i: nat, j: nat, head: Span, rest: seq<Span>)
    requires head.start == i < j && head.end <= j && ScannedRun(arr, lim, head)
    requires forall k :: 0 <= k < |rest| ==> j <= rest[k].start && ScannedRun(arr, lim, rest[k])
    requires forall k :: 0 <= k < |rest| - 1 ==> rest[k].start < rest[k + 1].start && rest[k].end <= rest[k + 1].start
    ensures var r := [head] + rest;
            (forall k :: 0 <= k < |r| ==> i <= r[k].start && ScannedRun(arr, lim, r[k])) &&
            (forall k :: 0 <= k < |r| - 1 ==> r[k].start < r[k + 1].start && r[k].end <= r[k + 1].start)
  {
    var r := [head] + rest;
    forall k | 0 <= k < |r|
      ensures i <= r[k].start && ScannedRun(arr, lim, r[k])
    {
      if k > 0 {
        assert r[k] == rest[k - 1];
      }
    }
    forall k | 0 <= k < |r| - 1
      ensures r[k].start < r[k + 1].start && r[k].end <= r[k + 1].start
    {
      if k > 0 {
        assert r[k] == rest[k - 1] && r[k + 1] == rest[k];
      } else {
        assert r[1] == rest[0];
      }
    }
  }

  /** {"x": x_marks, "y": y_vals} */
  datatype DurationCurve = DurationCurve(x: seq<int>, y: seq<int>)

  function Mark(n: nat, s: Span): int {
    if s.end < n then s.end else n - 1
  }

  function Value(s: Span): int {
    s.sign * (s.end - s.start)
  }

  function Marks(n: nat, spans: seq<Span>): (xs: seq<int>)
    ensures |xs| == |spans| && forall k :: 0 <= k < |spans| ==> xs[k] == Mark(n, spans[k])
  {
    seq(|spans|, k requires 0 <= k < |spans| => Mark(n, spans[k]))
  }

  function Values(spans: seq<Span>): (ys: seq<int>)
    ensures |ys| == |spans| && forall k :: 0 <= k < |spans| ==> ys[k] == Value(spans[k])
  {
    seq(|spans|, k requires 0 <= k < |spans| => Value(spans[k]))
  }

  /** change_duration_curve(series, pct), with the band limits lim. */
  function CurveOf(arr: seq<Float>, lim: Limits): DurationCurve {
    var spans := Spans(arr, lim, 0);
    DurationCurve(Marks(|arr|, spans), Values(spans))
  }

  /** x and y have equal length, every x is an index of the series, and x never decreases. */
  lemma {:induction false} CurveShape(arr: seq<Float>, lim: Limits)
    ensures var c := CurveOf(arr, lim);
            |c.x| == |c.y| &&
            (forall k :: 0 <= k < |c.x| ==> 0 <= c.x[k] < |arr|) &&
            (forall k, l :: 0 <= k <= l < |c.x| ==> c.x[k] <= c.x[l])
  {
    var spans := Spans(arr, lim, 0);
    var c := CurveOf(arr, lim);
    SpansOrdered(arr, lim, 0);
    forall k | 0 <= k < |spans|
      ensures spans[k].start <= spans[k].end
    {
      assert ScannedRun(arr, lim, spans[k]);
    }
    forall k, l | 0 <= k <= l < |c.x|
      ensures c.x[k] <= c.x[l]
    {
      ChainedMarks(|arr|, spans, k, l);
    }
  }

  /** In runs that each end no later than the next starts, a run's mark is at most any later run's mark. */
  lemma {:induction false} ChainedMarks(n: nat, spans: seq<Span>, k: nat, l: nat)
    requires forall t :: 0 <= t < |spans| ==> spans[t].start <= spans[t].end
    requires forall t :: 0 <= t < |spans| - 1 ==> spans[t].end <= spans[t + 1].start
    requires k <= l < |spans|
    ensures Mark(n, spans[k]) <= Mark(n, spans[l])
    decreases l - k
  {
    if k < l {
      ChainedMarks(n, spans, k + 1, l);
      assert spans[k].end <= spans[k + 1].start <= spans[k + 1].end;
    }
  }

  /**
   * Each y is the run's sign times its length, and the sign is 0 exactly
   * when the run reaches the end of the series or stops at a NaN.
   */
  lemma {:induction false} CurveValues(arr: seq<Float>, lim: Limits)
    ensures var spans := Spans(arr, lim, 0);
            forall k :: 0 <= k < |spans| ==>
              CurveOf(arr, lim).y[k] == spans[k].sign * (spans[k].end - spans[k].start) &&
              spans[k].start <= spans[k].end <= |arr| &&
              (spans[k].sign == 0 <==> spans[k].end == |arr| || arr[spans[k].end].NaN?)
  {
    var spans := Spans(arr, lim, 0);
    SpansOrdered(arr, lim, 0);
    forall k | 0 <= k < |spans|
      ensures spans[k].start <= spans[k].end <= |arr|
    {
      assert ScannedRun(arr, lim, spans[k]);
    }
  }

  /**
   * As written, a negative start value lies outside its own band, so its run
   * is empty: the value never counts itself.
   */
  lemma {:induction false} NegativeStartEmptyRun(arr: seq<Float>, pct: real, i: nat)
    requires i < |arr| && arr[i].Fin? && arr[i].v < 0.0 && pct > 0.0
    ensures End(arr, BandLimits(AsWritten, pct), i) == i
  {
    var s := arr[i].v;
    assert s * (1.0 - pct) == s - s * pct;
    assert s * pct < 0.0;
  }

  /** The series [-1, -2] as written yields x = [0, 1], y = [0, 0]. */
  lemma NegativeSeriesAsWritten()
    ensures CurveOf([Fin(-1.0), Fin(-2.0)], BandLimits(AsWritten, 0.05)) == DurationCurve([0, 1], [0, 0])
  {
    var arr := [Fin(-1.0), Fin(-2.0)];
    NegativeStartEmptyRun(arr, 0.05, 0);
    NegativeStartEmptyRun(arr, 0.05, 1);
    assert Spans(arr, BandLimits(AsWritten, 0.05), 2) == [];
    assert Spans(arr, BandLimits(AsWritten, 0.05), 1) == [Span(1, 1, -1)];
    assert Spans(arr, BandLimits(AsWritten, 0.05), 0) == [Span(0, 0, -1), Span(1, 1, -1)];
  }

  /** With the limits ordered, the same series yields x = [1, 1], y = [-1, 0]. */
  lemma NegativeSeriesOrdered()
    ensures CurveOf([Fin(-1.0), Fin(-2.0)], BandLimits(Ordered, 0.05)) == DurationCurve([1, 1], [-1, 0])
  {
    var arr := [Fin(-1.0), Fin(-2.0)];
    var lim := BandLimits(Ordered, 0.05);
    assert lim(-1.0) == (-1.05, -0.95);
    assert lim(-2.0) == (-2.1, -1.9);
    assert RunEnd(arr, -2.1, -1.9, 2) == 2;
    assert RunEnd(arr, -2.1, -1.9, 1) == 2;
    assert RunEnd(arr, -1.05, -0.95, 1) == 1;
    assert RunEnd(arr, -1.05, -0.95, 0) == 1;
    assert Spans(arr, lim, 2) == [];
    assert Spans(arr, lim, 1) == [Span(1, 2, 0)];
    assert Spans(arr, lim, 0) == [Span(0, 1, -1), Span(1, 2, 0)];
  }

  /** With ordered limits and pct >= 0, every run contains its start, so no run is empty. */
  lemma {:induction false} OrderedRunsNonEmpty(arr: seq<Float>, pct: real, i: nat)
    requires i <= |arr| && pct >= 0.0
    ensures var spans := Spans(arr, BandLimits(Ordered, pct), i);
            forall k :: 0 <= k < |spans| ==> spans[k].start < spans[k].end
  {
    var spans := Spans(arr, BandLimits(Ordered, pct), i);
    SpansOrdered(arr, BandLimits(Ordered, pct), i);
    forall k | 0 <= k < |spans|
      ensures spans[k].start < spans[k].end
    {
      var s := arr[spans[k].start].v;
      StartInOrderedBand(s, pct);
    }
  }

  lemma StartInOrderedBand(s: real, pct: real)
    requires pct >= 0.0
    ensures BandLimits(Ordered, pct)(s).0 <= s <= BandLimits(Ordered, pct)(s).1
  {
    assert s * (1.0 - pct) == s - s * pct;
    assert s * (1.0 + pct) == s + s * pct;
    if s >= 0.0 {
      assert s * pct >= 0.0;
    } else {
      assert s * pct <= 0.0;
    }
  }

  /**
   * change_duration_curve: the outer scan skips NaN starts; the inner scan
   * extends the run while values stay in the band; each run emits its mark
   * and its signed length, and the scan resumes at max(j, i + 1).
   */
  method ChangeDurationCurve(arr: seq<Float>, pct: real, b: Band) returns (c: DurationCurve)
    ensures c == CurveOf(arr, BandLimits(b, pct))
  {
    var lim := BandLimits(b, pct);
    var xMarks: seq<int> := [];
    var yVals: seq<int> := [];
    ghost var done: seq<Span> := [];
    var n := |arr|;
    var i := 0;
    while i < n
      invariant 0 <= i <= n
      invariant CurveSoFar(arr, lim, i, done, xMarks, yVals)
      decreases n - i
    {
      if arr[i].NaN? {
        SkipNaN(arr, lim, i, done, xMarks, yVals);
        i := i + 1;
        continue;
      }
      i, xMarks, yVals, done := EmitRun(arr, lim, i, xMarks, yVals, done);
    }
    FinishCurve(arr, lim, done, xMarks, yVals);
    c := DurationCurve(xMarks, yVals);
  }

  /**
   * One pass of the outer loop from a non-NaN start: scan its run, emit its
   * mark and signed length, and continue at max(end, start + 1).
   */
  method EmitRun(arr: seq<Float>, lim: Limits, i: nat, xMarks: seq<int>, yVals: seq<int>, ghost done: seq<Span>)
    returns (next: nat, xs: seq<int>, ys: seq<int>, ghost done': seq<Span>)
    requires i < |arr| && arr[i].Fin? && CurveSoFar(arr, lim, i, done, xMarks, yVals)
    ensures i < next <= |arr| && CurveSoFar(arr, lim, next, done', xs, ys)
  {
    var n := |arr|;
    var start := arr[i].v;
    var (limitLow, limitHigh) := lim(start);
    var j := ScanRun(arr, limitLow, limitHigh, i);
    var length := j - i;
    var sign := if j < n && arr[j].Fin? then (if arr[j].v > start then 1 else -1) else 0;
    Advance(arr, lim, i, j, sign, done, xMarks, yVals);
    xs := xMarks + [if j < n then j else n - 1];
    ys := yVals + [sign * length];
    done' := done + [Span(i, j, sign)];
    next := Max(j, i + 1);
  }

  /** The inner loop of change_duration_curve: extend the run while values stay finite and in the band. */
  method ScanRun(arr: seq<Float>, limitLow: real, limitHigh: real, i: nat) returns (j: nat)
    requires i <= |arr|
    ensures j == RunEnd(arr, limitLow, limitHigh, i)
  {
    j := i;
    while j < |arr| && arr[j].Fin? && limitLow <= arr[j].v <= limitHigh
      invariant i <= j <= |arr|
      invariant RunEnd(arr, limitLow, limitHigh, j) == RunEnd(arr, limitLow, limitHigh, i)
      decreases |arr| - j
    {
      j := j + 1;
    }
  }

  /** The loop invariant of change_duration_curve: the runs so far, then those from i, are all the runs. */
  predicate CurveSoFar(arr: seq<Float>, lim: Limits, i: nat, done: seq<Span>, xMarks: seq<int>, yVals: seq<int>)
    requires i <= |arr|
  {
    done + Spans(arr, lim, i) == Spans(arr, lim, 0) &&
    xMarks == Marks(|arr|, done) && yVals == Values(done)
  }

  /** A NaN start emits nothing. */
  lemma SkipNaN(arr: seq<Float>, lim: Limits, i: nat, done: seq<Span>, xMarks: seq<int>, yVals: seq<int>)
    requires i < |arr| && arr[i].NaN? && CurveSoFar(arr, lim, i, done, xMarks, yVals)
    ensures CurveSoFar(arr, lim, i + 1, done, xMarks, yVals)
  {
    assert Spans(arr, lim, i) == Spans(arr, lim, i + 1);
  }

  /** One emitted run moves from the remaining spans to the finished ones, with its mark and value. */
  lemma Advance(arr: seq<Float>, lim: Limits, i: nat, j: nat, sign: int,
                done: seq<Span>, xMarks: seq<int>, yVals: seq<int>)
    requires i < |arr| && arr[i].Fin? && CurveSoFar(arr, lim, i, done, xMarks, yVals)
    requires j == End(arr, lim, i)
    requires sign == (if j < |arr| && arr[j].Fin? then (if arr[j].v > arr[i].v then 1 else -1) else 0)
    ensures CurveSoFar(arr, lim, Max(j, i + 1), done + [Span(i, j, sign)],
                       xMarks + [if j < |arr| then j else |arr| - 1], yVals + [sign * (j - i)])
  {
    var span := Span(i, j, sign);
    var rest := Spans(arr, lim, Max(j, i + 1));
    SpansHead(arr, lim, i);
    assert (done + [span]) + rest == done + ([span] + rest);
    MarksAppend(|arr|, done, span);
  }

  /** The runs from a non-NaN start: its own run, then those from max(end, start + 1). */
  lemma SpansHead(arr: seq<Float>, lim: Limits, i: nat)
    requires i < |arr| && arr[i].Fin?
    ensures var e := End(arr, lim, i);
            Spans(arr, lim, i) ==
              [Span(i, e, if e < |arr| && arr[e].Fin? then (if arr[e].v > arr[i].v then 1 else -1) else 0)]
              + Spans(arr, lim, Max(e, i + 1))
  {
  }

  /** At the end of the series the runs so far are all the runs. */
  lemma FinishCurve(arr: seq<Float>, lim: Limits, done: seq<Span>, xMarks: seq<int>, yVals: seq<int>)
    requires CurveSoFar(arr, lim, |arr|, done, xMarks, yVals)
    ensures DurationCurve(xMarks, yVals) == CurveOf(arr, lim)
  {
    assert Spans(arr, lim, |arr|) == [];
    assert done == done + [];
  }

  lemma MarksAppend(n: nat, done: seq<Span>, s: Span)
    ensures Marks(n, done + [s]) == Marks(n, done) + [Mark(n, s)]
    ensures Values(done + [s]) == Values(done) + [Value(s)]
  {
  }

  /** The segment, the bounds and the curve preprocess_pipeline returns. */
  datatype Output = Output(segment: Frame, bounds: seq<int>, curve: DurationCurve)

  const CurvePct: real := 0.05

  /**
   * preprocess_pipeline(df, target, method): fill the gaps, then "last"
   * takes the last 200 rows with no bounds and any other method the CUSUM
   * segment; the curve is the as-written change_duration_curve of the target
   * column, empty when the segment has no target column.
   */
  function PreprocessPipeline(df: Frame, target: string, ppMethod: string, fill: Frame -> Frame): (r: Output)
    ensures ppMethod == "last" ==> r.bounds == [] && r.segment == SelectLastSegment(fill(df), SegmentLength)
    ensures ppMethod != "last" ==> (r.segment, r.bounds) == SelectCusumSegment(fill(df), target, BackWindow)
    ensures target in r.segment.columns ==> r.curve == CurveOf(Column(r.segment, target), BandLimits(AsWritten, CurvePct))
    ensures target !in r.segment.columns ==> r.curve == DurationCurve([], [])
  {
    var clean := fill(df);
    var (seg, bounds) := if ppMethod == "last" then (SelectLastSegment(clean, SegmentLength), [])
                         else SelectCusumSegment(clean, target, BackWindow);
    var curve := if target in seg.columns then CurveOf(Column(seg, target), BandLimits(AsWritten, CurvePct)) else DurationCurve([], []);
    Output(seg, bounds, curve)
  }

  /** For a non-negative start and pct the two readings of the band coincide. */
  lemma BandsAgreeAt(pct: real, s: real)
    requires pct >= 0.0 && s >= 0.0
    ensures BandLimits(AsWritten, pct)(s) == BandLimits(Ordered, pct)(s)
  {
    assert s * (1.0 + pct) - s * (1.0 - pct) == 2.0 * (s * pct);
    assert s * pct >= 0.0;
  }

  /** The runs depend on the limits only through the limits of the series' own values. */
  lemma {:induction false} SpansAgree(arr: seq<Float>, l1: Limits, l2: Limits, i: nat)
    requires i <= |arr|
    requires forall t :: i <= t < |arr| && arr[t].Fin? ==> l1(arr[t].v) == l2(arr[t].v)
    ensures Spans(arr, l1, i) == Spans(arr, l2, i)
    decreases |arr| - i
  {
    if i < |arr| {
      if arr[i].NaN? {
        SpansAgree(arr, l1, l2, i + 1);
      } else {
        var e := End(arr, l1, i);
        assert End(arr, l2, i) == e;
        SpansAgree(arr, l1, l2, Max(e, i + 1));
      }
    }
  }

  /**
   * Over a series without negative values the as-written curve is the
   * ordered-band curve: the inverted band only matters for a negative start.
   */
  lemma CurveBandsAgree(arr: seq<Float>, pct: real)
    requires pct >= 0.0
    requires forall t :: 0 <= t < |arr| && arr[t].Fin? ==> arr[t].v >= 0.0
    ensures CurveOf(arr, BandLimits(AsWritten, pct)) == CurveOf(arr, BandLimits(Ordered, pct))
  {
    forall t | 0 <= t < |arr| && arr[t].Fin?
      ensures BandLimits(AsWritten, pct)(arr[t].v) == BandLimits(Ordered, pct)(arr[t].v)
    {
      BandsAgreeAt(pct, arr[t].v);
    }
    SpansAgree(arr, BandLimits(AsWritten, pct), BandLimits(Ordered, pct), 0);
  }

  /**
   * The pipeline's curve is the corrected one whenever the target column of
   * the segment holds no negative value; [-1.0, -2.0] with "last" is where
   * they part (NegativeSeriesAsWritten, NegativeSeriesOrdered).
   */
  lemma PipelineCurveNonNegative(df: Frame, target: string, ppMethod: string, fill: Frame -> Frame)
    requires var seg := PreprocessPipeline(df, target, ppMethod, fill).segment;
             target in seg.columns &&
             forall t :: 0 <= t < |seg.rows| && Column(seg, target)[t].Fin? ==> Column(seg, target)[t].v >= 0.0
    ensures var r := PreprocessPipeline(df, target, ppMethod, fill);
            r.curve == CurveOf(Column(r.segment, target), BandLimits(Ordered, CurvePct))
  {
    var r := PreprocessPipeline(df, target, ppMethod, fill);
    CurveBandsAgree(Column(r.segment, target), CurvePct);
  }

  /** On the negative series of the finding, with "last", the route's curve is the as-written one. */
  lemma PipelineNegativeSeries(fill: Frame -> Frame, df: Frame)
    requires fill(df) == Frame(["v"], [map["v" := Fin(-1.0)], map["v" := Fin(-2.0)]])
    ensures PreprocessPipeline(df, "v", "last", fill).curve == DurationCurve([0, 1], [0, 0])
  {
    var r := PreprocessPipeline(df, "v", "last", fill);
    assert r.segment == fill(df);
    assert Column(r.segment, "v") == [Fin(-1.0), Fin(-2.0)];
    NegativeSeriesAsWritten();
  }
}
