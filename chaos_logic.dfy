/**
 * Change-point helpers: the CUSUM and minimum-information-error scores with
 * the index of the largest score, the points whose value lies within a
 * percentage of a given point, the last point, and the sliding-window local
 * fractal dimension.  The numeric score of each position and the Hurst
 * exponent are function parameters.
 */
module ChaosLogic {
  import opened Wrappers
  import opened Py

  /** DisorderResult: the score of every position and the index of the largest absolute score. */
  datatype DisorderResult = DisorderResult(B: seq<Float>, indMax: nat)

  /** The score a statistic gives position i of the series. */
  type Statistic = (seq<Float>, nat) -> Float

  function AbsR(x: real): real {
    if x < 0.0 then -x else x
  }

  /** abs(a) > abs(b) as numpy compares: false whenever either side is NaN. */
  predicate Greater(a: Float, b: Float) {
    a.Fin? && b.Fin? && AbsR(a.v) > AbsR(b.v)
  }

  /**
   * The index the loop `indMax = i if abs(B[i]) > abs(B[indMax]) else indMax`
   * ends with, starting from 0, after scanning all of B.
   */
  function ArgMax(B: seq<Float>): (m: nat)
    ensures B == [] ==> m == 0
    ensures B != [] ==> m < |B|
  {
    if B == [] then 0
    else
      var m := ArgMax(B[..|B| - 1]);
      if Greater(B[|B| - 1], B[m]) then |B| - 1 else m
  }

  /**
   * Over finite scores the scan finds the first position of the largest
   * absolute score: nothing is larger, and everything before it is smaller.
   */
  lemma {:induction false} ArgMaxFirstMax(B: seq<Float>)
    requires B != []
    requires forall k :: 0 <= k < |B| ==> B[k].Fin?
    ensures var m := ArgMax(B);
            (forall k :: 0 <= k < |B| ==> AbsR(B[k].v) <= AbsR(B[m].v)) &&
            (forall k :: 0 <= k < m ==> AbsR(B[k].v) < AbsR(B[m].v))
  {
    var init := B[..|B| - 1];
    if init != [] {
      ArgMaxFirstMax(init);
      var m := ArgMax(init);
      assert forall k :: 0 <= k < |init| ==> init[k] == B[k];
    }
  }

  /** A NaN score at position 0 is never beaten, so the scan stays at 0. */
  lemma {:induction false} LeadingNaNSticks(B: seq<Float>)
    requires B != [] && B[0].NaN?
    ensures ArgMax(B) == 0
  {
    var init := B[..|B| - 1];
    if init != [] {
      assert init[0] == B[0];
      LeadingNaNSticks(init);
    }
  }

  /** The scores cusum writes: one per position. */
  function Scores(A: seq<Float>, stat: Statistic): (B: seq<Float>)
    ensures |B| == |A| && forall i :: 0 <= i < |A| ==> B[i] == stat(A, i)
  {
    seq(|A|, i requires 0 <= i => stat(A, i))
  }

  /** cusum(A): B[i] is the score of each position, indMax the scan's argmax over all of B. */
  method Cusum(A: seq<Float>, stat: Statistic) returns (r: DisorderResult)
    ensures r.B == Scores(A, stat)
    ensures r.indMax == ArgMax(r.B)
  {
    var B := new Float[|A|](_ => Fin(0.0));
    var indMax := 0;
    for i := 0 to |A|
      invariant forall k :: 0 <= k < i ==> B[k] == stat(A, k)
      invariant indMax == ArgMax(B[..i])
    {
      B[i] := stat(A, i);
      assert B[..i + 1][..i] == B[..i];
      indMax := if Greater(B[i], B[indMax]) then i else indMax;
    }
    assert B[..] == B[..|A|];
    r := DisorderResult(B[..], indMax);
  }

  /** The positions min_info_error scores: range(len(A) - 2). */
  function Written(n: nat): nat {
    if n >= 2 then n - 2 else 0
  }

  /** The scores min_info_error leaves: one per position, except the last two, which stay 0. */
  function InfoScores(A: seq<Float>, stat: Statistic): (B: seq<Float>)
    ensures |B| == |A|
    ensures forall i :: 0 <= i < Written(|A|) ==> B[i] == stat(A, i)
    ensures forall i :: Written(|A|) <= i < |A| ==> B[i] == Fin(0.0)
  {
    seq(|A|, i requires 0 <= i => if i < Written(|A|) then stat(A, i) else Fin(0.0))
  }

  /** min_info_error(A): scores the positions before the last two; indMax is the scan's argmax over those alone. */
  method MinInfoError(A: seq<Float>, stat: Statistic) returns (r: DisorderResult)
    ensures r.B == InfoScores(A, stat)
    ensures r.indMax == ArgMax(r.B[..Written(|A|)])
  {
    var B := new Float[|A|](_ => Fin(0.0));
    var indMax := 0;
    var n := Written(|A|);
    for i := 0 to n
      invariant forall k :: 0 <= k < i ==> B[k] == stat(A, k)
      invariant forall k :: i <= k < |A| ==> B[k] == Fin(0.0)
      invariant indMax == ArgMax(B[..i])
    {
      B[i] := stat(A, i);
      assert B[..i + 1][..i] == B[..i];
      indMax := if Greater(B[i], B[indMax]) then i else indMax;
    }
    r := DisorderResult(B[..], indMax);
  }

  /** With at least two values, the last two scores are 0 and indMax is one of the written positions (or 0). */
  lemma InfoTailZero(A: seq<Float>, stat: Statistic, r: DisorderResult)
    requires |A| >= 2 && r.B == InfoScores(A, stat) && r.indMax == ArgMax(r.B[..Written(|A|)])
    ensures r.B[|A| - 2] == Fin(0.0) && r.B[|A| - 1] == Fin(0.0)
    ensures |A| > 2 ==> r.indMax < |A| - 2
    ensures |A| == 2 ==> r.indMax == 0
  {
  }

  /** x + x * procents, NaN staying NaN. */
  function Raised(x: Float, procents: real): Float {
    if x.NaN? then NaN else Fin(x.v + x.v * procents)
  }

  /** x - x * procents, NaN staying NaN. */
  function Lowered(x: Float, procents: real): Float {
    if x.NaN? then NaN else Fin(x.v - x.v * procents)
  }

  /** a < b, false whenever either side is NaN. */
  predicate Less(a: Float, b: Float) {
    a.Fin? && b.Fin? && a.v < b.v
  }

  /** (minus, plus) after get_more_points swaps them when plus < 0. */
  function PointBounds(x: Float, procents: real): (Float, Float) {
    var plus, minus := Raised(x, procents), Lowered(x, procents);
    if Less(plus, Fin(0.0)) then (plus, minus) else (minus, plus)
  }

  /** The indices below n whose value lies strictly between the bounds, in increasing order. */
  function Matching(data: seq<Float>, bounds: (Float, Float), n: nat): (r: seq<int>)
    requires n <= |data|
    ensures forall k :: 0 <= k < |r| ==> 0 <= r[k] < n
    ensures forall k, l :: 0 <= k < l < |r| ==> r[k] < r[l]
    ensures forall e :: e in r <==> 0 <= e < n && Less(data[e], bounds.1) && Less(bounds.0, data[e])
  {
    if n == 0 then []
    else
      var rest := Matching(data, bounds, n - 1);
      if Less(data[n - 1], bounds.1) && Less(bounds.0, data[n - 1]) then rest + [n - 1] else rest
  }

  /** The defaults of get_more_points: no points, and a band of 10 percent. */
  const DefaultPointsData: seq<Float> := []
  const DefaultProcents: real := 0.1

  /**
   * get_more_points(pointnow, points_data, procents): IndexError (None) for
   * an index out of range; otherwise the indices whose value lies strictly
   * between the point's value minus and plus the percentage.
   */
  method GetMorePoints(pointnow: int, data: seq<Float>, procents: real) returns (r: Option<seq<int>>)
    ensures r.None? <==> Index(data, pointnow).None?
    ensures r.Some? ==> r.value == Matching(data, PointBounds(Index(data, pointnow).value, procents), |data|)
  {
    var x := Index(data, pointnow);
    if x.None? {
      return None;
    }
    var plus := Raised(x.value, procents);
    var minus := Lowered(x.value, procents);
    var result := [];
    if Less(plus, Fin(0.0)) {
      var l := plus;
      plus := minus;
      minus := l;
    }
    assert (minus, plus) == PointBounds(x.value, procents);
    for elem := 0 to |data|
      invariant result == Matching(data, (minus, plus), elem)
    {
      if Less(data[elem], plus) {
        if Less(minus, data[elem]) {
          result := result + [elem];
        }
      }
    }
    return Some(result);
  }

  /** For a positive percentage, a finite point lies within its own bounds exactly when it is non-zero. */
  lemma PointItself(data: seq<Float>, pointnow: nat, procents: real)
    requires pointnow < |data| && data[pointnow].Fin? && procents > 0.0
    ensures pointnow in Matching(data, PointBounds(data[pointnow], procents), |data|) <==> data[pointnow].v != 0.0
  {
    var x := data[pointnow].v;
    if x > 0.0 {
      assert x * procents > 0.0;
    } else if x < 0.0 {
      assert x * procents < 0.0;
    }
  }

  /** get_more_points(p) with its default points_data: every index is out of range, so it raises IndexError. */
  lemma DefaultDataRaises(pointnow: int)
    ensures Index(DefaultPointsData, pointnow).None?
  {
  }

  /** With the default 10 percent, a finite non-zero point is among its own matches. */
  lemma DefaultBandHoldsPoint(data: seq<Float>, pointnow: nat)
    requires pointnow < |data| && data[pointnow].Fin? && data[pointnow].v != 0.0
    ensures pointnow in Matching(data, PointBounds(data[pointnow], DefaultProcents), |data|)
  {
    PointItself(data, pointnow, DefaultProcents);
  }

  /** A NaN point matches nothing: both its bounds are NaN, and nothing compares within NaN. */
  lemma {:induction false} NaNPointMatchesNothing(data: seq<Float>, x: Float, procents: real, n: nat)
    requires n <= |data| && x.NaN?
    ensures Matching(data, PointBounds(x, procents), n) == []
  {
    assert PointBounds(x, procents) == (NaN, NaN);
    if n > 0 {
      NaNPointMatchesNothing(data, x, procents, n - 1);
    }
  }

  /** get_point_with_max_index(points_data): the last element; IndexError (None) for an empty list. */
  function GetPointWithMaxIndex<T>(data: seq<T>): (r: Option<T>)
    ensures r.Some? <==> data != []
    ensures r.Some? ==> r.value == data[|data| - 1]
  {
    Index(data, |data| - 1)
  }

  /** The number of windows: len(range(len(signal) - window_size + 1)). */
  function WindowCount(n: nat, windowSize: int): nat {
    if n - windowSize + 1 > 0 then n - windowSize + 1 else 0
  }

  /** signal[i:i + window_size] for every window position i. */
  function Windows(signal: seq<Float>, windowSize: int): (ws: seq<seq<Float>>)
    ensures |ws| == WindowCount(|signal|, windowSize)
  {
    seq(WindowCount(|signal|, windowSize), i => Slice(signal, i, i + windowSize))
  }

  /** local_fractal_dimension(signal, window_size): the Hurst exponent of every window, in order. */
  method LocalFractalDimension(signal: seq<Float>, windowSize: int, hurst: seq<Float> -> Float)
    returns (lfd: seq<Float>)
    ensures |lfd| == WindowCount(|signal|, windowSize)
    ensures forall i :: 0 <= i < |lfd| ==> lfd[i] == hurst(Windows(signal, windowSize)[i])
  {
    lfd := [];
    ghost var ws := Windows(signal, windowSize);
    var i := 0;
    while i < |signal| - windowSize + 1
      invariant 0 <= i <= |ws|
      invariant |lfd| == i && forall k :: 0 <= k < i ==> lfd[k] == hurst(ws[k])
    {
      var window := Slice(signal, i, i + windowSize);
      lfd := lfd + [hurst(window)];
      i := i + 1;
    }
  }

  /** With a positive window size every window is a full run of window_size values of the signal. */
  lemma {:induction false} FullWindows(signal: seq<Float>, windowSize: int)
    requires windowSize > 0
    ensures var ws := Windows(signal, windowSize);
            forall i :: 0 <= i < |ws| ==> ws[i] == signal[i..i + windowSize] && |ws[i]| == windowSize
  {
    var ws := Windows(signal, windowSize);
    forall i | 0 <= i < |ws|
      ensures ws[i] == signal[i..i + windowSize]
    {
      SliceInside(signal, i, i + windowSize);
    }
  }
}
