/**
 * What the client draws: the x axis of a sample (row positions, or times
 * read from a column), one series per selected column, the forecast
 * continuing the preprocessed series, and the change-point markers.
 */
module Plot {
  import opened Wrappers
  import opened Data
  import opened Parsers
  import opened Snapshot
  import opened Dom

  /** Row positions 0, 1, …, n - 1. */
  function IndexAxis(n: nat): (x: seq<AxisValue>)
    ensures |x| == n
    ensures forall i :: 0 <= i < n ==> x[i] == Pos(i)
  {
    seq(n, i => Pos(i))
  }

  /** The time meta names a column of the sample, so the axis is read from it. */
  predicate UsesColumn(tm: Option<TimeMeta>, cols: seq<string>) {
    tm.Some? && tm.value.column != "" && tm.value.column in cols
  }

  /** The six kinds of time column the axis understands. */
  predicate KnownKind(kind: string) {
    kind in {"timestamp_sec", "timestamp_ms", "datetime_format", "iso_date", "rfc_2822", "human_readable"}
  }

  /** `parseByFormat(c, fmt) || c`, for a cell whose parse does not throw. */
  function FormatPoint(c: Cell, fmt: string): AxisValue {
    match ParseByFormat(c, fmt)
    case Parsed(d) => Date(OfComponents(d))
    case _ => Raw(c)
  }

  /** `parseCompactYYYYMMDDTHHMM(c) || c` */
  function CompactPoint(c: Cell): AxisValue {
    match ParseCompact(c)
    case Some(d) => Date(OfComponents(d))
    case None => Raw(c)
  }

  /** Parsing some row of the column with fmt throws. */
  predicate SomeRowThrows(rows: seq<Record>, col: string, fmt: string) {
    exists i :: 0 <= i < |rows| && ParseByFormat(Get(rows[i], col), fmt).Throws?
  }

  /** The x coordinate of one row of a time column of this kind. */
  function Point(kind: string, fmt: string, c: Cell): AxisValue {
    if kind == "timestamp_sec" then Date(AtMillis(Times(ToNumber(c), 1000)))
    else if kind == "timestamp_ms" then Date(AtMillis(ToNumber(c)))
    else if kind == "datetime_format" then (if fmt != "" then FormatPoint(c, fmt) else CompactPoint(c))
    else if kind == "iso_date" || kind == "rfc_2822" then Date(OfText(c))
    else Raw(c)
  }

  /**
   * The x axis drawPlot uses for a sample; None when building it throws
   * (a format whose token repeats makes an invalid regular expression).
   */
  function Axis(data: Sample, tm: Option<TimeMeta>): (x: Option<seq<AxisValue>>)
    ensures x.Some? ==> |x.value| == |data.records|
    ensures x.None? <==> UsesColumn(tm, data.columns) && tm.value.kind == "datetime_format" &&
                         tm.value.format != "" && SomeRowThrows(data.records, tm.value.column, tm.value.format)
  {
    var rows := data.records;
    if !UsesColumn(tm, data.columns) || !KnownKind(tm.value.kind) then Some(IndexAxis(|rows|))
    else
      var TimeMeta(col, kind, fmt) := tm.value;
      if kind == "datetime_format" && fmt != "" && SomeRowThrows(rows, col, fmt) then None
      else Some(seq(|rows|, i requires 0 <= i < |rows| => Point(kind, fmt, Get(rows[i], col))))
  }

  /** Without a usable time column, or with a kind other than the six, the axis is the row positions. */
  lemma AxisIndex(data: Sample, tm: Option<TimeMeta>)
    requires !UsesColumn(tm, data.columns) || !KnownKind(tm.value.kind)
    ensures Axis(data, tm) == Some(IndexAxis(|data.records|))
  {
  }

  /**
   * A time column gives x[i] from row i alone: seconds or milliseconds since
   * the epoch, a parsed date or the raw value, or the value itself.
   */
  lemma AxisFromColumn(data: Sample, tm: Option<TimeMeta>, i: int)
    requires UsesColumn(tm, data.columns) && KnownKind(tm.value.kind)
    requires Axis(data, tm).Some? && 0 <= i < |data.records|
    ensures var c := Get(data.records[i], tm.value.column);
            var x := Axis(data, tm).value[i];
            match tm.value.kind
            case "timestamp_sec" => x == Date(AtMillis(Times(ToNumber(c), 1000)))
            case "timestamp_ms" => x == Date(AtMillis(ToNumber(c)))
            case "datetime_format" =>
              if tm.value.format != "" then
                x == (if ParseByFormat(c, tm.value.format).Parsed? then Date(OfComponents(ParseByFormat(c, tm.value.format).date)) else Raw(c))
              else
                x == (if ParseCompact(c).Some? then Date(OfComponents(ParseCompact(c).value)) else Raw(c))
            case "human_readable" => x == Raw(c)
            case _ => x == Date(OfText(c))
  {
  }

  /** An integer cell of seconds gives the instant at 1000 times that many milliseconds. */
  lemma SecondsAreThousandMillis(v: int)
    ensures Point("timestamp_sec", "", Int(v)) == Date(AtMillis(Fin((v * 1000) as real)))
  {
  }

  /** Each row's x depends on that row only: rows that agree get the same x. */
  lemma AxisRowLocal(d1: Sample, d2: Sample, tm: Option<TimeMeta>, i: int, j: int)
    requires d1.columns == d2.columns
    requires 0 <= i < |d1.records| && 0 <= j < |d2.records| && d1.records[i] == d2.records[j]
    requires Axis(d1, tm).Some? && Axis(d2, tm).Some?
    requires !UsesColumn(tm, d1.columns) || !KnownKind(tm.value.kind) ==> i == j
    ensures Axis(d1, tm).value[i] == Axis(d2, tm).value[j]
  {
  }

  /** The features that are columns of the sample, in their given order. */
  function InColumns(fs: seq<string>, cols: seq<string>): (r: seq<string>)
    ensures |r| <= |fs|
    ensures forall f :: f in r <==> f in fs && f in cols
  {
    if fs == [] then []
    else
      var init := fs[..|fs| - 1];
      assert forall f :: f in fs <==> f in init || f == fs[|fs| - 1];
      InColumns(init, cols) + (if fs[|fs| - 1] in cols then [fs[|fs| - 1]] else [])
  }

  /** Filtering distributes over concatenation, so the given order is kept. */
  lemma {:induction false} InColumnsAppend(a: seq<string>, b: seq<string>, cols: seq<string>)
    ensures InColumns(a + b, cols) == InColumns(a, cols) + InColumns(b, cols)
    decreases |b|
  {
    if b == [] {
      assert a + b == a;
    } else {
      var init := b[..|b| - 1];
      assert (a + b)[..|a + b| - 1] == a + init;
      assert (a + b)[|a + b| - 1] == b[|b| - 1];
      InColumnsAppend(a, init, cols);
    }
  }

  /** The series drawPlot emits: the target first when it is set and a column, then the features that are columns. */
  function SeriesNames(target: string, features: seq<string>, cols: seq<string>): (names: seq<string>)
    ensures forall n :: n in names ==> n in cols
  {
    (if target != "" && target in cols then [target] else []) + InColumns(features, cols)
  }

  /** The target leads exactly when it is non-empty and a column; a feature appears exactly when it is a column. */
  lemma SeriesOrder(target: string, features: seq<string>, cols: seq<string>)
    ensures var names := SeriesNames(target, features, cols);
            (target != "" && target in cols <==> |names| > 0 && names[0] == target && names[1..] == InColumns(features, cols))
    ensures forall f :: f in features && f != target ==> (f in SeriesNames(target, features, cols) <==> f in cols)
  {
  }

  /** The y values of a column, in record order (an absent key reads as undefined). */
  function ColumnY(rows: seq<Record>, name: string): (y: seq<PlotY>)
    ensures |y| == |rows|
    ensures forall i :: 0 <= i < |rows| ==> y[i] == CellY(Get(rows[i], name))
  {
    seq(|rows|, i requires 0 <= i < |rows| => CellY(Get(rows[i], name)))
  }

  /** One line per name, all over the same x. */
  function Traces(names: seq<string>, rows: seq<Record>, x: seq<AxisValue>): (ts: seq<Trace>)
    ensures |ts| == |names|
  {
    seq(|names|, i requires 0 <= i < |names| => Trace(x, ColumnY(rows, names[i]), names[i], Lines))
  }

  /** Every drawn series shares x, is named after its column and has y read from the records in order. */
  lemma TracesShape(names: seq<string>, rows: seq<Record>, x: seq<AxisValue>, i: int)
    requires 0 <= i < |names|
    ensures var t := Traces(names, rows, x)[i];
            t.x == x && t.name == names[i] && t.mode == Lines && |t.y| == |rows| &&
            forall j :: 0 <= j < |rows| ==> t.y[j] == CellY(Get(rows[j], names[i]))
  {
  }

  lemma TracesSnoc(names: seq<string>, n: string, rows: seq<Record>, x: seq<AxisValue>)
    ensures Traces(names + [n], rows, x) == Traces(names, rows, x) + [Trace(x, ColumnY(rows, n), n, Lines)]
  {
  }

  /** Filtering one more feature adds it at the end exactly when it is a column. */
  lemma InColumnsStep(features: seq<string>, i: int, cols: seq<string>)
    requires 0 <= i < |features|
    ensures InColumns(features[..i + 1], cols) ==
            InColumns(features[..i], cols) + (if features[i] in cols then [features[i]] else [])
  {
    assert features[..i + 1][..i] == features[..i];
  }

  /** One feature of the loop: a column extends both the names and the traces by that feature. */
  lemma FeatureStep(head: seq<string>, names: seq<string>, features: seq<string>, i: int, cols: seq<string>,
                    rows: seq<Record>, x: seq<AxisValue>)
    requires 0 <= i < |features| && names == head + InColumns(features[..i], cols)
    ensures features[i] in cols ==>
              names + [features[i]] == head + InColumns(features[..i + 1], cols) &&
              Traces(names + [features[i]], rows, x) ==
                Traces(names, rows, x) + [Trace(x, ColumnY(rows, features[i]), features[i], Lines)]
    ensures features[i] !in cols ==> names == head + InColumns(features[..i + 1], cols)
  {
    var f := features[i];
    var before := InColumns(features[..i], cols);
    InColumnsStep(features, i, cols);
    if f in cols {
      assert InColumns(features[..i + 1], cols) == before + [f];
      assert (head + before) + [f] == head + (before + [f]);
      TracesSnoc(names, f, rows, x);
    } else {
      assert InColumns(features[..i + 1], cols) == before + [];
      assert before + [] == before;
    }
  }

  /** The traces of drawPlot, accumulated with `push` as the source does. */
  method BuildTraces(target: string, features: seq<string>, data: Sample, x: seq<AxisValue>)
    returns (traces: seq<Trace>)
    ensures traces == Traces(SeriesNames(target, features, data.columns), data.records, x)
  {
    var cols, rows := data.columns, data.records;
    ghost var head: seq<string> := [];
    traces := [];
    if target != "" && target in cols {
      TracesSnoc([], target, rows, x);
      traces := traces + [Trace(x, ColumnY(rows, target), target, Lines)];
      head := [target];
    }
    ghost var names := head;
    var i := 0;
    while i < |features|
      invariant 0 <= i <= |features|
      invariant names == head + InColumns(features[..i], cols)
      invariant traces == Traces(names, rows, x)
    {
      var f := features[i];
      FeatureStep(head, names, features, i, cols, rows, x);
      if f in cols {
        traces := traces + [Trace(x, ColumnY(rows, f), f, Lines)];
        names := names + [f];
      }
      i := i + 1;
    }
    assert features[..i] == features;
  }

  /**
   * drawPlot(plotId, target, features, data, timeMeta): the element shows the
   * selected series over the resolved axis; when resolving the axis throws,
   * nothing is drawn.
   */
  function Drawn(st: PageState, plotId: string, target: string, features: seq<string>, data: Sample, tm: Option<TimeMeta>): Run {
    match Axis(data, tm)
    case None => Run(st, false)
    case Some(x) => Run(Plotted(st, plotId, Figure(Traces(SeriesNames(target, features, data.columns), data.records, x), [])), true)
  }

  method DrawPlot(page: Page, plotId: string, target: string, features: seq<string>, data: Sample, tm: Option<TimeMeta>)
    returns (ok: bool)
    modifies page
    ensures Run(page.State(), ok) == Drawn(old(page.State()), plotId, target, features, data, tm)
  {
    var x := Axis(data, tm);
    if x.None? {
      return false;
    }
    var traces := BuildTraces(target, features, data, x.value);
    page.NewPlot(plotId, Figure(traces, []));
    ok := true;
  }

  /** The first trace drawn on `pp_plot`, when that element has been drawn with one. */
  function Existing(figures: map<string, Figure>): Option<Trace> {
    if "pp_plot" in figures && |figures["pp_plot"].traces| > 0 then Some(figures["pp_plot"].traces[0]) else None
  }

  const ForecastName: string := "Прогноз"

  /** The forecast figure: the historical trace, then the prediction continuing its x. */
  function Forecast(existing: Option<Trace>, target: string, prediction: seq<real>): (f: Figure)
    ensures |f.traces| == 2 && f.shapes == []
    ensures f.traces[0].name == target && f.traces[1].name == ForecastName
    ensures existing.None? ==> f.traces[0].x == [] && f.traces[0].y == []
    ensures existing.Some? ==> f.traces[0].x == existing.value.x && f.traces[0].y == existing.value.y
    ensures |f.traces[1].x| == |f.traces[1].y| == |prediction|
    ensures forall i :: 0 <= i < |prediction| ==>
              f.traces[1].x[i] == Pos(|f.traces[0].x| + i) && f.traces[1].y[i] == RealY(prediction[i])
  {
    var baseX := if existing.Some? then existing.value.x else [];
    var baseY := if existing.Some? then existing.value.y else [];
    var start := |baseX|;
    var x2 := seq(|prediction|, i => Pos(start + i));
    var y2 := seq(|prediction|, i requires 0 <= i < |prediction| => RealY(prediction[i]));
    Figure([Trace(baseX, baseY, target, Lines), Trace(x2, y2, ForecastName, Lines)], [])
  }

  /** Over a row-position history, history and forecast together are the positions 0 … n + len - 1. */
  lemma {:induction false} ForecastContinues(existing: Trace, target: string, prediction: seq<real>)
    requires existing.x == IndexAxis(|existing.x|)
    ensures var f := Forecast(Some(existing), target, prediction);
            f.traces[0].x + f.traces[1].x == IndexAxis(|existing.x| + |prediction|)
  {
    var f := Forecast(Some(existing), target, prediction);
    var n := |existing.x|;
    var all := f.traces[0].x + f.traces[1].x;
    forall i | 0 <= i < n + |prediction|
      ensures all[i] == Pos(i)
    {
      if i < n {
        assert all[i] == existing.x[i];
      } else {
        assert all[i] == f.traces[1].x[i - n];
      }
    }
  }

  /** drawForecast(target, prediction): `forecast_plot` shows history then forecast. */
  function ForecastDrawn(st: PageState, target: string, prediction: seq<real>): PageState {
    Plotted(st, "forecast_plot", Forecast(Existing(st.figures), target, prediction))
  }

  method DrawForecast(page: Page, target: string, prediction: seq<real>)
    modifies page
    ensures page.State() == ForecastDrawn(old(page.State()), target, prediction)
  {
    var existing := Existing(page.figures);
    page.NewPlot("forecast_plot", Forecast(existing, target, prediction));
  }

  /** The target column as numbers, as Math.min and Math.max read it. */
  function Numbers(rows: seq<Record>, target: string): (ns: seq<JsNum>)
    ensures |ns| == |rows|
  {
    seq(|rows|, i requires 0 <= i < |rows| => ToNumber(Get(rows[i], target)))
  }

  /** One vertical marker per bound, spanning the target's range. */
  function Markers(bounds: Option<seq<int>>, rows: seq<Record>, target: string): (ms: seq<Marker>)
    ensures bounds.None? ==> ms == []
    ensures bounds.Some? ==> |ms| == |bounds.value|
    ensures bounds.Some? ==> forall i :: 0 <= i < |ms| ==>
              ms[i].x == bounds.value[i] && ms[i].y0 == MathMin(Numbers(rows, target)) && ms[i].y1 == MathMax(Numbers(rows, target))
  {
    var bs := bounds.GetOr([]);
    var lo, hi := MathMin(Numbers(rows, target)), MathMax(Numbers(rows, target));
    seq(|bs|, i requires 0 <= i < |bs| => Marker(bs[i], lo, hi))
  }

  /** Over a non-empty numeric target, every marker runs from its smallest to its largest value. */
  lemma MarkersSpan(bounds: Option<seq<int>>, rows: seq<Record>, target: string, i: int)
    requires bounds.Some? && 0 <= i < |bounds.value| && rows != []
    requires forall k :: 0 <= k < |rows| ==> Get(rows[k], target).Int?
    ensures var m := Markers(bounds, rows, target)[i];
            m.y0.Fin? && m.y1.Fin? && m.y0.v <= m.y1.v &&
            (exists k :: 0 <= k < |rows| && m.y0.v == Get(rows[k], target).i as real) &&
            (exists k :: 0 <= k < |rows| && m.y1.v == Get(rows[k], target).i as real) &&
            forall k :: 0 <= k < |rows| ==> m.y0.v <= Get(rows[k], target).i as real <= m.y1.v
  {
    var ns := Numbers(rows, target);
    assert forall k :: 0 <= k < |ns| ==> ns[k] == Fin(Get(rows[k], target).i as real);
    Extremes(ns);
    ExtremesOrdered(ns);
    var lo, hi := MathMin(ns), MathMax(ns);
    var a :| 0 <= a < |ns| && ns[a] == lo;
    var b :| 0 <= b < |ns| && ns[b] == hi;
    assert lo.v == Get(rows[a], target).i as real;
    assert hi.v == Get(rows[b], target).i as real;
  }

  /** The `pp_plot` figure: the segment's target over row positions, with the markers. */
  function SegmentFigure(data: Preprocessed, segment: Sample, target: string): (f: Figure)
    ensures |f.traces| == 1 && f.traces[0].x == IndexAxis(|segment.records|)
    ensures f.traces[0].y == ColumnY(segment.records, target) && f.traces[0].name == target
    ensures f.shapes == Markers(data.bounds, segment.records, target)
  {
    Figure([Trace(IndexAxis(|segment.records|), ColumnY(segment.records, target), target, Lines)],
           Markers(data.bounds, segment.records, target))
  }

  const CurveName: string := "Δ% длительность"

  /** The `pp_curve` figure; a missing x or y list is drawn as empty. */
  function CurveFigure(c: Curve): (f: Figure)
    ensures |f.traces| == 1 && f.shapes == [] && f.traces[0].name == CurveName && f.traces[0].mode == LinesMarkers
    ensures |f.traces[0].x| == |c.x.GetOr([])| && |f.traces[0].y| == |c.y.GetOr([])|
    ensures c.x.None? ==> f.traces[0].x == []
    ensures c.y.None? ==> f.traces[0].y == []
    ensures forall i :: 0 <= i < |f.traces[0].x| ==> f.traces[0].x[i] == Pos(c.x.value[i])
    ensures forall i :: 0 <= i < |f.traces[0].y| ==> f.traces[0].y[i] == CellY(Int(c.y.value[i]))
  {
    var cx := c.x.GetOr([]);
    var cy := c.y.GetOr([]);
    Figure([Trace(seq(|cx|, i requires 0 <= i < |cx| => Pos(cx[i])),
                  seq(|cy|, i requires 0 <= i < |cy| => CellY(Int(cy[i]))), CurveName, LinesMarkers)], [])
  }

  /**
   * drawPP(data): throws when there is no segment or no `#target`;
   * otherwise draws `pp_plot` and then `pp_curve`.
   */
  function PPDrawn(st: PageState, data: Preprocessed): Run {
    if data.segment.None? || st.target.None? then Run(st, false)
    else
      var pp := Plotted(st, "pp_plot", SegmentFigure(data, data.segment.value, st.target.value.value));
      Run(Plotted(pp, "pp_curve", CurveFigure(data.curve)), true)
  }

  method DrawPP(page: Page, data: Preprocessed) returns (ok: bool)
    modifies page
    ensures Run(page.State(), ok) == PPDrawn(old(page.State()), data)
  {
    if data.segment.None? {
      return false;
    }
    var target := page.TargetValue();
    if target.None? {
      return false;
    }
    page.NewPlot("pp_plot", SegmentFigure(data, data.segment.value, target.value));
    page.NewPlot("pp_curve", CurveFigure(data.curve));
    ok := true;
  }
}
