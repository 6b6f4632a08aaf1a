/**
 * The browser page as the client scripts see it: widget values, class lists
 * of the workflow steps, the tables shown, and for each Plotly element the
 * figure last drawn into it.  Element construction and styling are not
 * modelled; an operation that makes JavaScript throw reports `ok == false`.
 * The host elements written into (the tables, `#selectors`, `#train_info`
 * and the plot elements) are taken to exist.
 */
module Dom {
  import opened Wrappers
  import opened Data
  import opened Parsers
  import opened Snapshot

  /** A JavaScript Date: from a millisecond count, from components, or parsed from a value. */
  datatype DateValue = AtMillis(ms: JsNum) | OfComponents(c: Components) | OfText(raw: Cell)

  /** One x coordinate: a row position, a date, or a cell value as it is. */
  datatype AxisValue = Pos(i: int) | Date(d: DateValue) | Raw(c: Cell)

  /** One y coordinate: a cell value, or a number computed by the server. */
  datatype PlotY = CellY(c: Cell) | RealY(r: real)

  datatype Mode = Lines | LinesMarkers

  datatype Trace = Trace(x: seq<AxisValue>, y: seq<PlotY>, name: string, mode: Mode)

  /** A vertical dotted line at x from y0 to y1. */
  datatype Marker = Marker(x: int, y0: JsNum, y1: JsNum)

  datatype Figure = Figure(traces: seq<Trace>, shapes: seq<Marker>)

  /** A table host: emptied, or holding a table of these columns and rows. */
  datatype Table = Cleared | Shown(columns: seq<string>, rows: seq<Record>)

  /** A `<select>`: its options and its current value. */
  datatype Select = Select(options: seq<string>, value: string)

  datatype Checkbox = Checkbox(value: string, checked: bool)

  /** Everything the scripts can observe or change on the page. */
  datatype PageState = PageState(
    embedded: Embedded,
    figures: map<string, Figure>,
    tables: map<string, Table>,
    target: Option<Select>,
    boxes: seq<Checkbox>,
    timeColumn: Option<string>,
    timeKind: Option<string>,
    timeFormat: Option<string>,
    ppMethod: Option<string>,
    steps: seq<set<string>>,
    trainInfo: Option<JsNum>,
    alerts: seq<string>)

  /** The selector a `<select>` holding these options starts with: the first one, or "". */
  function FirstOption(options: seq<string>): string {
    if options == [] then "" else options[0]
  }

  /** The state a script run reached, and whether it finished without throwing. */
  datatype Run = Run(state: PageState, ok: bool)

  /** `Plotly.newPlot(id, fig)`: the element now shows fig. */
  function Plotted(st: PageState, id: string, fig: Figure): PageState {
    st.(figures := st.figures[id := fig])
  }

  /** The rows of a table, read with undefined rows as empty records. */
  function Present(rows: seq<Option<Record>>): (r: seq<Record>)
    ensures |r| == |rows|
  {
    seq(|rows|, i requires 0 <= i < |rows| => rows[i].GetOr(map[]))
  }

  /** renderTable succeeds unless a column is read from an undefined row. */
  predicate TableOk(columns: seq<string>, rows: seq<Option<Record>>) {
    columns == [] || forall i :: 0 <= i < |rows| ==> rows[i].Some?
  }

  /** renderTable(id, columns, rows): the host is emptied first, so a throw leaves it empty. */
  function Tabled(st: PageState, id: string, columns: seq<string>, rows: seq<Option<Record>>): Run {
    if TableOk(columns, rows) then Run(st.(tables := st.tables[id := Shown(columns, Present(rows))]), true)
    else Run(st.(tables := st.tables[id := Cleared]), false)
  }

  /** renderSelectors(columns): a fresh `#target` with one option per column, one unchecked box per column. */
  function WithSelectors(st: PageState, columns: seq<string>): PageState {
    st.(target := Some(Select(columns, FirstOption(columns))),
        boxes := seq(|columns|, i requires 0 <= i < |columns| => Checkbox(columns[i], false)))
  }

  /**
   * `sel.innerHTML = ''` on `#selectors`: the `#target` select and the
   * feature boxes, which renderSelectors builds inside it, are gone.
   */
  function SelectorsCleared(st: PageState): (r: PageState)
    ensures r.target.None? && r.boxes == []
  {
    st.(target := None, boxes := [])
  }

  /** `tgtSel.value = v`: a value that is not an option leaves the select with no selection. */
  function WithTarget(st: PageState, v: string): PageState
    requires st.target.Some?
  {
    var options := st.target.value.options;
    st.(target := Some(Select(options, if v in options then v else "")))
  }

  /** `features.find(el => el.value == h).checked = true`: throws when no box has that value. */
  function WithChecked(st: PageState, h: string): (r: Run)
    ensures r.state == st.(boxes := r.state.boxes)
    ensures r.ok <==> exists k :: 0 <= k < |st.boxes| && st.boxes[k].value == h
    ensures |r.state.boxes| == |st.boxes|
    ensures forall k :: 0 <= k < |st.boxes| ==> r.state.boxes[k].value == st.boxes[k].value
  {
    var i := FirstBox(st.boxes, h);
    if i < |st.boxes| then Run(st.(boxes := st.boxes[i := Checkbox(h, true)]), true) else Run(st, false)
  }

  function Alerted(st: PageState, message: string): PageState {
    st.(alerts := st.alerts + [message])
  }

  function LossShown(st: PageState, loss: JsNum): PageState {
    st.(trainInfo := Some(loss))
  }

  class Page {
    /** `#snapshot-data`, written by the server when it renders the page. */
    var embedded: Embedded
    /** The figure last given to `Plotly.newPlot` for each element id. */
    var figures: map<string, Figure>
    /** The table last rendered into each host id. */
    var tables: map<string, Table>
    /** `#target`; absent until the selectors are rendered. */
    var target: Option<Select>
    /** The `input[name="feat"]` checkboxes in document order. */
    var boxes: seq<Checkbox>
    /** Values of `#time_column`, `#time_kind`, `#time_format`, `#pp_method`; None when absent. */
    var timeColumn: Option<string>
    var timeKind: Option<string>
    var timeFormat: Option<string>
    var ppMethod: Option<string>
    /** The class list of each `.steps .step` element. */
    var steps: seq<set<string>>
    /** The number `#train_info` shows after `Loss: `, to six decimals. */
    var trainInfo: Option<JsNum>
    /** Messages shown with `alert`, oldest first. */
    var alerts: seq<string>

    function State(): PageState
      reads this
    {
      PageState(embedded, figures, tables, target, boxes, timeColumn, timeKind, timeFormat,
                ppMethod, steps, trainInfo, alerts)
    }

    constructor(s: PageState)
      ensures State() == s
    {
      embedded, figures, tables, target, boxes := s.embedded, s.figures, s.tables, s.target, s.boxes;
      timeColumn, timeKind, timeFormat, ppMethod := s.timeColumn, s.timeKind, s.timeFormat, s.ppMethod;
      steps, trainInfo, alerts := s.steps, s.trainInfo, s.alerts;
    }

    /** `document.getElementById('target').value`; None when reading it throws. */
    function TargetValue(): (v: Option<string>)
      reads this
      ensures v.Some? <==> target.Some?
    {
      if target.Some? then Some(target.value.value) else None
    }

    /** `Plotly.newPlot(id, …)`: the element now shows fig, nothing else changes. */
    method NewPlot(id: string, fig: Figure)
      modifies this
      ensures State() == Plotted(old(State()), id, fig)
    {
      figures := figures[id := fig];
    }

    /**
     * renderTable(id, columns, rows): the host is emptied, then filled row by
     * row; a row that is `undefined` throws as soon as a column is read from it.
     */
    method RenderTable(id: string, columns: seq<string>, rows: seq<Option<Record>>) returns (ok: bool)
      modifies this
      ensures Run(State(), ok) == Tabled(old(State()), id, columns, rows)
    {
      var shown: seq<Record> := [];
      var i := 0;
      while i < |rows|
        invariant 0 <= i <= |rows|
        invariant |shown| == i
        invariant forall k :: 0 <= k < i ==> shown[k] == rows[k].GetOr(map[])
        invariant columns != [] ==> forall k :: 0 <= k < i ==> rows[k].Some?
      {
        if rows[i].None? && columns != [] {
          tables := tables[id := Cleared];
          return false;
        }
        shown := shown + [rows[i].GetOr(map[])];
        i := i + 1;
      }
      assert shown == Present(rows);
      tables := tables[id := Shown(columns, shown)];
      ok := true;
    }

    /**
     * renderSelectors(columns) with `labelWrap` in scope, as in the page
     * script: a fresh `#target` with one option per column,
     * and one unchecked checkbox per column.
     */
    method RenderSelectors(columns: seq<string>)
      modifies this
      ensures State() == WithSelectors(old(State()), columns)
    {
      target := Some(Select(columns, FirstOption(columns)));
      boxes := seq(|columns|, i requires 0 <= i < |columns| => Checkbox(columns[i], false));
    }

    /**
     * renderSelectors(columns) of `components/Selector.js` as written: the
     * host is emptied, then `labelWrap`, which that module neither defines
     * nor imports, throws a ReferenceError before anything is appended.
     */
    method RenderSelectorsUnbound(columns: seq<string>) returns (ok: bool)
      modifies this
      ensures Run(State(), ok) == Run(SelectorsCleared(old(State())), false)
    {
      target := None;
      boxes := [];
      ok := false;
    }

    /** `tgtSel.value = v`: a value that is not an option leaves the select with no selection. */
    method SetTarget(v: string)
      requires target.Some?
      modifies this
      ensures State() == WithTarget(old(State()), v)
    {
      var options := target.value.options;
      target := Some(Select(options, if v in options then v else ""));
    }

    /** `features.find(el => el.value == h).checked = true`; throws when no box has that value. */
    method CheckFeature(h: string) returns (ok: bool)
      modifies this
      ensures ok <==> exists i :: 0 <= i < |old(boxes)| && old(boxes)[i].value == h
      ensures Run(State(), ok) == WithChecked(old(State()), h)
    {
      var i := 0;
      while i < |boxes| && boxes[i].value != h
        invariant 0 <= i <= |boxes|
        invariant forall k :: 0 <= k < i ==> boxes[k].value != h
        invariant FirstBox(boxes, h) >= i
      {
        i := i + 1;
      }
      if i == |boxes| {
        return false;
      }
      boxes := boxes[i := Checkbox(h, true)];
      ok := true;
    }

    /** `alert(message)` */
    method Alert(message: string)
      modifies this
      ensures State() == Alerted(old(State()), message)
    {
      alerts := alerts + [message];
    }

    /** `#train_info` now reads `Loss: ` and this number. */
    method ShowLoss(loss: JsNum)
      modifies this
      ensures State() == LossShown(old(State()), loss)
    {
      trainInfo := Some(loss);
    }
  }

  /** Position of the first checkbox whose value is h, |boxes| when there is none. */
  function FirstBox(boxes: seq<Checkbox>, h: string): (i: nat)
    ensures i <= |boxes|
    ensures i < |boxes| ==> boxes[i].value == h
    ensures forall k :: 0 <= k < i ==> boxes[k].value != h
  {
    if boxes == [] then 0
    else if boxes[0].value == h then 0
    else 1 + FirstBox(boxes[1..], h)
  }

  /** The values of the checked boxes, in document order (`input[name="feat"]:checked`). */
  function CheckedValues(boxes: seq<Checkbox>): (vs: seq<string>)
    ensures forall v :: v in vs <==> exists i :: 0 <= i < |boxes| && boxes[i].checked && boxes[i].value == v
  {
    if boxes == [] then []
    else (if boxes[0].checked then [boxes[0].value] else []) + CheckedValues(boxes[1..])
  }
}
