/**
 * The earlier single-file page script: its own drawPlot over row positions
 * only, the selection, preprocessing and training buttons, and its own
 * restore.  Its drawForecast and drawPP are the same as Plot's and are
 * modelled there.
 */
module ProjectView {
  import opened Wrappers
  import opened Data
  import opened Snapshot
  import opened Dom
  import opened Plot
  import opened RestoreState

  /** drawPlot(target, features, data): the selected series over row positions, on `plot`. */
  function DraftDrawn(st: PageState, target: string, features: seq<string>, data: Sample): PageState {
    Plotted(st, "plot", Figure(Traces(SeriesNames(target, features, data.columns), data.records, IndexAxis(|data.records|)), []))
  }

  method DrawPlot(page: Page, target: string, features: seq<string>, data: Sample)
    modifies page
    ensures page.State() == DraftDrawn(old(page.State()), target, features, data)
  {
    var x := IndexAxis(|data.records|);
    var traces := BuildTraces(target, features, data, x);
    page.NewPlot("plot", Figure(traces, []));
  }

  /** The draft's drawPlot is Plot's drawPlot without time meta: it never throws and always uses row positions. */
  lemma DraftIsTimeless(st: PageState, target: string, features: seq<string>, data: Sample)
    ensures Drawn(st, "plot", target, features, data, None) == Run(DraftDrawn(st, target, features, data), true)
  {
    AxisIndex(data, None);
  }

  /** A reply of the server: an error message ("" when it has none), or a result. */
  datatype Reply<T> = Failed(error: string) | Succeeded(result: T)

  /** What a button handler did: the request it sent (if any) and how the page ended up. */
  datatype Sent<R> = Sent(request: Option<R>, run: Run)

  const NoTargetAlert: string := "Сначала выберите target"
  const DefaultError: string := "Ошибка"

  /** `alert(data.error || 'Ошибка')` */
  function ErrorText(error: string): string {
    if error == "" then DefaultError else error
  }

  /** The body of `POST /project/<id>/select`. */
  datatype SelectRequest = SelectRequest(target: string, features: seq<string>)

  /** The reply to it: `data` is missing from an error reply. */
  datatype SelectReply = SelectReply(data: Option<Sample>)

  /**
   * applySelection: reads `#target` (throwing when it is missing) and the
   * checked features; given the reply, reads `data.data.records` before
   * testing `data.data`, renders the five-entry table and draws the sample.
   */
  function Selection(st: PageState, reply: SelectReply): (r: Sent<SelectRequest>)
    ensures r.request.Some? <==> st.target.Some?
    ensures r.request.Some? ==> r.request.value == SelectRequest(st.target.value.value, CheckedValues(st.boxes))
    ensures reply.data.None? ==> r.run == Run(st, false)
  {
    if st.target.None? then Sent(None, Run(st, false))
    else
      var request := SelectRequest(st.target.value.value, CheckedValues(st.boxes));
      match reply.data
      case None => Sent(Some(request), Run(st, false))
      case Some(data) =>
        var tabled := Tabled(st, "seleted-table", data.columns, TableData(data.records));
        if !tabled.ok then Sent(Some(request), tabled)
        else Sent(Some(request), Run(DraftDrawn(tabled.state, request.target, request.features, data), true))
  }

  method ApplySelection(page: Page, reply: SelectReply) returns (request: Option<SelectRequest>, ok: bool)
    modifies page
    ensures Sent(request, Run(page.State(), ok)) == Selection(old(page.State()), reply)
  {
    var target := page.TargetValue();
    if target.None? {
      return None, false;
    }
    request := Some(SelectRequest(target.value, CheckedValues(page.boxes)));
    if reply.data.None? {
      return request, false;
    }
    var data := reply.data.value;
    var rows := FillTableData(data.records);
    ok := page.RenderTable("seleted-table", data.columns, rows);
    if !ok {
      return;
    }
    DrawPlot(page, target.value, request.value.features, data);
  }

  /** A reply of fewer than five records with at least one column makes the table throw before anything is drawn. */
  lemma {:induction false} SelectionShortSampleAborts(st: PageState, data: Sample)
    requires st.target.Some? && |data.records| < 5 && data.columns != []
    ensures var r := Selection(st, SelectReply(Some(data))).run;
            !r.ok && r.state == st.(tables := st.tables["seleted-table" := Cleared])
  {
    assert TableData(data.records)[4].None?;
  }

  /**
   * The values of the train form's `#mdl`, `#win`, `#hor` and `#ep`
   * elements; None for an element that is not on the page, whose `.value`
   * throws.
   */
  datatype TrainForm = TrainForm(model: Option<string>, window: Option<string>, horizon: Option<string>, epochs: Option<string>)

  predicate FormComplete(form: TrainForm) {
    form.model.Some? && form.window.Some? && form.horizon.Some? && form.epochs.Some?
  }

  /**
   * The body of `POST /project/<id>/train`: window, horizon and epochs are
   * `parseInt(…, 10)` of the fields, None for NaN, which JSON.stringify sends
   * as null.
   */
  datatype TrainRequest = TrainRequest(target: string, model: string, window: Option<int>, horizon: Option<int>, epochs: Option<int>)

  datatype TrainResult = TrainResult(loss: real, prediction: seq<real>)

  /**
   * runTrain: without a selected target, alert and send nothing; otherwise
   * read the four fields, throwing at a missing one, then send the request
   * and alert the error or show the loss and the forecast.
   */
  function TrainRun(st: PageState, form: TrainForm, reply: Reply<TrainResult>): (r: Sent<TrainRequest>)
    ensures st.target.None? || st.target.value.value == "" ==> r == Sent(None, Run(Alerted(st, NoTargetAlert), true))
    ensures st.target.Some? && st.target.value.value != "" && !FormComplete(form) ==> r == Sent(None, Run(st, false))
    ensures r.request.Some? <==> st.target.Some? && st.target.value.value != "" && FormComplete(form)
    ensures r.run.ok <==> st.target.None? || st.target.value.value == "" || FormComplete(form)
    ensures r.request.Some? ==> r.request.value.target == st.target.value.value && r.request.value.model == form.model.value
    ensures r.request.Some? ==>
              r.request.value.window == ParseInt(form.window.value) &&
              r.request.value.horizon == ParseInt(form.horizon.value) &&
              r.request.value.epochs == ParseInt(form.epochs.value)
    ensures r.request.Some? && reply.Failed? ==> r.run.state == Alerted(st, ErrorText(reply.error))
    ensures r.request.Some? && reply.Succeeded? ==>
              r.run.state == ForecastDrawn(LossShown(st, Fin(reply.result.loss)), st.target.value.value, reply.result.prediction)
  {
    var target := st.target;
    if target.None? || target.value.value == "" then Sent(None, Run(Alerted(st, NoTargetAlert), true))
    else if !FormComplete(form) then Sent(None, Run(st, false))
    else
      var request := TrainRequest(target.value.value, form.model.value, ParseInt(form.window.value),
                                  ParseInt(form.horizon.value), ParseInt(form.epochs.value));
      match reply
      case Failed(e) => Sent(Some(request), Run(Alerted(st, ErrorText(e)), true))
      case Succeeded(res) =>
        Sent(Some(request), Run(ForecastDrawn(LossShown(st, Fin(res.loss)), request.target, res.prediction), true))
  }

  /** A field of plain digits, as the number inputs hold, is sent as its value. */
  lemma TrainFieldsAsNumbers(st: PageState, model: string, window: string, horizon: string, epochs: string, reply: Reply<TrainResult>)
    requires st.target.Some? && st.target.value.value != ""
    requires window != [] && AllDigits(window) && horizon != [] && AllDigits(horizon) && epochs != [] && AllDigits(epochs)
    ensures TrainRun(st, TrainForm(Some(model), Some(window), Some(horizon), Some(epochs)), reply).request ==
            Some(TrainRequest(st.target.value.value, model, Some(DigitsValue(window)), Some(DigitsValue(horizon)), Some(DigitsValue(epochs))))
  {
    ParseIntPlain(window);
    ParseIntPlain(horizon);
    ParseIntPlain(epochs);
  }

  method RunTrain(page: Page, form: TrainForm, reply: Reply<TrainResult>) returns (request: Option<TrainRequest>, ok: bool)
    modifies page
    ensures Sent(request, Run(page.State(), ok)) == TrainRun(old(page.State()), form, reply)
  {
    var target := page.TargetValue();
    if target.None? || target.value == "" {
      page.Alert(NoTargetAlert);
      return None, true;
    }
    if form.model.None? || form.window.None? || form.horizon.None? || form.epochs.None? {
      return None, false;
    }
    var windowSize := ParseInt(form.window.value);
    var horizon := ParseInt(form.horizon.value);
    var epochs := ParseInt(form.epochs.value);
    request := Some(TrainRequest(target.value, form.model.value, windowSize, horizon, epochs));
    ok := true;
    match reply
    case Failed(e) =>
      page.Alert(ErrorText(e));
    case Succeeded(res) =>
      page.ShowLoss(Fin(res.loss));
      DrawForecast(page, target.value, res.prediction);
  }

  datatype PPRequest = PPRequest(target: string, ppMethod: string)

  /**
   * runPP: `#pp_method` is read before the target is checked, so a missing
   * method field throws even when no target is selected; without a target,
   * alert and send nothing; otherwise send, then alert the error or draw.
   */
  function PPRun(st: PageState, reply: Reply<Preprocessed>): (r: Sent<PPRequest>)
    ensures st.ppMethod.None? ==> r == Sent(None, Run(st, false))
    ensures st.ppMethod.Some? && (st.target.None? || st.target.value.value == "") ==>
              r == Sent(None, Run(Alerted(st, NoTargetAlert), true))
    ensures r.request.Some? <==> st.ppMethod.Some? && st.target.Some? && st.target.value.value != ""
    ensures r.request.Some? ==> r.request.value == PPRequest(st.target.value.value, st.ppMethod.value)
    ensures r.request.Some? && reply.Failed? ==> r.run == Run(Alerted(st, ErrorText(reply.error)), true)
  {
    var target := st.target;
    if st.ppMethod.None? then Sent(None, Run(st, false))
    else if target.None? || target.value.value == "" then Sent(None, Run(Alerted(st, NoTargetAlert), true))
    else
      var request := PPRequest(target.value.value, st.ppMethod.value);
      match reply
      case Failed(e) => Sent(Some(request), Run(Alerted(st, ErrorText(e)), true))
      case Succeeded(data) => Sent(Some(request), PPDrawn(st, data))
  }

  method RunPP(page: Page, reply: Reply<Preprocessed>) returns (request: Option<PPRequest>, ok: bool)
    modifies page
    ensures Sent(request, Run(page.State(), ok)) == PPRun(old(page.State()), reply)
  {
    var target := page.TargetValue();
    if page.ppMethod.None? {
      return None, false;
    }
    var ppMethod := page.ppMethod.value;
    if target.None? || target.value == "" {
      page.Alert(NoTargetAlert);
      return None, true;
    }
    request := Some(PPRequest(target.value, ppMethod));
    match reply
    case Failed(e) =>
      page.Alert(ErrorText(e));
      ok := true;
    case Succeeded(data) =>
      ok := DrawPP(page, data);
  }

  /**
   * The sample stage of the draft restore: every sample column's box is
   * checked, then the five-entry table, the plot and the target dropdown.
   */
  function DraftSample(st: PageState, s: Snap): (r: Run)
    requires s.sample.Some?
    ensures r.state.embedded == st.embedded && r.state.steps == st.steps
  {
    var sample := s.sample.value;
    var checked := CheckAll(st, sample.columns);
    if !checked.ok then checked
    else
      var tabled := Tabled(checked.state, "seleted-table", sample.columns, TableData(sample.records));
      if !tabled.ok then tabled
      else
        var t := if s.selection.Some? then s.selection.value.target else "";
        var f := if s.selection.Some? then s.selection.value.features else [];
        var drawn := DraftDrawn(tabled.state, t, f, sample);
        Run(if t != "" && drawn.target.Some? then WithTarget(drawn, t) else drawn, true)
  }

  method DraftRestoreSample(page: Page, s: Snap) returns (ok: bool)
    requires s.sample.Some?
    modifies page
    ensures Run(page.State(), ok) == DraftSample(old(page.State()), s)
  {
    var sample := s.sample.value;
    var rows := FillTableData(sample.records);
    ok := CheckFeatures(page, sample.columns);
    if !ok {
      return;
    }
    ok := page.RenderTable("seleted-table", sample.columns, rows);
    if !ok {
      return;
    }
    var t := if s.selection.Some? then s.selection.value.target else "";
    var f := if s.selection.Some? then s.selection.value.features else [];
    DrawPlot(page, t, f, sample);
    if t != "" && page.target.Some? {
      page.SetTarget(t);
    }
  }

  /** The train stage of the draft restore: the forecast uses the dropdown's current value. */
  function DraftTrain(st: PageState, s: Snap): (r: PageState)
    requires s.train.Some?
    ensures r.embedded == st.embedded && r.steps == st.steps
  {
    var shown := LossShown(st, LossNumber(s.train.value.loss));
    var target := shown.target;
    if target.Some? && target.value.value != "" then ForecastDrawn(shown, target.value.value, s.train.value.prediction)
    else shown
  }

  /** restore() of the draft: preview, sample, preprocess and train stages; no step bar. */
  function DraftRestored(st: PageState): (r: Run)
    ensures r.state.embedded == st.embedded && r.state.steps == st.steps
  {
    match GetSnapshot(st.embedded)
    case None => Run(st, true)
    case Some(s) =>
      var st1 := AfterPreview(st, s);
      var r2 := if s.sample.Some? then DraftSample(st1, s) else Run(st1, true);
      if !r2.ok then r2 else
      var r3 := if s.preprocess.Some? then PPDrawn(r2.state, s.preprocess.value) else r2;
      if !r3.ok then r3 else
      Run(if s.train.Some? then DraftTrain(r3.state, s) else r3.state, true)
  }

  method DraftRestore(page: Page) returns (ok: bool)
    modifies page
    ensures Run(page.State(), ok) == DraftRestored(old(page.State()))
  {
    var snap := GetSnapshot(page.embedded);
    if snap.None? {
      return true;
    }
    var s := snap.value;
    RestorePreview(page, s);
    if s.sample.Some? {
      ok := DraftRestoreSample(page, s);
      if !ok {
        return;
      }
    }
    if s.preprocess.Some? {
      ok := DrawPP(page, s.preprocess.value);
      if !ok {
        return;
      }
    }
    if s.train.Some? {
      var target := page.TargetValue();
      page.ShowLoss(LossNumber(s.train.value.loss));
      if target.Some? && target.value != "" {
        DrawForecast(page, target.value, s.train.value.prediction);
      }
    }
    ok := true;
  }

  /** Without a snapshot the draft restore changes nothing. */
  lemma DraftNothingToRestore(st: PageState)
    requires !st.embedded.Document?
    ensures DraftRestored(st) == Run(st, true)
  {
  }

  /** After the draft's sample stage, the box of every sample column is checked. */
  lemma DraftChecksEveryColumn(st: PageState, s: Snap)
    requires s.sample.Some? && DraftSample(st, s).ok
    ensures forall i :: 0 <= i < |s.sample.value.columns| ==>
              FirstBox(st.boxes, s.sample.value.columns[i]) < |st.boxes| &&
              DraftSample(st, s).state.boxes[FirstBox(st.boxes, s.sample.value.columns[i])].checked
  {
    var checked := CheckAll(st, s.sample.value.columns);
    CheckAllMarks(st, s.sample.value.columns);
    forall i | 0 <= i < |s.sample.value.columns|
      ensures FirstBox(st.boxes, s.sample.value.columns[i]) < |st.boxes|
    {
      assert HasBox(st.boxes, s.sample.value.columns[i]);
    }
  }

  /** The draft restore also stops at the table of a sample of fewer than five records with columns. */
  lemma {:induction false} DraftShortSampleAborts(st: PageState)
    requires st.embedded.Document? && st.embedded.snap.sample.Some?
    requires |st.embedded.snap.sample.value.records| < 5 && st.embedded.snap.sample.value.columns != []
    ensures !DraftRestored(st).ok
  {
    assert TableData(st.embedded.snap.sample.value.records)[4].None?;
  }
}
