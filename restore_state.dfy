/**
 * Rebuilding the page from the saved snapshot, stage by stage, and the
 * merge that updates the step bar when a partial result arrives.
 *
 * `RestoredAsWritten` is the restore as the script is written; `Restored`
 * is the restore with its three errors corrected: renderSelectors has
 * `labelWrap` in scope, the preprocess stage passes the whole preprocess
 * record to drawPP, and the sample table receives only the records that
 * exist.
 */
module RestoreState {
  import opened Wrappers
  import opened Data
  import opened Snapshot
  import opened Dom
  import opened Plot
  import opened Steps

  /** The snapshot setCurrentSnap hands to updateSteps: the embedded one, merged with the partial. */
  function Current(st: PageState, partial: Option<Snap>): (m: Snap)
    ensures partial.Some? ==> forall k :: k in Keys(partial.value) ==> SameAt(m, partial.value, k)
    ensures GetSnapshot(st.embedded).Some? ==> forall k :: k !in Keys(partial.GetOr(Empty)) ==> SameAt(m, GetSnapshot(st.embedded).value, k)
    ensures GetSnapshot(st.embedded).None? ==> m == partial.GetOr(Empty)
    ensures partial.None? ==> m == GetSnapshot(st.embedded).GetOr(Empty)
  {
    MergeEmpty(GetSnapshot(st.embedded).GetOr(Empty));
    MergeEmpty(partial.GetOr(Empty));
    Merge(GetSnapshot(st.embedded).GetOr(Empty), partial.GetOr(Empty))
  }

  /**
   * setCurrentSnap(partial): only the step bar changes; the merged snapshot
   * is not stored, so the embedded snapshot stays as it was.
   */
  method SetCurrentSnap(page: Page, partial: Option<Snap>)
    modifies page
    ensures page.State() == StepsMarked(old(page.State()), Some(Current(old(page.State()), partial)))
    ensures page.embedded == old(page.embedded)
  {
    var current := GetSnapshot(page.embedded);
    var merged := Merge(current.GetOr(Empty), partial.GetOr(Empty));
    UpdateSteps(page, Some(merged));
  }

  /** `records[0]`, …, `records[4]`: undefined past the end. */
  function TableData(records: seq<Record>): (rows: seq<Option<Record>>)
    ensures |rows| == 5
    ensures forall i :: 0 <= i < 5 ==> rows[i] == (if i < |records| then Some(records[i]) else None)
  {
    seq(5, i requires 0 <= i < 5 => if i < |records| then Some(records[i]) else None)
  }

  /** The loop that fills `tableData`. */
  method FillTableData(records: seq<Record>) returns (rows: seq<Option<Record>>)
    ensures rows == TableData(records)
  {
    rows := [];
    var i := 0;
    while i < 5
      invariant 0 <= i <= 5 && |rows| == i
      invariant forall k :: 0 <= k < i ==> rows[k] == (if k < |records| then Some(records[k]) else None)
    {
      rows := rows + [if i < |records| then Some(records[i]) else None];
      i := i + 1;
    }
  }

  /** The first (at most) five records, every one of them defined. */
  function FirstRows(records: seq<Record>): (rows: seq<Option<Record>>)
    ensures |rows| == if |records| < 5 then |records| else 5
    ensures forall i :: 0 <= i < |rows| ==> rows[i] == Some(records[i])
  {
    var n := if |records| < 5 then |records| else 5;
    seq(n, i requires 0 <= i < n => Some(records[i]))
  }

  /** The corrected table loop: stops at the end of the records. */
  method FillFirstRows(records: seq<Record>) returns (rows: seq<Option<Record>>)
    ensures rows == FirstRows(records)
  {
    rows := [];
    var i := 0;
    while i < 5 && i < |records|
      invariant 0 <= i <= 5 && i <= |records| && |rows| == i
      invariant forall k :: 0 <= k < i ==> rows[k] == Some(records[k])
    {
      rows := rows + [Some(records[i])];
      i := i + 1;
    }
  }

  /** With five records or more, both tables hold the same five rows. */
  lemma TablesAgree(records: seq<Record>)
    requires |records| >= 5
    ensures TableData(records) == FirstRows(records)
  {
  }

  /** The head rows of a preview, all of them defined. */
  function Defined(rows: seq<Record>): (r: seq<Option<Record>>)
    ensures TableOk([], r) && forall cs :: TableOk(cs, r)
  {
    seq(|rows|, i requires 0 <= i < |rows| => Some(rows[i]))
  }

  /**
   * Preview stage: with `preview.info`, renderPreview draws the preview
   * table when `head` is there (any list is truthy), then fresh selectors
   * for the uploaded column names.
   */
  function AfterPreview(st: PageState, s: Snap): (r: PageState)
    ensures r.steps == st.steps && r.embedded == st.embedded
    ensures s.preview.None? || s.preview.value.info.None? ==> r == st
    ensures s.preview.Some? && s.preview.value.info.Some? && s.preview.value.head.None? ==>
              r == WithSelectors(st, s.preview.value.info.value.columnNames)
    ensures s.preview.Some? && s.preview.value.info.Some? && s.preview.value.head.Some? ==>
              var names := s.preview.value.info.value.columnNames;
              r == WithSelectors(st.(tables := st.tables["preview-table" := Shown(names, Present(Defined(s.preview.value.head.value)))]), names)
  {
    if s.preview.Some? && s.preview.value.info.Some? then
      var names := s.preview.value.info.value.columnNames;
      var head := s.preview.value.head;
      var tabled := if head.Some? then Tabled(st, "preview-table", names, Defined(head.value)).state else st;
      WithSelectors(tabled, names)
    else st
  }

  method RestorePreview(page: Page, s: Snap)
    modifies page
    ensures page.State() == AfterPreview(old(page.State()), s)
  {
    if s.preview.Some? && s.preview.value.info.Some? {
      var names := s.preview.value.info.value.columnNames;
      if s.preview.value.head.Some? {
        var _ := page.RenderTable("preview-table", names, Defined(s.preview.value.head.value));
      }
      page.RenderSelectors(names);
    }
  }

  /**
   * The preview stage as written: renderSelectors of `components/Selector.js`
   * calls a `labelWrap` that is not in scope, so with `preview.info` the
   * stage throws once `#selectors` is emptied; it differs from the corrected
   * stage only in the emptied selectors.
   */
  function AfterPreviewAsWritten(st: PageState, s: Snap): (r: Run)
    ensures r.state.steps == st.steps && r.state.embedded == st.embedded
    ensures r.ok <==> s.preview.None? || s.preview.value.info.None?
    ensures r.ok ==> r.state == st
    ensures !r.ok ==> r.state == SelectorsCleared(AfterPreview(st, s))
  {
    if s.preview.Some? && s.preview.value.info.Some? then
      var names := s.preview.value.info.value.columnNames;
      var head := s.preview.value.head;
      var tabled := if head.Some? then Tabled(st, "preview-table", names, Defined(head.value)).state else st;
      Run(SelectorsCleared(tabled), false)
    else Run(st, true)
  }

  method RestorePreviewAsWritten(page: Page, s: Snap) returns (ok: bool)
    modifies page
    ensures Run(page.State(), ok) == AfterPreviewAsWritten(old(page.State()), s)
  {
    if s.preview.Some? && s.preview.value.info.Some? {
      var names := s.preview.value.info.value.columnNames;
      if s.preview.value.head.Some? {
        var _ := page.RenderTable("preview-table", names, Defined(s.preview.value.head.value));
      }
      ok := page.RenderSelectorsUnbound(names);
      return;
    }
    ok := true;
  }

  /** Some checkbox has value h. */
  predicate HasBox(boxes: seq<Checkbox>, h: string) {
    exists k :: 0 <= k < |boxes| && boxes[k].value == h
  }

  /** FirstBox only looks at the values of the boxes. */
  lemma {:induction false} SameValuesFirstBox(a: seq<Checkbox>, b: seq<Checkbox>, h: string)
    requires |a| == |b| && forall k :: 0 <= k < |a| ==> a[k].value == b[k].value
    ensures FirstBox(a, h) == FirstBox(b, h)
  {
    if a != [] && a[0].value != h {
      SameValuesFirstBox(a[1..], b[1..], h);
    }
  }

  /** Checking the box of each name in turn; the first name without a box throws. */
  function CheckAll(st: PageState, hs: seq<string>): (r: Run)
    ensures r.state == st.(boxes := r.state.boxes)
    ensures r.ok <==> forall i :: 0 <= i < |hs| ==> HasBox(st.boxes, hs[i])
    ensures |r.state.boxes| == |st.boxes|
    ensures forall k :: 0 <= k < |st.boxes| ==> r.state.boxes[k].value == st.boxes[k].value
    decreases |hs|
  {
    if hs == [] then Run(st, true)
    else
      var r := WithChecked(st, hs[0]);
      if !r.ok then r else
        var rest := CheckAll(r.state, hs[1..]);
        assert forall h :: HasBox(r.state.boxes, h) <==> HasBox(st.boxes, h) by {
          forall h ensures HasBox(r.state.boxes, h) ==> HasBox(st.boxes, h) {
            if HasBox(r.state.boxes, h) {
              var k :| 0 <= k < |r.state.boxes| && r.state.boxes[k].value == h;
              assert st.boxes[k].value == h;
            }
          }
          forall h ensures HasBox(st.boxes, h) ==> HasBox(r.state.boxes, h) {
            if HasBox(st.boxes, h) {
              var k :| 0 <= k < |st.boxes| && st.boxes[k].value == h;
              assert r.state.boxes[k].value == h;
            }
          }
        }
        assert forall i :: 1 <= i < |hs| ==> hs[i] == hs[1..][i - 1];
        rest
  }

  /** A box once checked stays checked, and after a full run every named box is checked. */
  lemma {:induction false} CheckAllMarks(st: PageState, hs: seq<string>)
    ensures var r := CheckAll(st, hs);
            forall k :: 0 <= k < |st.boxes| && st.boxes[k].checked ==> r.state.boxes[k].checked
    ensures var r := CheckAll(st, hs);
            r.ok ==> forall i :: 0 <= i < |hs| ==> r.state.boxes[FirstBox(st.boxes, hs[i])].checked
    decreases |hs|
  {
    if hs != [] {
      var r := WithChecked(st, hs[0]);
      if r.ok {
        CheckAllMarks(r.state, hs[1..]);
        var i0 := FirstBox(st.boxes, hs[0]);
        assert r.state.boxes[i0].checked;
        forall i | 0 <= i < |hs|
          ensures CheckAll(st, hs).ok ==> CheckAll(st, hs).state.boxes[FirstBox(st.boxes, hs[i])].checked
        {
          SameValuesFirstBox(r.state.boxes, st.boxes, hs[i]);
          if i > 0 {
            assert hs[i] == hs[1..][i - 1];
          }
        }
      }
    }
  }

  method CheckFeatures(page: Page, hs: seq<string>) returns (ok: bool)
    modifies page
    ensures Run(page.State(), ok) == CheckAll(old(page.State()), hs)
  {
    var i := 0;
    while i < |hs|
      invariant 0 <= i <= |hs|
      invariant CheckAll(old(page.State()), hs) == CheckAll(page.State(), hs[i..])
    {
      assert hs[i..][1..] == hs[i + 1..];
      ok := page.CheckFeature(hs[i]);
      if !ok {
        return false;
      }
      i := i + 1;
    }
    ok := true;
  }

  /** The time controls that exist take the fields of tm that are set. */
  function WithTime(st: PageState, tm: TimeMeta): (r: PageState)
    ensures r == st.(timeColumn := r.timeColumn, timeKind := r.timeKind, timeFormat := r.timeFormat)
    ensures r.timeColumn == if st.timeColumn.Some? && tm.column != "" then Some(tm.column) else st.timeColumn
    ensures r.timeKind == if st.timeKind.Some? && tm.kind != "" then Some(tm.kind) else st.timeKind
    ensures r.timeFormat == if st.timeFormat.Some? && tm.format != "" then Some(tm.format) else st.timeFormat
  {
    var c := if st.timeColumn.Some? && tm.column != "" then Some(tm.column) else st.timeColumn;
    var k := if st.timeKind.Some? && tm.kind != "" then Some(tm.kind) else st.timeKind;
    var f := if st.timeFormat.Some? && tm.format != "" then Some(tm.format) else st.timeFormat;
    st.(timeColumn := c, timeKind := k, timeFormat := f)
  }

  method RestoreTime(page: Page, tm: TimeMeta)
    modifies page
    ensures page.State() == WithTime(old(page.State()), tm)
  {
    if page.timeColumn.Some? && tm.column != "" {
      page.timeColumn := Some(tm.column);
    }
    if page.timeKind.Some? && tm.kind != "" {
      page.timeKind := Some(tm.kind);
    }
    if page.timeFormat.Some? && tm.format != "" {
      page.timeFormat := Some(tm.format);
    }
  }

  /**
   * Sample stage, given the rows handed to the table: check the selected
   * feature boxes, render the table, draw the sample, then restore the
   * target dropdown (only for a non-empty target) and the time controls.
   */
  function AfterSample(st: PageState, s: Snap, rows: seq<Option<Record>>): (r: Run)
    requires s.sample.Some?
    ensures r.state.steps == st.steps && r.state.embedded == st.embedded
  {
    if s.selection.None? then Run(st, false)
    else
      var sel := s.selection.value;
      var checked := CheckAll(st, sel.features);
      if !checked.ok then checked
      else
        var tabled := Tabled(checked.state, "seleted-table", s.sample.value.columns, rows);
        if !tabled.ok then tabled
        else SampleDrawn(tabled.state, s)
  }

  /**
   * The end of the sample stage: draw the sample on `plot`, then restore the
   * target dropdown and the time controls.  Only `plot` is redrawn; the
   * tables, the loss text, the step bar and the snapshot stay as they are.
   */
  function SampleDrawn(st: PageState, s: Snap): (r: Run)
    requires s.sample.Some? && s.selection.Some?
    ensures r.state.steps == st.steps && r.state.embedded == st.embedded
    ensures r.state.tables == st.tables && r.state.trainInfo == st.trainInfo
    ensures forall id :: id != "plot" ==> FigureAt(r.state, id) == FigureAt(st, id)
  {
    var sel := s.selection.value;
    var drawn := Drawn(st, "plot", sel.target, sel.features, s.sample.value, s.time);
    if !drawn.ok then drawn
    else
      var st1 := if sel.target != "" && drawn.state.target.Some? then WithTarget(drawn.state, sel.target) else drawn.state;
      Run(if s.time.Some? then WithTime(st1, s.time.value) else st1, true)
  }

  method RestoreSample(page: Page, s: Snap, rows: seq<Option<Record>>) returns (ok: bool)
    requires s.sample.Some?
    modifies page
    ensures Run(page.State(), ok) == AfterSample(old(page.State()), s, rows)
  {
    if s.selection.None? {
      return false;
    }
    var sel := s.selection.value;
    ok := CheckFeatures(page, sel.features);
    if !ok {
      return;
    }
    ok := page.RenderTable("seleted-table", s.sample.value.columns, rows);
    if !ok {
      return;
    }
    ok := DrawPlot(page, "plot", sel.target, sel.features, s.sample.value, s.time);
    if !ok {
      return;
    }
    if sel.target != "" && page.target.Some? {
      page.SetTarget(sel.target);
    }
    if s.time.Some? {
      RestoreTime(page, s.time.value);
    }
  }

  /** The preprocess stage's drawPlot: the segment's target over the sample's time meta. */
  function SegmentPlot(st: PageState, s: Snap): (r: Run)
    requires s.preprocess.Some?
    ensures r.state.steps == st.steps && r.state.embedded == st.embedded
  {
    var p := s.preprocess.value;
    if p.segment.None? || s.selection.None? then Run(st, false)
    else Drawn(st, "pp_plot", s.selection.value.target, [], Sample(p.segment.value.columns, p.segment.value.records), s.time)
  }

  method RestoreSegmentPlot(page: Page, s: Snap) returns (ok: bool)
    requires s.preprocess.Some?
    modifies page
    ensures Run(page.State(), ok) == SegmentPlot(old(page.State()), s)
  {
    var p := s.preprocess.value;
    if p.segment.None? || s.selection.None? {
      return false;
    }
    var seg := Sample(p.segment.value.columns, p.segment.value.records);
    ok := DrawPlot(page, "pp_plot", s.selection.value.target, [], seg, s.time);
  }

  /**
   * Preprocess stage as written: after the segment plot, drawPP is given
   * `preprocess.curve`, which has no `segment`, so reading `segment.records` throws.
   */
  function AfterPreprocessAsWritten(st: PageState, s: Snap): (r: Run)
    requires s.preprocess.Some?
    ensures !r.ok && r.state.steps == st.steps && r.state.embedded == st.embedded
  {
    Run(SegmentPlot(st, s).state, false)
  }

  /** Preprocess stage corrected: drawPP is given the preprocess record itself. */
  function AfterPreprocess(st: PageState, s: Snap): (r: Run)
    requires s.preprocess.Some?
    ensures r.state.steps == st.steps && r.state.embedded == st.embedded
  {
    var plotted := SegmentPlot(st, s);
    if !plotted.ok then plotted else PPDrawn(plotted.state, s.preprocess.value)
  }

  method RestorePreprocessAsWritten(page: Page, s: Snap) returns (ok: bool)
    requires s.preprocess.Some?
    modifies page
    ensures Run(page.State(), ok) == AfterPreprocessAsWritten(old(page.State()), s)
  {
    ok := RestoreSegmentPlot(page, s);
    ok := false;
  }

  method RestorePreprocess(page: Page, s: Snap) returns (ok: bool)
    requires s.preprocess.Some?
    modifies page
    ensures Run(page.State(), ok) == AfterPreprocess(old(page.State()), s)
  {
    ok := RestoreSegmentPlot(page, s);
    if !ok {
      return;
    }
    ok := DrawPP(page, s.preprocess.value);
  }

  /** `Number(snap.train.loss)` */
  function LossNumber(loss: Option<real>): JsNum {
    if loss.Some? then Fin(loss.value) else NaN
  }

  /** Train stage: show the loss, then draw the forecast when the selected target is non-empty. */
  function AfterTrain(st: PageState, s: Snap): (r: Run)
    requires s.train.Some?
    ensures r.state.steps == st.steps && r.state.embedded == st.embedded
  {
    var shown := LossShown(st, LossNumber(s.train.value.loss));
    if s.selection.None? then Run(shown, false)
    else if s.selection.value.target != "" then Run(ForecastDrawn(shown, s.selection.value.target, s.train.value.prediction), true)
    else Run(shown, true)
  }

  method RestoreTrain(page: Page, s: Snap) returns (ok: bool)
    requires s.train.Some?
    modifies page
    ensures Run(page.State(), ok) == AfterTrain(old(page.State()), s)
  {
    page.ShowLoss(LossNumber(s.train.value.loss));
    if s.selection.None? {
      return false;
    }
    if s.selection.value.target != "" {
      DrawForecast(page, s.selection.value.target, s.train.value.prediction);
    }
    ok := true;
  }

  /** restore() as written. */
  function RestoredAsWritten(st: PageState): (r: Run)
    ensures r.state.embedded == st.embedded
  {
    match GetSnapshot(st.embedded)
    case None => Run(st, true)
    case Some(s) =>
      var r1 := AfterPreviewAsWritten(st, s);
      if !r1.ok then r1 else
      var st1 := r1.state;
      var r2 := if s.sample.Some? then AfterSample(st1, s, TableData(s.sample.value.records)) else Run(st1, true);
      if !r2.ok then r2 else
      var r3 := if s.preprocess.Some? then AfterPreprocessAsWritten(r2.state, s) else r2;
      if !r3.ok then r3 else
      var r4 := if s.train.Some? then AfterTrain(r3.state, s) else r3;
      if !r4.ok then r4 else Run(StepsMarked(r4.state, Some(s)), true)
  }

  /** restore() with the table and drawPP call sites corrected. */
  function Restored(st: PageState): (r: Run)
    ensures r.state.embedded == st.embedded
  {
    match GetSnapshot(st.embedded)
    case None => Run(st, true)
    case Some(s) =>
      var st1 := AfterPreview(st, s);
      var r2 := if s.sample.Some? then AfterSample(st1, s, FirstRows(s.sample.value.records)) else Run(st1, true);
      if !r2.ok then r2 else
      var r3 := if s.preprocess.Some? then AfterPreprocess(r2.state, s) else r2;
      if !r3.ok then r3 else
      var r4 := if s.train.Some? then AfterTrain(r3.state, s) else r3;
      if !r4.ok then r4 else Run(StepsMarked(r4.state, Some(s)), true)
  }

  method RestoreAsWritten(page: Page) returns (ok: bool)
    modifies page
    ensures Run(page.State(), ok) == RestoredAsWritten(old(page.State()))
  {
    var snap := GetSnapshot(page.embedded);
    if snap.None? {
      return true;
    }
    var s := snap.value;
    ok := RestorePreviewAsWritten(page, s);
    if !ok {
      return;
    }
    if s.sample.Some? {
      var rows := FillTableData(s.sample.value.records);
      ok := RestoreSample(page, s, rows);
      if !ok {
        return;
      }
    }
    if s.preprocess.Some? {
      ok := RestorePreprocessAsWritten(page, s);
      if !ok {
        return;
      }
    }
    if s.train.Some? {
      ok := RestoreTrain(page, s);
      if !ok {
        return;
      }
    }
    UpdateSteps(page, snap);
    ok := true;
  }

  method Restore(page: Page) returns (ok: bool)
    modifies page
    ensures Run(page.State(), ok) == Restored(old(page.State()))
  {
    var snap := GetSnapshot(page.embedded);
    if snap.None? {
      return true;
    }
    var s := snap.value;
    RestorePreview(page, s);
    if s.sample.Some? {
      var rows := FillFirstRows(s.sample.value.records);
      ok := RestoreSample(page, s, rows);
      if !ok {
        return;
      }
    }
    if s.preprocess.Some? {
      ok := RestorePreprocess(page, s);
      if !ok {
        return;
      }
    }
    if s.train.Some? {
      ok := RestoreTrain(page, s);
      if !ok {
        return;
      }
    }
    UpdateSteps(page, snap);
    ok := true;
  }

  /** Without a snapshot (missing element, blank text, bad JSON or `null`), restore changes nothing. */
  lemma NothingToRestore(st: PageState)
    requires !st.embedded.Document?
    ensures RestoredAsWritten(st) == Run(st, true)
    ensures Restored(st) == Run(st, true)
  {
  }

  /** Whenever restore finishes, the step bar shows the whole snapshot; when it throws, the bar is untouched. */
  lemma {:induction false} StepsFromWholeSnapshot(st: PageState)
    requires st.embedded.Document?
    ensures Restored(st).ok ==> Restored(st).state.steps == Marked(st.steps, Done(Some(st.embedded.snap)))
    ensures !Restored(st).ok ==> Restored(st).state.steps == st.steps
    ensures RestoredAsWritten(st).ok ==> RestoredAsWritten(st).state.steps == Marked(st.steps, Done(Some(st.embedded.snap)))
    ensures !RestoredAsWritten(st).ok ==> RestoredAsWritten(st).state.steps == st.steps
  {
    var s := st.embedded.snap;
    var st1 := AfterPreview(st, s);
    assert st1.steps == st.steps;
  }

  /**
   * As written, restore stops at the preview stage on every snapshot with
   * `preview.info`, which every upload saves: the selectors are emptied, and
   * the sample, preprocess and train stages and the step bar are never reached.
   */
  lemma PreviewInfoAborts(st: PageState)
    requires st.embedded.Document?
    requires st.embedded.snap.preview.Some? && st.embedded.snap.preview.value.info.Some?
    ensures RestoredAsWritten(st) == Run(SelectorsCleared(AfterPreview(st, st.embedded.snap)), false)
    ensures RestoredAsWritten(st).state.steps == st.steps
    ensures RestoredAsWritten(st).state.target.None? && RestoredAsWritten(st).state.boxes == []
  {
  }

  /**
   * As written, restore never finishes on a snapshot holding a `preprocess`
   * key: the train stage and the step bar are never reached.
   */
  lemma {:induction false} PreprocessKeyAborts(st: PageState)
    requires st.embedded.Document? && st.embedded.snap.preprocess.Some?
    ensures !RestoredAsWritten(st).ok
    ensures RestoredAsWritten(st).state.steps == st.steps
    ensures RestoredAsWritten(st).state.trainInfo == AfterPreview(st, st.embedded.snap).trainInfo
  {
    var s := st.embedded.snap;
    var st1 := AfterPreview(st, s);
    assert AfterPreview(st, s).trainInfo == st.trainInfo;
    if s.sample.Some? {
      var r2 := AfterSample(st1, s, TableData(s.sample.value.records));
      if r2.ok {
        assert r2.state.trainInfo == st1.trainInfo by {
          AfterSampleKeepsTrainInfo(st1, s, TableData(s.sample.value.records));
        }
      }
    }
  }

  lemma AfterSampleKeepsTrainInfo(st: PageState, s: Snap, rows: seq<Option<Record>>)
    requires s.sample.Some?
    ensures AfterSample(st, s, rows).state.trainInfo == st.trainInfo
  {
  }

  /**
   * As written, a sample of fewer than five records with at least one column
   * makes the table throw: restore does not finish and the sample's plot is not drawn.
   */
  lemma {:induction false} ShortSampleAborts(st: PageState)
    requires st.embedded.Document? && st.embedded.snap.sample.Some?
    requires |st.embedded.snap.sample.value.records| < 5 && st.embedded.snap.sample.value.columns != []
    ensures !RestoredAsWritten(st).ok
    ensures RestoredAsWritten(st).state.steps == st.steps
  {
    var s := st.embedded.snap;
    var rows := TableData(s.sample.value.records);
    assert rows[4].None?;
    assert !TableOk(s.sample.value.columns, rows);
    StepsFromWholeSnapshot(st);
  }

  /**
   * Where the as-written restore hits none of its three errors (the unbound
   * `labelWrap`, the five-entry table, the `drawPP` argument), the corrected
   * one does exactly the same.
   */
  lemma {:induction false} CorrectionAgrees(st: PageState)
    requires st.embedded.Document? && st.embedded.snap.preprocess.None?
    requires st.embedded.snap.preview.Some? ==> st.embedded.snap.preview.value.info.None?
    requires st.embedded.snap.sample.Some? ==> |st.embedded.snap.sample.value.records| >= 5
    ensures Restored(st) == RestoredAsWritten(st)
  {
    var s := st.embedded.snap;
    if s.sample.Some? {
      TablesAgree(s.sample.value.records);
    }
  }

  /**
   * Corrected, a snapshot with a short sample restores its table: the
   * table shows exactly the records there are.
   */
  lemma {:induction false} ShortSampleShown(st: PageState)
    requires st.embedded.Document? && st.embedded.snap.sample.Some? && st.embedded.snap.selection.Some?
    requires |st.embedded.snap.sample.value.records| < 5
    requires CheckAll(AfterPreview(st, st.embedded.snap), st.embedded.snap.selection.value.features).ok
    ensures var s := st.embedded.snap;
            AfterSample(AfterPreview(st, s), s, FirstRows(s.sample.value.records)).state.tables["seleted-table"]
              == Shown(s.sample.value.columns, s.sample.value.records)
  {
    var s := st.embedded.snap;
    var rows := FirstRows(s.sample.value.records);
    assert Present(rows) == s.sample.value.records;
    SampleTable(AfterPreview(st, s), s, rows);
  }

  /** Once the feature boxes are checked and the table renders, the sample table is the rendered rows. */
  lemma SampleTable(st: PageState, s: Snap, rows: seq<Option<Record>>)
    requires s.sample.Some? && s.selection.Some? && CheckAll(st, s.selection.value.features).ok
    requires TableOk(s.sample.value.columns, rows)
    ensures AfterSample(st, s, rows).state.tables["seleted-table"] == Shown(s.sample.value.columns, Present(rows))
  {
  }

  /**
   * Stages are guarded by their keys: without `train` the loss and the
   * forecast are untouched; without `preprocess` the duration curve is
   * untouched; without `sample` the sample table is untouched.
   */
  lemma StageGuards(st: PageState)
    requires st.embedded.Document?
    ensures var s := st.embedded.snap;
            var r := Restored(st).state;
            (s.train.None? ==> r.trainInfo == st.trainInfo && FigureAt(r, "forecast_plot") == FigureAt(st, "forecast_plot")) &&
            (s.preprocess.None? ==> FigureAt(r, "pp_curve") == FigureAt(st, "pp_curve")) &&
            (s.sample.None? ==> TableAt(r, "seleted-table") == TableAt(st, "seleted-table"))
  {
    var s := st.embedded.snap;
    if s.train.None? {
      TrainGuard(st);
    }
    if s.preprocess.None? {
      PreprocessGuard(st);
    }
    if s.sample.None? {
      SampleGuard(st);
    }
  }

  /** Without `train` the loss and the forecast stay as they were. */
  lemma {:induction false} TrainGuard(st: PageState)
    requires st.embedded.Document? && st.embedded.snap.train.None?
    ensures var r := Restored(st).state;
            r.trainInfo == st.trainInfo && FigureAt(r, "forecast_plot") == FigureAt(st, "forecast_plot")
  {
    var s := st.embedded.snap;
    var st1 := AfterPreview(st, s);
    assert FigureAt(st1, "forecast_plot") == FigureAt(st, "forecast_plot");
    if s.sample.Some? {
      SampleFigures(st1, s, FirstRows(s.sample.value.records));
    }
    var r2 := if s.sample.Some? then AfterSample(st1, s, FirstRows(s.sample.value.records)) else Run(st1, true);
    if r2.ok && s.preprocess.Some? {
      PreprocessFigures(r2.state, s);
    }
  }

  /** Without `preprocess` the change-duration curve stays as it was. */
  lemma {:induction false} PreprocessGuard(st: PageState)
    requires st.embedded.Document? && st.embedded.snap.preprocess.None?
    ensures FigureAt(Restored(st).state, "pp_curve") == FigureAt(st, "pp_curve")
  {
    var s := st.embedded.snap;
    var st1 := AfterPreview(st, s);
    assert FigureAt(st1, "pp_curve") == FigureAt(st, "pp_curve");
    if s.sample.Some? {
      SampleFigures(st1, s, FirstRows(s.sample.value.records));
    }
  }

  /** Without `sample` the selected-columns table stays as it was. */
  lemma {:induction false} SampleGuard(st: PageState)
    requires st.embedded.Document? && st.embedded.snap.sample.None?
    ensures TableAt(Restored(st).state, "seleted-table") == TableAt(st, "seleted-table")
  {
    var s := st.embedded.snap;
    var st1 := AfterPreview(st, s);
    assert TableAt(st1, "seleted-table") == TableAt(st, "seleted-table");
    if s.preprocess.Some? {
      PreprocessFigures(st1, s);
    }
  }

  function FigureAt(st: PageState, id: string): Option<Figure> {
    if id in st.figures then Some(st.figures[id]) else None
  }

  function TableAt(st: PageState, id: string): Option<Table> {
    if id in st.tables then Some(st.tables[id]) else None
  }

  /** The sample stage draws only `plot` and leaves the loss alone. */
  lemma SampleFigures(st: PageState, s: Snap, rows: seq<Option<Record>>)
    requires s.sample.Some?
    ensures var r := AfterSample(st, s, rows).state;
            r.trainInfo == st.trainInfo &&
            forall id :: id != "plot" ==> FigureAt(r, id) == FigureAt(st, id)
  {
  }

  /** The preprocess stage draws only `pp_plot` and `pp_curve`, and leaves the tables and the loss alone. */
  lemma PreprocessFigures(st: PageState, s: Snap)
    requires s.preprocess.Some?
    ensures var r := AfterPreprocess(st, s).state;
            r.trainInfo == st.trainInfo && r.tables == st.tables &&
            forall id :: id != "pp_plot" && id != "pp_curve" ==> FigureAt(r, id) == FigureAt(st, id)
  {
  }

  /**
   * Stages run in order: when the corrected restore finishes with both
   * `preprocess` and `train` and a selected target, the forecast continues
   * the preprocessed segment, whose rows it counts from.
   */
  lemma {:induction false} ForecastAfterSegment(st: PageState)
    requires st.embedded.Document?
    requires var s := st.embedded.snap;
             s.preprocess.Some? && s.train.Some? && s.selection.Some? && s.selection.value.target != ""
    requires Restored(st).ok
    ensures var s := st.embedded.snap;
            var f := Restored(st).state.figures["forecast_plot"];
            |f.traces| == 2 &&
            f.traces[0].x == IndexAxis(|s.preprocess.value.segment.value.records|) &&
            f.traces[1].x == seq(|s.train.value.prediction|, i => Pos(|s.preprocess.value.segment.value.records| + i))
  {
    var s := st.embedded.snap;
    var st1 := AfterPreview(st, s);
    var r2 := if s.sample.Some? then AfterSample(st1, s, FirstRows(s.sample.value.records)) else Run(st1, true);
    assert r2.ok;
    var r3 := AfterPreprocess(r2.state, s);
    assert r3.ok;
    var plotted := SegmentPlot(r2.state, s);
    assert plotted.ok;
    var pp := PPDrawn(plotted.state, s.preprocess.value);
    assert pp == r3;
    var seg := s.preprocess.value.segment.value;
    assert Existing(r3.state.figures) == Some(SegmentFigure(s.preprocess.value, seg, plotted.state.target.value.value).traces[0]);
    var r4 := AfterTrain(r3.state, s);
    assert r4.ok;
    var shown := LossShown(r3.state, LossNumber(s.train.value.loss));
    assert Existing(shown.figures) == Existing(r3.state.figures);
    var f := Forecast(Existing(shown.figures), s.selection.value.target, s.train.value.prediction);
    assert Restored(st).state.figures["forecast_plot"] == f;
  }
}
