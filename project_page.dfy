/**
 * The project page's server routes: view, upload, column selection,
 * preprocessing and training.  Each handler reads the project from the
 * store, answers 404/400 on missing data, and otherwise records its result
 * in the project record and accretes it into the saved session snapshot.
 * CSV reading, the preview summary, the DataFrame conversions and the
 * numeric steps are function parameters.
 */
module ProjectPage {
  import opened Wrappers
  import opened Py
  import opened Data
  import opened Snapshot
  import opened Projects
  import Preprocess
  import TfModels

  /** `features` of a request body: missing, an explicit null, or a list. */
  datatype FeatureList = Missing | NullList | Listed(items: seq<string>) {
    /** payload.get("features", []) iterated: a missing key reads as []. */
    function Items(): (r: seq<string>)
      requires !NullList?
      ensures Listed? ==> r == items
      ensures Missing? ==> r == []
    {
      if Listed? then items else []
    }
  }

  /** The JSON body of a request; None for a missing key (a body that is not JSON reads as `{}`). */
  datatype Payload = Payload(
    target: Option<string>,
    features: FeatureList,
    ppMethod: Option<string>,
    model: Option<string>,
    window: Option<int>,
    horizon: Option<int>,
    epochs: Option<int>)

  /** The uploaded `file` part. */
  datatype FilePart = FilePart(filename: string)

  /** What a route answers. */
  datatype Response =
    | NotFound                                   // abort(404)
    | BadRequest(error: string)                  // {"error": …}, 400
    | Raised(message: string)                    // an exception escapes the handler
    | Rendered(project: Project, snapshot: Snap) // project_view.html
    | Uploaded(preview: Preview)                 // {"ok": true, "preview": …}
    | Selected(data: Sample)                     // {"ok": true, "data": …}
    | Processed(result: Preprocessed)            // {"ok": true, "segment": …, "bounds": …, "curve": …}
    | TrainDone(loss: real, prediction: seq<real>)

  const NoData: string := "Данные не загружены"
  const NoTarget: string := "Не указан target"
  const NoFile: string := "Файл не найден"
  const NotCsv: string := "Ожидается CSV"
  const NotIterable: string := "TypeError: 'NoneType' object is not iterable"

  const DefaultPPMethod: string := "cusum"
  const DefaultModel: string := "mlp"
  const DefaultWindow: int := 32
  const DefaultHorizon: int := 12
  const DefaultEpochs: int := 5

  /** sample_columns(path, columns): the first rows of the named columns of the CSV. */
  type Sampler = (string, seq<string>) -> Sample

  /** project.get("data_path") when it is a non-empty path. */
  function DataPath(p: Project): Option<string> {
    if "data_path" in p && p["data_path"].Str? && p["data_path"].s != [] then Some(p["data_path"].s) else None
  }

  /** project.get("target") when it is a non-empty name. */
  function StoredTarget(p: Project): Option<string> {
    if "target" in p && p["target"].Str? && p["target"].s != [] then Some(p["target"].s) else None
  }

  /** payload.get("target") or project.get("target"): the request's target when given, the stored one otherwise. */
  function ChosenTarget(requested: Option<string>, p: Project): (t: Option<string>)
    ensures t.Some? ==> t.value != []
    ensures requested.Some? && requested.value != [] ==> t == requested
    ensures requested.None? || requested.value == [] ==> t == StoredTarget(p)
    ensures t.None? <==> (requested.None? || requested.value == []) && StoredTarget(p).None?
  {
    if requested.Some? && requested.value != [] then requested else StoredTarget(p)
  }

  /** [c for c in features if c and c != target] */
  function KeptFeatures(features: seq<string>, target: Option<string>): (r: seq<string>)
    ensures |r| <= |features|
    ensures forall k :: 0 <= k < |r| ==> r[k] != [] && Some(r[k]) != target && r[k] in features
    ensures forall c :: c in features && c != [] && Some(c) != target ==> c in r
  {
    if features == [] then []
    else
      var rest := KeptFeatures(features[1..], target);
      assert forall c :: c in features[1..] ==> c in features;
      if features[0] != [] && Some(features[0]) != target then [features[0]] + rest else rest
  }

  /** The filter keeps the features' order: it distributes over concatenation. */
  lemma {:induction false} KeptFeaturesAppend(a: seq<string>, b: seq<string>, target: Option<string>)
    ensures KeptFeatures(a + b, target) == KeptFeatures(a, target) + KeptFeatures(b, target)
  {
    if a == [] {
      assert a + b == b;
    } else {
      assert (a + b)[1..] == a[1..] + b;
      KeptFeaturesAppend(a[1..], b, target);
    }
  }

  /** Features that are all non-empty and differ from the target are kept as they are. */
  lemma {:induction false} KeptFeaturesAll(features: seq<string>, target: Option<string>)
    requires forall k :: 0 <= k < |features| ==> features[k] != [] && Some(features[k]) != target
    ensures KeptFeatures(features, target) == features
  {
    if features != [] {
      KeptFeaturesAll(features[1..], target);
    }
  }

  /** The columns select_columns reads: the target first when it is given, then the kept features. */
  function Columns(target: Option<string>, features: seq<string>): (cols: seq<string>)
    ensures target.Some? && target.value != [] ==>
              |cols| >= 1 && cols[0] == target.value && cols[1..] == KeptFeatures(features, target)
    ensures target.None? || target.value == [] ==> cols == KeptFeatures(features, target)
    ensures target.Some? ==> forall k :: 0 < k < |cols| ==> cols[k] != target.value
    ensures forall k :: 0 <= k < |cols| ==> cols[k] != []
  {
    (if target.Some? && target.value != [] then [target.value] else []) + KeptFeatures(features, target)
  }

  /** cols = []; cols.append(target) when truthy; cols.extend(kept features) */
  method SelectedColumns(target: Option<string>, features: seq<string>) returns (cols: seq<string>)
    ensures cols == Columns(target, features)
  {
    cols := [];
    if target.Some? && target.value != [] {
      cols := cols + [target.value];
    }
    cols := cols + KeptFeatures(features, target);
  }

  /** The snapshot after upload: only the preview; every earlier key is discarded. */
  function UploadedSnap(preview: Preview): (r: Snap)
    ensures r.preview == Some(preview)
    ensures Keys(r) == {PreviewKey}
  {
    Empty.(preview := Some(preview))
  }

  /** snap.update({"selection": …, "sample": …}): those two keys set, every other key kept. */
  function SelectedSnap(snap: Snap, selection: Selection, data: Sample): (r: Snap)
    ensures r.selection == Some(selection) && r.sample == Some(data)
    ensures forall k :: k != SelectionKey && k != SampleKey ==> SameAt(r, snap, k)
  {
    Merge(snap, Empty.(selection := Some(selection), sample := Some(data)))
  }

  /** snap.update({"preprocess": …}): only that key is replaced. */
  function PreprocessedSnap(snap: Snap, pp: Preprocessed): (r: Snap)
    ensures r.preprocess == Some(pp)
    ensures forall k :: k != PreprocessKey ==> SameAt(r, snap, k)
  {
    Merge(snap, Empty.(preprocess := Some(pp)))
  }

  /** snap.update({"train": …}): only that key is replaced. */
  function TrainedSnap(snap: Snap, t: Trained): (r: Snap)
    ensures r.train == Some(t)
    ensures forall k :: k != TrainKey ==> SameAt(r, snap, k)
  {
    Merge(snap, Empty.(train := Some(t)))
  }

  /** load_snapshot(project_id) or {} */
  function Current(snapshots: map<string, Snap>, id: string): Snap {
    Loaded(snapshots, id).GetOr(Empty)
  }

  /** f.filename.lower().endswith(".csv") */
  predicate IsCsv(filename: string) {
    EndsWith(Lower(filename), ".csv")
  }

  /**
   * os.path.join(a, b) on POSIX: an absolute b replaces a; otherwise b is
   * appended, with a separator unless a is empty or already ends in one.
   */
  function PathJoin(a: string, b: string): (r: string)
    ensures b != [] && b[0] == '/' ==> r == b
    ensures |b| <= |r| && r[|r| - |b|..] == b
    ensures b != [] ==> r != []
    ensures (b == [] || b[0] != '/') ==> |a| <= |r| && r[..|a|] == a
  {
    if b != [] && b[0] == '/' then b
    else if a == [] || a[|a| - 1] == '/' then a + b
    else a + "/" + b
  }

  /** Where save_uploaded_csv puts the file: the project's directory under the base directory. */
  function SavedPath(baseDir: string, id: string, filename: string): (path: string)
    ensures filename != [] ==> path != []
    ensures filename != [] && filename[0] == '/' ==> path == filename
    ensures |filename| <= |path| && path[|path| - |filename|..] == filename
  {
    PathJoin(PathJoin(baseDir, id), filename)
  }

  function UploadFields(path: string): map<string, Value> {
    map["data_path" := Str(path), "status" := Str("uploaded")]
  }

  function SelectionFields(target: Option<string>, features: seq<string>): map<string, Value> {
    map["target" := (if target.Some? then Str(target.value) else NoneValue),
        "features" := Strs(features),
        "status" := Str("selected")]
  }

  function PreprocessFields(): map<string, Value> {
    map["preprocessed" := Bool(true)]
  }

  function TrainFields(model: string, horizon: int): map<string, Value> {
    map["model" := Str(model), "horizon" := Value.Int(horizon), "status" := Str("trained")]
  }

  /** The project found at position i of the store, when there is one with data. */
  predicate HasDataAt(items: seq<Project>, i: nat) {
    i < |items| && DataPath(items[i]).Some?
  }

  /** view: 404 for an unknown project, otherwise the page with its snapshot (or `{}`). */
  method View(store: ProjectStore, id: string) returns (resp: Response)
    ensures var items, i := store.Items(), FirstIndex(store.Items(), id);
            if i == |items| then resp == NotFound
            else resp == Rendered(items[i], Current(store.snapshots, id))
  {
    var project := store.GetProject(id);
    if project.None? {
      return NotFound;
    }
    var snap := store.LoadSnapshot(id);
    return Rendered(project.value, snap.GetOr(Empty));
  }

  /**
   * upload: 404 for an unknown project, 400 without a file part or for a
   * name not ending in .csv; otherwise save it and record its path and
   * status. Only then is the file read for its preview: when pandas cannot
   * read it the error escapes, the project keeps its new path and status
   * and the old snapshot stays; otherwise the snapshot becomes the preview
   * alone.
   */
  method Upload(store: ProjectStore, id: string, file: Option<FilePart>, baseDir: string,
                previewOf: string -> Result<Preview>) returns (resp: Response)
    modifies store
    ensures var items, i := old(store.Items()), FirstIndex(old(store.Items()), id);
            if i == |items| || file.None? || !IsCsv(file.value.filename) then
              resp == (if i == |items| then NotFound else if file.None? then BadRequest(NoFile) else BadRequest(NotCsv)) &&
              store.file == old(store.file) && store.snapshots == old(store.snapshots)
            else
              var path := SavedPath(baseDir, id, file.value.filename);
              store.file == Stored(items[i := Merged(items[i], UploadFields(path))]) &&
              match previewOf(path)
              case Err(message) =>
                resp == Raised(message) && store.snapshots == old(store.snapshots)
              case Ok(preview) =>
                resp == Uploaded(preview) && store.snapshots == old(store.snapshots)[id := UploadedSnap(preview)]
  {
    var project := store.GetProject(id);
    if project.None? {
      return NotFound;
    }
    if file.None? {
      return BadRequest(NoFile);
    }
    if !IsCsv(file.value.filename) {
      return BadRequest(NotCsv);
    }
    var path := SavedPath(baseDir, id, file.value.filename);
    var _ := store.UpdateProject(id, UploadFields(path));
    var preview := previewOf(path);
    if preview.Err? {
      return Raised(preview.message);
    }
    store.SaveSnapshot(id, UploadedSnap(preview.value));
    return Uploaded(preview.value);
  }

  /**
   * select_columns: 400 unless the project has data; an explicit null
   * `features` raises while the columns are gathered, before anything is
   * written; otherwise sample the chosen columns, record target, features
   * and status, and set `selection` and `sample` in the snapshot.
   */
  method SelectColumns(store: ProjectStore, id: string, payload: Payload, sampler: Sampler) returns (resp: Response)
    modifies store
    ensures var items, i := old(store.Items()), FirstIndex(old(store.Items()), id);
            if !HasDataAt(items, i) then
              resp == BadRequest(NoData) && store.file == old(store.file) && store.snapshots == old(store.snapshots)
            else if payload.features.NullList? then
              resp == Raised(NotIterable) && store.file == old(store.file) && store.snapshots == old(store.snapshots)
            else
              var features := payload.features.Items();
              var data := sampler(DataPath(items[i]).value, Columns(payload.target, features));
              resp == Selected(data) &&
              store.file == Stored(items[i := Merged(items[i], SelectionFields(payload.target, features))]) &&
              store.snapshots == old(store.snapshots)[id :=
                SelectedSnap(Current(old(store.snapshots), id), Selection(payload.target.GetOr(""), features), data)]
  {
    var project := store.GetProject(id);
    if project.None? || DataPath(project.value).None? {
      return BadRequest(NoData);
    }
    if payload.features.NullList? {
      return Raised(NotIterable);
    }
    var features := payload.features.Items();
    var cols := SelectedColumns(payload.target, features);
    var data := sampler(DataPath(project.value).value, cols);
    var _ := store.UpdateProject(id, SelectionFields(payload.target, features));
    var loaded := store.LoadSnapshot(id);
    var snap := loaded.GetOr(Empty);
    snap := SelectedSnap(snap, Selection(payload.target.GetOr(""), features), data);
    store.SaveSnapshot(id, snap);
    return Selected(data);
  }

  /** The `preprocess` entry the route stores and answers with: the segment as records, the bounds and the curve. */
  function PreprocessEntry(out: Preprocess.Output, recordsOf: Preprocess.Frame -> seq<Record>): (pp: Preprocessed)
    ensures pp.segment == Some(Sample(out.segment.columns, recordsOf(out.segment)))
    ensures pp.bounds == Some(out.bounds)
    ensures pp.curve == Curve(Some(out.curve.x), Some(out.curve.y))
  {
    Preprocessed(Some(Sample(out.segment.columns, recordsOf(out.segment))), Some(out.bounds),
                 Curve(Some(out.curve.x), Some(out.curve.y)))
  }

  /**
   * preprocess: 400 unless the project has data and a target (from the
   * request or the project); otherwise run the pipeline on the sampled
   * target column, mark the project preprocessed and set `preprocess` in the
   * snapshot.
   */
  method RunPreprocess(store: ProjectStore, id: string, payload: Payload, sampler: Sampler,
                       frameOf: seq<Record> -> Preprocess.Frame, recordsOf: Preprocess.Frame -> seq<Record>,
                       fill: Preprocess.Frame -> Preprocess.Frame) returns (resp: Response)
    modifies store
    ensures var items, i := old(store.Items()), FirstIndex(old(store.Items()), id);
            if !HasDataAt(items, i) || ChosenTarget(payload.target, items[i]).None? then
              resp == (if !HasDataAt(items, i) then BadRequest(NoData) else BadRequest(NoTarget)) &&
              store.file == old(store.file) && store.snapshots == old(store.snapshots)
            else
              var target := ChosenTarget(payload.target, items[i]).value;
              var df := frameOf(sampler(DataPath(items[i]).value, [target]).records);
              var out := Preprocess.PreprocessPipeline(df, target, payload.ppMethod.GetOr(DefaultPPMethod), fill);
              var pp := PreprocessEntry(out, recordsOf);
              resp == Processed(pp) &&
              store.file == Stored(items[i := Merged(items[i], PreprocessFields())]) &&
              store.snapshots == old(store.snapshots)[id := PreprocessedSnap(Current(old(store.snapshots), id), pp)]
  {
    var project := store.GetProject(id);
    if project.None? || DataPath(project.value).None? {
      return BadRequest(NoData);
    }
    var target := ChosenTarget(payload.target, project.value);
    var ppMethod := payload.ppMethod.GetOr(DefaultPPMethod);
    if target.None? {
      return BadRequest(NoTarget);
    }
    var info := sampler(DataPath(project.value).value, [target.value]);
    var df := frameOf(info.records);
    var out := Preprocess.PreprocessPipeline(df, target.value, ppMethod, fill);
    var pp := PreprocessEntry(out, recordsOf);
    var _ := store.UpdateProject(id, PreprocessFields());
    var loaded := store.LoadSnapshot(id);
    var snap := loaded.GetOr(Empty);
    snap := PreprocessedSnap(snap, pp);
    store.SaveSnapshot(id, snap);
    return Processed(pp);
  }

  /** The training parameters of a request: model, window, horizon and epochs with the route's defaults. */
  function TrainParams(payload: Payload): (cfg: TfModels.ModelConfig)
    ensures payload.model.None? ==> cfg.modelType == "mlp"
    ensures payload.window.None? ==> cfg.window == 32
    ensures payload.horizon.None? ==> cfg.horizon == 12
    ensures payload.epochs.None? ==> cfg.epochs == 5
    ensures payload.model.Some? ==> cfg.modelType == payload.model.value
    ensures payload.window.Some? ==> cfg.window == payload.window.value
    ensures payload.horizon.Some? ==> cfg.horizon == payload.horizon.value
    ensures payload.epochs.Some? ==> cfg.epochs == payload.epochs.value
    ensures cfg.batchSize == TfModels.DefaultBatchSize && cfg.learningRate == TfModels.DefaultLearningRate
  {
    TfModels.NewConfig(payload.model.GetOr(DefaultModel), payload.window.GetOr(DefaultWindow),
                       payload.horizon.GetOr(DefaultHorizon), Some(payload.epochs.GetOr(DefaultEpochs)))
  }

  /** The `train` entry of the snapshot: loss, prediction and the parameters trained with. */
  function TrainEntry(cfg: TfModels.ModelConfig, out: TfModels.TrainOutput): Trained {
    Trained(Some(out.loss), out.prediction, Some(TrainCfg(cfg.modelType, cfg.window, cfg.horizon, cfg.epochs)))
  }

  /**
   * train: 400 unless the project has data and a target; otherwise train on
   * the target column; an error of training escapes before anything is
   * written; on success record model, horizon and status and set `train`
   * in the snapshot.
   */
  method RunTrain(store: ProjectStore, id: string, payload: Payload, readSeries: (string, string) -> seq<Float>,
                  learn: TfModels.Learner) returns (resp: Response)
    modifies store
    ensures var items, i := old(store.Items()), FirstIndex(old(store.Items()), id);
            if !HasDataAt(items, i) || ChosenTarget(payload.target, items[i]).None? then
              resp == (if !HasDataAt(items, i) then BadRequest(NoData) else BadRequest(NoTarget)) &&
              store.file == old(store.file) && store.snapshots == old(store.snapshots)
            else
              var target := ChosenTarget(payload.target, items[i]).value;
              var cfg := TrainParams(payload);
              var out := TfModels.TrainAndPredict(readSeries(DataPath(items[i]).value, target), cfg, learn);
              if out.Err? then
                resp == Raised(out.message) && store.file == old(store.file) && store.snapshots == old(store.snapshots)
              else
                resp == TrainDone(out.value.loss, out.value.prediction) &&
                store.file == Stored(items[i := Merged(items[i], TrainFields(cfg.modelType, cfg.horizon))]) &&
                store.snapshots == old(store.snapshots)[id := TrainedSnap(Current(old(store.snapshots), id), TrainEntry(cfg, out.value))]
  {
    var project := store.GetProject(id);
    if project.None? || DataPath(project.value).None? {
      return BadRequest(NoData);
    }
    var target := ChosenTarget(payload.target, project.value);
    var cfg := TrainParams(payload);
    if target.None? {
      return BadRequest(NoTarget);
    }
    var series := readSeries(DataPath(project.value).value, target.value);
    var out := TfModels.TrainAndPredict(series, cfg, learn);
    if out.Err? {
      return Raised(out.message);
    }
    var _ := store.UpdateProject(id, TrainFields(cfg.modelType, cfg.horizon));
    var loaded := store.LoadSnapshot(id);
    var snap := loaded.GetOr(Empty);
    snap := TrainedSnap(snap, TrainEntry(cfg, out.value));
    store.SaveSnapshot(id, snap);
    return TrainDone(out.value.loss, out.value.prediction);
  }
}
