/**
 * Forecasting models: the training set of sliding windows, the choice of
 * network by name, and the guards and last-window input of training.  Model
 * building, fitting and prediction are a function parameter.
 */
module TfModels {
  import opened Wrappers
  import opened Py

  /** ModelConfig: model type (mlp | cnn | rnn), window, horizon, epochs, batch size, learning rate. */
  datatype ModelConfig = ModelConfig(modelType: string, window: int, horizon: int,
                                     epochs: int, batchSize: int, learningRate: real)

  const DefaultEpochs: int := 10
  const DefaultBatchSize: int := 32
  const DefaultLearningRate: real := 0.001

  /** ModelConfig(model_type, window, horizon[, epochs]): the unspecified fields take their defaults. */
  function NewConfig(modelType: string, window: int, horizon: int, epochs: Option<int>): (cfg: ModelConfig)
    ensures cfg.modelType == modelType && cfg.window == window && cfg.horizon == horizon
    ensures cfg.epochs == (if epochs.Some? then epochs.value else 10)
    ensures cfg.batchSize == 32 && cfg.learningRate == 0.001
  {
    ModelConfig(modelType, window, horizon, epochs.GetOr(DefaultEpochs), DefaultBatchSize, DefaultLearningRate)
  }

  /** The number of samples make_dataset produces: len(range(0, n - window - horizon + 1)). */
  function SampleCount(n: nat, window: int, horizon: int): nat {
    if n - window - horizon + 1 > 0 then n - window - horizon + 1 else 0
  }

  /** The inputs: series[i:i+window] for each sample i. */
  function Inputs(series: seq<Float>, window: int, horizon: int): (xs: seq<seq<Float>>)
    ensures |xs| == SampleCount(|series|, window, horizon)
  {
    seq(SampleCount(|series|, window, horizon), i => Slice(series, i, i + window))
  }

  /** The targets: series[i+window:i+window+horizon] for each sample i. */
  function Targets(series: seq<Float>, window: int, horizon: int): (ys: seq<seq<Float>>)
    ensures |ys| == SampleCount(|series|, window, horizon)
  {
    seq(SampleCount(|series|, window, horizon), i => Slice(series, i + window, i + window + horizon))
  }

  /** make_dataset(series, window, horizon): one input window and one target window per sample. */
  method MakeDataset(series: seq<Float>, window: int, horizon: int) returns (X: seq<seq<Float>>, y: seq<seq<Float>>)
    ensures X == Inputs(series, window, horizon) && y == Targets(series, window, horizon)
  {
    X, y := [], [];
    var count := |series| - window - horizon + 1;
    ghost var inputs, targets := Inputs(series, window, horizon), Targets(series, window, horizon);
    var i := 0;
    while i < count
      invariant 0 <= i <= |inputs| == |targets|
      invariant X == inputs[..i] && y == targets[..i]
    {
      X := X + [Slice(series, i, i + window)];
      y := y + [Slice(series, i + window, i + window + horizon)];
      assert inputs[..i + 1] == inputs[..i] + [inputs[i]];
      assert targets[..i + 1] == targets[..i] + [targets[i]];
      i := i + 1;
    }
    assert inputs[..i] == inputs && targets[..i] == targets;
  }

  /**
   * With a non-negative window and horizon, sample i is exactly the window
   * series[i..i+window] followed by the horizon after it, so every input has
   * length window and every target length horizon.
   */
  lemma {:induction false} DatasetWindows(series: seq<Float>, window: int, horizon: int)
    requires window >= 0 && horizon >= 0
    ensures var X, y := Inputs(series, window, horizon), Targets(series, window, horizon);
            forall i :: 0 <= i < |X| ==>
              X[i] == series[i..i + window] && |X[i]| == window &&
              y[i] == series[i + window..i + window + horizon] && |y[i]| == horizon
  {
    var X, y := Inputs(series, window, horizon), Targets(series, window, horizon);
    forall i | 0 <= i < |X|
      ensures X[i] == series[i..i + window] && y[i] == series[i + window..i + window + horizon]
    {
      SliceInside(series, i, i + window);
      SliceInside(series, i + window, i + window + horizon);
    }
  }

  /** The three architectures build_model knows. */
  datatype Architecture = Mlp | Cnn | Rnn

  /** A compiled, untrained network: its architecture, input window, output horizon and learning rate. */
  datatype Network = Network(arch: Architecture, window: int, horizon: int, learningRate: real)

  /** build_model(cfg): the architecture named by model_type; any other name raises ValueError. */
  function BuildModel(cfg: ModelConfig): (r: Result<Network>)
    ensures r.Ok? <==> cfg.modelType == "mlp" || cfg.modelType == "cnn" || cfg.modelType == "rnn"
    ensures r.Ok? ==> r.value.window == cfg.window && r.value.horizon == cfg.horizon &&
                      r.value.learningRate == cfg.learningRate
    ensures r.Ok? ==> (r.value.arch == Mlp <==> cfg.modelType == "mlp") &&
                      (r.value.arch == Cnn <==> cfg.modelType == "cnn") &&
                      (r.value.arch == Rnn <==> cfg.modelType == "rnn")
    ensures r.Err? ==> r.message == "unknown model_type"
  {
    if cfg.modelType == "mlp" then Ok(Network(Mlp, cfg.window, cfg.horizon, cfg.learningRate))
    else if cfg.modelType == "cnn" then Ok(Network(Cnn, cfg.window, cfg.horizon, cfg.learningRate))
    else if cfg.modelType == "rnn" then Ok(Network(Rnn, cfg.window, cfg.horizon, cfg.learningRate))
    else Err("unknown model_type")
  }

  /** What fitting on the samples and predicting from the last window yields. */
  datatype TrainOutput = TrainOutput(loss: real, prediction: seq<real>)

  /** The library call of training: the network, the samples, epochs, batch size and the input window to predict from. */
  type Learner = (Network, seq<seq<Float>>, seq<seq<Float>>, int, int, seq<Float>) -> TrainOutput

  const NotEnoughData: string := "Недостаточно данных для обучения"

  /** series[-cfg.window:]: the prediction input. */
  function LastWindow(series: seq<Float>, window: int): seq<Float> {
    SliceFrom(series, -window)
  }

  /**
   * train_and_predict(series, cfg): fewer than two samples raise; an unknown
   * model type raises; otherwise fit and predict from the last window.
   */
  function TrainAndPredict(series: seq<Float>, cfg: ModelConfig, learn: Learner): (r: Result<TrainOutput>)
    ensures SampleCount(|series|, cfg.window, cfg.horizon) < 2 ==> r == Err(NotEnoughData)
    ensures SampleCount(|series|, cfg.window, cfg.horizon) >= 2 ==> (r.Ok? <==> BuildModel(cfg).Ok?)
    ensures r.Ok? ==> r.value == learn(BuildModel(cfg).value, Inputs(series, cfg.window, cfg.horizon),
                                         Targets(series, cfg.window, cfg.horizon), cfg.epochs, cfg.batchSize,
                                         LastWindow(series, cfg.window))
  {
    var X, y := Inputs(series, cfg.window, cfg.horizon), Targets(series, cfg.window, cfg.horizon);
    if |X| < 2 then Err(NotEnoughData)
    else
      match BuildModel(cfg)
      case Err(e) => Err(e)
      case Ok(model) => Ok(learn(model, X, y, cfg.epochs, cfg.batchSize, LastWindow(series, cfg.window)))
  }

  /**
   * When training goes ahead with a positive window and a non-negative
   * horizon, the series is longer than the window, so the prediction input
   * is exactly its last window values; a window of 0 reads series[-0:],
   * the whole series.
   */
  lemma {:induction false} PredictionInput(series: seq<Float>, cfg: ModelConfig)
    requires SampleCount(|series|, cfg.window, cfg.horizon) >= 2 && cfg.horizon >= 0
    ensures cfg.window > 0 ==> cfg.window < |series| &&
                               LastWindow(series, cfg.window) == series[|series| - cfg.window..] &&
                               |LastWindow(series, cfg.window)| == cfg.window
    ensures cfg.window == 0 ==> LastWindow(series, cfg.window) == series
  {
    if cfg.window >= 0 {
      SliceLast(series, cfg.window);
    }
  }
}
