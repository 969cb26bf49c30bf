/**
 * The per-symbol model lifecycle of server/train.py: artifact paths, loading,
 * training from scratch, fine-tuning and next-day prediction, over the data
 * directory (price caches) and the models directory (model and scaler files).
 */
module Train {
  import opened Results
  import opened Strings
  import opened Config
  import opened Utils

  // ---------------------------------------------------------------------------
  // The sequence model as a black box
  // ---------------------------------------------------------------------------

  /** The parameters of a sequence model, as saved in a symbol's .pt file. */
  datatype Params = Params(weights: seq<real>)

  /**
   * The network: fresh initial parameters, one full-batch optimiser step over
   * the training windows and targets, and a forward pass on one input window.
   */
  datatype Net = Net(
    init: Params,
    step: (Params, seq<seq<real>>, seq<real>) -> Params,
    forward: (Params, seq<real>) -> real)

  /** The parameters after `epochs` optimiser steps from `start` on one training set. */
  function Trained(net: Net, start: Params, xs: seq<seq<real>>, ys: seq<real>, epochs: nat): Params
  {
    if epochs == 0 then start else net.step(Trained(net, start, xs, ys, epochs - 1), xs, ys)
  }

  // ---------------------------------------------------------------------------
  // Artifact paths
  // ---------------------------------------------------------------------------

  function ModelPath(symbol: string): string
  {
    Upper(symbol) + ".pt"
  }

  function ScalerPath(symbol: string): string
  {
    Upper(symbol) + "_scaler.pkl"
  }

  /** get_model_paths: the model file and the scaler file of a symbol, both named after the upper-cased symbol. */
  function GetModelPaths(symbol: string): (paths: (string, string))
    ensures EndsWith(paths.0, ".pt") && paths.0[..|paths.0| - 3] == Upper(symbol)
    ensures EndsWith(paths.1, "_scaler.pkl") && paths.1[..|paths.1| - 11] == Upper(symbol)
  {
    (ModelPath(symbol), ScalerPath(symbol))
  }

  /** Two symbols share their artifact files exactly when they agree after upper-casing. */
  lemma SamePathsIffSameUpper(a: string, b: string)
    ensures GetModelPaths(a) == GetModelPaths(b) <==> Upper(a) == Upper(b)
  {
    var pa, pb := GetModelPaths(a), GetModelPaths(b);
    if pa == pb {
      assert Upper(a) == pa.0[..|pa.0| - 3] == pb.0[..|pb.0| - 3] == Upper(b);
    }
  }

  /** "aapl" and "AAPL" name the same files. */
  lemma LowerAndUpperShareArtifacts()
    ensures GetModelPaths("aapl") == GetModelPaths("AAPL")
  {
    assert Upper("aapl") == "AAPL";
    assert Upper("AAPL") == "AAPL";
  }

  /** A model file is never a scaler file. */
  lemma ModelAndScalerPathsDiffer(a: string, b: string)
    ensures ModelPath(a) != ScalerPath(b)
  {
    var m, s := ModelPath(a), ScalerPath(b);
    assert m[|m| - 1] == 't';
    assert s[|s| - 1] == 'l';
  }

  lemma PathsDetermineSymbol()
    ensures forall a, b :: ModelPath(a) == ModelPath(b) ==> Upper(a) == Upper(b)
    ensures forall a, b :: ScalerPath(a) == ScalerPath(b) ==> Upper(a) == Upper(b)
  {
    forall a, b | ModelPath(a) == ModelPath(b) ensures Upper(a) == Upper(b) {
      SamePathsIffSameUpper(a, b);
    }
    forall a, b | ScalerPath(a) == ScalerPath(b) ensures Upper(a) == Upper(b) {
      SamePathsIffSameUpper(a, b);
    }
  }

  // ---------------------------------------------------------------------------
  // The files on disk and loading an artifact
  // ---------------------------------------------------------------------------

  /** A snapshot of both directories: price caches, model files and scaler files. */
  datatype Files = Files(
    caches: map<string, seq<Row>>,
    models: map<string, Params>,
    scalers: map<string, Scaler>)

  /** What a call sees of the outside world: the quote source (with today's date) and the network. */
  datatype Env = Env(remote: Remote, net: Net)

  datatype Artifact = Artifact(model: Params, scaler: Scaler)

  /** The models directory: model files and scaler files keyed by file name. */
  class ModelsDir {
    var models: map<string, Params>
    var scalers: map<string, Scaler>

    constructor ()
      ensures models == map[] && scalers == map[]
    {
      models, scalers := map[], map[];
    }
  }

  function Snapshot(data: DataDir, dir: ModelsDir): Files
    reads data, dir
  {
    Files(data.caches, dir.models, dir.scalers)
  }

  /**
   * load_model: absent exactly when the model file is missing; a model file
   * without its scaler file is an error, not an absent artifact.
   */
  function LoadModel(models: map<string, Params>, scalers: map<string, Scaler>, symbol: string)
    : (r: Result<Option<Artifact>>)
    ensures r == Ok(None) <==> ModelPath(symbol) !in models
    ensures r.Err? <==> ModelPath(symbol) in models && ScalerPath(symbol) !in scalers
    ensures r.Ok? && r.value.Some? ==>
      r.value.value == Artifact(models[ModelPath(symbol)], scalers[ScalerPath(symbol)])
  {
    var (modelPath, scalerPath) := GetModelPaths(symbol);
    if modelPath !in models then Ok(None)
    else if scalerPath !in scalers then Err(ScalerMissing(scalerPath))
    else Ok(Some(Artifact(models[modelPath], scalers[scalerPath])))
  }

  /** Neither the cache nor the artifact of any symbol other than `symbol` differs between two snapshots. */
  ghost predicate OthersUntouched(before: Files, after: Files, symbol: string)
  {
    forall s :: Upper(s) != Upper(symbol) ==>
      && LoadModel(after.models, after.scalers, s) == LoadModel(before.models, before.scalers, s)
      && CacheOf(after.caches, Upper(s)) == CacheOf(before.caches, Upper(s))
  }

  /** Python's prices[-n:] for n > 0: the last n values, or all of them when there are fewer. */
  function LastN(s: seq<real>, n: nat): (r: seq<real>)
    requires n > 0
    ensures |r| == if |s| < n then |s| else n
    ensures r == s[|s| - |r|..]
  {
    if |s| <= n then s else s[|s| - n..]
  }

  /** Writing one symbol's cache, model file and scaler file touches no other symbol. */
  lemma WriteOthersUntouched(fs: Files, symbol: string, rows: seq<Row>, model: Params, scaler: Scaler)
    ensures OthersUntouched(fs, Files(fs.caches[Upper(symbol) := rows],
                                      fs.models[ModelPath(symbol) := model],
                                      fs.scalers[ScalerPath(symbol) := scaler]), symbol)
    ensures OthersUntouched(fs, Files(fs.caches[Upper(symbol) := rows],
                                      fs.models[ModelPath(symbol) := model],
                                      fs.scalers), symbol)
    ensures OthersUntouched(fs, fs.(caches := fs.caches[Upper(symbol) := rows]), symbol)
  {
    PathsDetermineSymbol();
  }

  // ---------------------------------------------------------------------------
  // Specification of the three operations
  // ---------------------------------------------------------------------------

  /**
   * train_new_stock: fetch, fit a fresh scaler on the last NORMALIZE_DAYS
   * prices, window, run `epochs` steps from fresh parameters, then write the
   * model file and the scaler file of the symbol.
   */
  function TrainNew(fs: Files, env: Env, symbol: string, epochs: nat): (r: (Files, Result<Params>))
    ensures var fetched := FetchRows(fs.caches, env.remote, symbol, DEFAULT_PERIOD);
      && (r.1.Ok? <==> fetched.Ok?)
      && (fetched.Err? ==> r == (fs, Err(fetched.error)))
      && (fetched.Ok? ==> r.0.caches == fs.caches[Upper(symbol) := fetched.value])
    ensures r.1.Ok? ==> LoadModel(r.0.models, r.0.scalers, symbol).Ok?
    ensures r.1.Ok? ==>
      && ScalerPath(symbol) in r.0.scalers
      && LoadModel(r.0.models, r.0.scalers, symbol).value == Some(Artifact(r.1.value, r.0.scalers[ScalerPath(symbol)]))
    ensures r.1.Ok? ==>
      && Upper(symbol) in r.0.caches && r.0.caches[Upper(symbol)] != []
      && var rows := r.0.caches[Upper(symbol)];
         var fitted := r.0.scalers[ScalerPath(symbol)];
         var toScale := LastN(Prices(rows), NORMALIZE_DAYS);
         && fitted.dataMin in toScale && fitted.dataMax in toScale
         && (forall x :: x in toScale ==> fitted.dataMin <= x <= fitted.dataMax)
         && var norm := Transform(fitted, toScale);
            r.1.value == Trained(env.net, env.net.init, Windows(norm, SEQ_LENGTH), Targets(norm, SEQ_LENGTH), epochs)
    ensures OthersUntouched(fs, r.0, symbol)
  {
    var fetched := FetchRows(fs.caches, env.remote, symbol, DEFAULT_PERIOD);
    if fetched.Err? then (fs, Err(fetched.error))
    else
      var rows := fetched.value;
      var pricesToScale := LastN(Prices(rows), NORMALIZE_DAYS);
      var (pricesNorm, scaler) := NormalizeData(pricesToScale, None);
      assert pricesNorm == Transform(scaler, pricesToScale);
      var model := Trained(env.net, env.net.init, Windows(pricesNorm, SEQ_LENGTH), Targets(pricesNorm, SEQ_LENGTH), epochs);
      WriteOthersUntouched(fs, symbol, rows, model, scaler);
      (Files(fs.caches[Upper(symbol) := rows],
             fs.models[ModelPath(symbol) := model],
             fs.scalers[ScalerPath(symbol) := scaler]),
       Ok(model))
  }

  /**
   * update_stock_model: without a model file, exactly train_new_stock with
   * EPOCHS_NEW; otherwise normalise with the stored scaler, continue training
   * the stored parameters for `epochs` steps and rewrite only the model file.
   */
  function UpdateModel(fs: Files, env: Env, symbol: string, epochs: nat): (r: (Files, Result<Params>))
    ensures r.1.Err? ==> r.0 == fs
    ensures var fetched := FetchRows(fs.caches, env.remote, symbol, DEFAULT_PERIOD);
      && (r.1.Ok? <==> (ModelPath(symbol) in fs.models ==> ScalerPath(symbol) in fs.scalers) && fetched.Ok?)
      && (r.1.Ok? ==> r.0.caches == fs.caches[Upper(symbol) := fetched.value])
    ensures ModelPath(symbol) in fs.models && ScalerPath(symbol) !in fs.scalers ==>
      r.1 == Err(ScalerMissing(ScalerPath(symbol)))
    ensures var fetched := FetchRows(fs.caches, env.remote, symbol, DEFAULT_PERIOD);
      ModelPath(symbol) in fs.models && ScalerPath(symbol) in fs.scalers && fetched.Err? ==> r.1 == Err(fetched.error)
    ensures ModelPath(symbol) !in fs.models ==> r == TrainNew(fs, env, symbol, EPOCHS_NEW)
    ensures ModelPath(symbol) in fs.models ==> r.0.scalers == fs.scalers
    ensures ModelPath(symbol) in fs.models && r.1.Ok? ==>
      && ScalerPath(symbol) in fs.scalers && Upper(symbol) in r.0.caches && r.0.caches[Upper(symbol)] != []
      && var rows := r.0.caches[Upper(symbol)];
         var norm := Transform(fs.scalers[ScalerPath(symbol)], LastN(Prices(rows), NORMALIZE_DAYS));
         && r.1.value == Trained(env.net, fs.models[ModelPath(symbol)], Windows(norm, SEQ_LENGTH), Targets(norm, SEQ_LENGTH), epochs)
         && r.0.models == fs.models[ModelPath(symbol) := r.1.value]
    ensures OthersUntouched(fs, r.0, symbol)
  {
    match LoadModel(fs.models, fs.scalers, symbol)
    case Err(e) => (fs, Err(e))
    case Ok(None) => TrainNew(fs, env, symbol, EPOCHS_NEW)
    case Ok(Some(artifact)) =>
      var fetched := FetchRows(fs.caches, env.remote, symbol, DEFAULT_PERIOD);
      if fetched.Err? then (fs, Err(fetched.error))
      else
        var rows := fetched.value;
        var pricesToScale := LastN(Prices(rows), NORMALIZE_DAYS);
        var (pricesNorm, _) := NormalizeData(pricesToScale, Some(artifact.scaler));
        assert pricesNorm == Transform(artifact.scaler, pricesToScale);
        var model := Trained(env.net, artifact.model, Windows(pricesNorm, SEQ_LENGTH), Targets(pricesNorm, SEQ_LENGTH), epochs);
        WriteOthersUntouched(fs, symbol, rows, model, artifact.scaler);
        (Files(fs.caches[Upper(symbol) := rows], fs.models[ModelPath(symbol) := model], fs.scalers), Ok(model))
  }

  /** The response of a prediction. */
  datatype Prediction = Prediction(symbol: string, currentPrice: real, nextDayPrediction: real)

  /** The last SEQ_LENGTH normalised prices, or None when there are fewer. */
  function LastWindow(norm: seq<real>): (w: Option<seq<real>>)
    ensures w.None? <==> |norm| < SEQ_LENGTH
    ensures w.Some? ==> |w.value| == SEQ_LENGTH && norm == norm[..|norm| - SEQ_LENGTH] + w.value
  {
    if |norm| < SEQ_LENGTH then None else Some(norm[|norm| - SEQ_LENGTH..])
  }

  /**
   * A prediction made from the cache of `symbol` in `files`: the current price
   * is the last raw close, and the forecast is the scaler's inverse of the
   * model's output on the last SEQ_LENGTH normalised prices.
   */
  ghost predicate ForecastFrom(files: Files, env: Env, symbol: string, model: Params, scaler: Scaler, p: Prediction)
  {
    && p.symbol == symbol
    && Upper(symbol) in files.caches && files.caches[Upper(symbol)] != []
    && var rows := files.caches[Upper(symbol)];
       var norm := Transform(scaler, LastN(Prices(rows), NORMALIZE_DAYS));
       && |norm| >= SEQ_LENGTH
       && p.currentPrice == rows[|rows| - 1].price
       && p.nextDayPrediction == scaler.Invert(env.net.forward(model, norm[|norm| - SEQ_LENGTH..]))
  }

  /** The part of predict_next_day after the model and scaler are known: fetch, normalise, check, forecast. */
  function Forecast(fs: Files, env: Env, symbol: string, model: Params, scaler: Scaler): (r: (Files, Result<Prediction>))
    ensures var fetched := FetchRows(fs.caches, env.remote, symbol, DEFAULT_PERIOD);
      && (fetched.Err? ==> r == (fs, Err(fetched.error)))
      && (fetched.Ok? ==> r.0 == fs.(caches := fs.caches[Upper(symbol) := fetched.value]))
      && (r.1.Ok? <==> fetched.Ok? && |fetched.value| >= SEQ_LENGTH)
      && (fetched.Ok? && |fetched.value| < SEQ_LENGTH ==> r.1 == Err(NotEnoughData(symbol)))
    ensures r.1.Ok? ==> ForecastFrom(r.0, env, symbol, model, scaler, r.1.value)
  {
    var fetched := FetchRows(fs.caches, env.remote, symbol, DEFAULT_PERIOD);
    if fetched.Err? then (fs, Err(fetched.error))
    else
      var rows := fetched.value;
      var after := fs.(caches := fs.caches[Upper(symbol) := rows]);
      var pricesRaw := Prices(rows);
      var (pricesNorm, _) := NormalizeData(LastN(pricesRaw, NORMALIZE_DAYS), Some(scaler));
      var window := LastWindow(pricesNorm);
      if window.None? then (after, Err(NotEnoughData(symbol)))
      else
        var predicted := scaler.Invert(env.net.forward(model, window.value));
        (after, Ok(Prediction(symbol, pricesRaw[|pricesRaw| - 1], predicted)))
  }

  /** The canonical form predict_next_day gives a symbol: upper-cased, then stripped. */
  function Canonical(symbol: string): string
  {
    Strip(Upper(symbol), IsPySpace)
  }

  /**
   * The canonical symbol is already upper case, so the upper-casing inside
   * get_model_paths leaves it as it is: its files are named after it verbatim.
   */
  lemma CanonicalIsUpper(symbol: string)
    ensures Upper(Canonical(symbol)) == Canonical(symbol)
    ensures GetModelPaths(Canonical(symbol)) == (Canonical(symbol) + ".pt", Canonical(symbol) + "_scaler.pkl")
  {
    StripKeepsNoLower(Upper(symbol), IsPySpace);
    UpperOfUpper(Canonical(symbol));
  }

  /**
   * predict_next_day: bootstrap a model when none exists, then forecast with
   * the stored scaler. A successful prediction is the stored scaler's inverse
   * of the stored model's output on the last SEQ_LENGTH normalised prices of
   * the stored cache, and its current price is the cache's last raw close.
   */
  function PredictNext(fs: Files, env: Env, symbol: string): (r: (Files, Result<Prediction>))
    ensures var sym := Canonical(symbol);
      r.1.Ok? ==>
        && LoadModel(r.0.models, r.0.scalers, sym).Ok?
        && LoadModel(r.0.models, r.0.scalers, sym).value.Some?
        && var a := LoadModel(r.0.models, r.0.scalers, sym).value.value;
           ForecastFrom(r.0, env, sym, a.model, a.scaler, r.1.value)
    ensures var sym := Canonical(symbol);
      ModelPath(sym) in fs.models && ScalerPath(sym) !in fs.scalers ==> r == (fs, Err(ScalerMissing(ScalerPath(sym))))
    ensures var sym := Canonical(symbol);
      ModelPath(sym) in fs.models && ScalerPath(sym) in fs.scalers ==>
        r == Forecast(fs, env, sym, fs.models[ModelPath(sym)], fs.scalers[ScalerPath(sym)])
    ensures var sym := Canonical(symbol);
      var trained := TrainNew(fs, env, sym, EPOCHS_NEW);
      ModelPath(sym) !in fs.models ==>
        && (trained.1.Err? ==> r == (fs, Err(trained.1.error)))
        && (trained.1.Ok? ==> r == Forecast(trained.0, env, sym, trained.1.value, trained.0.scalers[ScalerPath(sym)]))
  {
    var sym := Canonical(symbol);
    match LoadModel(fs.models, fs.scalers, sym)
    case Err(e) => (fs, Err(e))
    case Ok(Some(artifact)) => Forecast(fs, env, sym, artifact.model, artifact.scaler)
    case Ok(None) =>
      var (trainedFiles, trained) := TrainNew(fs, env, sym, EPOCHS_NEW);
      if trained.Err? then (trainedFiles, Err(trained.error))
      else
        var reloaded := LoadModel(trainedFiles.models, trainedFiles.scalers, sym);
        Forecast(trainedFiles, env, sym, trained.value, reloaded.value.value.scaler)
  }

  // ---------------------------------------------------------------------------
  // The operations, step by step, over the two directories
  // ---------------------------------------------------------------------------

  /** The epoch loop: `epochs` optimiser steps on one training set, from `start`. */
  method RunEpochs(net: Net, start: Params, xs: seq<seq<real>>, ys: seq<real>, epochs: nat) returns (model: Params)
    ensures model == Trained(net, start, xs, ys, epochs)
  {
    model := start;
    for epoch := 0 to epochs
      invariant model == Trained(net, start, xs, ys, epoch)
    {
      model := net.step(model, xs, ys);
    }
  }

  /** TrainNew once the fetch has succeeded, written out. */
  lemma TrainNewAfterFetch(fs: Files, env: Env, symbol: string, epochs: nat)
    requires FetchRows(fs.caches, env.remote, symbol, DEFAULT_PERIOD).Ok?
    ensures var rows := FetchRows(fs.caches, env.remote, symbol, DEFAULT_PERIOD).value;
      var normalized := NormalizeData(LastN(Prices(rows), NORMALIZE_DAYS), None);
      var model := Trained(env.net, env.net.init, Windows(normalized.0, SEQ_LENGTH), Targets(normalized.0, SEQ_LENGTH), epochs);
      TrainNew(fs, env, symbol, epochs)
        == (Files(fs.caches[Upper(symbol) := rows], fs.models[ModelPath(symbol) := model], fs.scalers[ScalerPath(symbol) := normalized.1]),
            Ok(model))
  {
  }

  /** UpdateModel on an existing artifact once the fetch has succeeded, written out. */
  lemma UpdateAfterFetch(fs: Files, env: Env, symbol: string, epochs: nat)
    requires LoadModel(fs.models, fs.scalers, symbol).Ok? && LoadModel(fs.models, fs.scalers, symbol).value.Some?
    requires FetchRows(fs.caches, env.remote, symbol, DEFAULT_PERIOD).Ok?
    ensures var artifact := LoadModel(fs.models, fs.scalers, symbol).value.value;
      var rows := FetchRows(fs.caches, env.remote, symbol, DEFAULT_PERIOD).value;
      var normalized := NormalizeData(LastN(Prices(rows), NORMALIZE_DAYS), Some(artifact.scaler));
      var model := Trained(env.net, artifact.model, Windows(normalized.0, SEQ_LENGTH), Targets(normalized.0, SEQ_LENGTH), epochs);
      UpdateModel(fs, env, symbol, epochs)
        == (Files(fs.caches[Upper(symbol) := rows], fs.models[ModelPath(symbol) := model], fs.scalers), Ok(model))
  {
  }

  /** train_new_stock */
  method TrainNewStock(data: DataDir, dir: ModelsDir, env: Env, symbol: string, epochs: nat)
    returns (r: Result<Params>)
    modifies data, dir
    ensures (Snapshot(data, dir), r) == TrainNew(old(Snapshot(data, dir)), env, symbol, epochs)
  {
    var pricesRaw := FetchStockData(data, env.remote, symbol, DEFAULT_PERIOD, true);
    if pricesRaw.Err? {
      return Err(pricesRaw.error);
    }
    var pricesToScale := LastN(pricesRaw.value, NORMALIZE_DAYS);
    var (pricesNorm, scaler) := NormalizeData(pricesToScale, None);
    var xs, ys := CreateSequences(pricesNorm, SEQ_LENGTH);
    var model := RunEpochs(env.net, env.net.init, xs, ys, epochs);
    var (modelPath, scalerPath) := GetModelPaths(symbol);
    dir.models := dir.models[modelPath := model];
    dir.scalers := dir.scalers[scalerPath := scaler];
    r := Ok(model);
    TrainNewAfterFetch(old(Snapshot(data, dir)), env, symbol, epochs);
  }

  /** update_stock_model; the `epochs` argument is not passed on when it falls back to train_new_stock. */
  method UpdateStockModel(data: DataDir, dir: ModelsDir, env: Env, symbol: string, epochs: nat)
    returns (r: Result<Params>)
    modifies data, dir
    ensures (Snapshot(data, dir), r) == UpdateModel(old(Snapshot(data, dir)), env, symbol, epochs)
  {
    var loaded := LoadModel(dir.models, dir.scalers, symbol);
    if loaded.Err? {
      return Err(loaded.error);
    }
    if loaded.value.None? {
      r := TrainNewStock(data, dir, env, symbol, EPOCHS_NEW);
      return;
    }
    var model, scaler := loaded.value.value.model, loaded.value.value.scaler;
    var pricesRaw := FetchStockData(data, env.remote, symbol, DEFAULT_PERIOD, true);
    if pricesRaw.Err? {
      return Err(pricesRaw.error);
    }
    var pricesToScale := LastN(pricesRaw.value, NORMALIZE_DAYS);
    var (pricesNorm, _) := NormalizeData(pricesToScale, Some(scaler));
    var xs, ys := CreateSequences(pricesNorm, SEQ_LENGTH);
    model := RunEpochs(env.net, model, xs, ys, epochs);
    var (modelPath, _) := GetModelPaths(symbol);
    dir.models := dir.models[modelPath := model];
    r := Ok(model);
    UpdateAfterFetch(old(Snapshot(data, dir)), env, symbol, epochs);
  }

  /** predict_next_day */
  method PredictNextDay(data: DataDir, dir: ModelsDir, env: Env, symbol: string)
    returns (r: Result<Prediction>)
    modifies data, dir
    ensures (Snapshot(data, dir), r) == PredictNext(old(Snapshot(data, dir)), env, symbol)
  {
    var sym := Canonical(symbol);
    var loaded := LoadModel(dir.models, dir.scalers, sym);
    if loaded.Err? {
      return Err(loaded.error);
    }
    var model: Params, scaler: Scaler;
    if loaded.value.None? {
      var trained := TrainNewStock(data, dir, env, sym, EPOCHS_NEW);
      if trained.Err? {
        return Err(trained.error);
      }
      model := trained.value;
      var reloaded := LoadModel(dir.models, dir.scalers, sym);
      scaler := reloaded.value.value.scaler;
    } else {
      model, scaler := loaded.value.value.model, loaded.value.value.scaler;
    }
    ghost var before := Snapshot(data, dir);
    var pricesRaw := FetchStockData(data, env.remote, sym, DEFAULT_PERIOD, true);
    if pricesRaw.Err? {
      return Err(pricesRaw.error);
    }
    var pricesToScale := LastN(pricesRaw.value, NORMALIZE_DAYS);
    var (pricesNorm, _) := NormalizeData(pricesToScale, Some(scaler));
    if |pricesNorm| < SEQ_LENGTH {
      return Err(NotEnoughData(sym));
    }
    var lastSeq := pricesNorm[|pricesNorm| - SEQ_LENGTH..];
    var predicted := scaler.Invert(env.net.forward(model, lastSeq));
    var currentPrice := pricesRaw.value[|pricesRaw.value| - 1];
    r := Ok(Prediction(sym, currentPrice, predicted));
    assert (Snapshot(data, dir), r) == Forecast(before, env, sym, model, scaler);
  }

  // ---------------------------------------------------------------------------
  // Invariants of the directories
  // ---------------------------------------------------------------------------

  /**
   * The state the server's own writes keep: clean caches, and every model
   * file accompanied by its scaler file and its price cache.
   */
  ghost predicate FilesValid(fs: Files)
  {
    && CachesValid(fs.caches)
    && forall s :: ModelPath(s) in fs.models ==> ScalerPath(s) in fs.scalers && Upper(s) in fs.caches
  }

  /** In a valid store loading never fails: the missing-scaler error cannot arise from the server's own writes. */
  lemma LoadNeverFailsWhenValid(fs: Files, symbol: string)
    requires FilesValid(fs)
    ensures LoadModel(fs.models, fs.scalers, symbol).Ok?
  {
  }

  lemma TrainNewKeepsValid(fs: Files, env: Env, symbol: string, epochs: nat)
    requires FilesValid(fs)
    ensures FilesValid(TrainNew(fs, env, symbol, epochs).0)
  {
    var r := TrainNew(fs, env, symbol, epochs);
    if r.1.Ok? {
      FetchKeepsCachesValid(fs.caches, env.remote, symbol, DEFAULT_PERIOD);
      PathsDetermineSymbol();
    }
  }

  lemma UpdateKeepsValid(fs: Files, env: Env, symbol: string, epochs: nat)
    requires FilesValid(fs)
    ensures FilesValid(UpdateModel(fs, env, symbol, epochs).0)
  {
    if ModelPath(symbol) !in fs.models {
      TrainNewKeepsValid(fs, env, symbol, EPOCHS_NEW);
    } else if UpdateModel(fs, env, symbol, epochs).1.Ok? {
      FetchKeepsCachesValid(fs.caches, env.remote, symbol, DEFAULT_PERIOD);
    }
  }

  lemma ForecastKeepsValid(fs: Files, env: Env, symbol: string, model: Params, scaler: Scaler)
    requires FilesValid(fs)
    ensures FilesValid(Forecast(fs, env, symbol, model, scaler).0)
  {
    if FetchRows(fs.caches, env.remote, symbol, DEFAULT_PERIOD).Ok? {
      FetchKeepsCachesValid(fs.caches, env.remote, symbol, DEFAULT_PERIOD);
    }
  }

  lemma PredictKeepsValid(fs: Files, env: Env, symbol: string)
    requires FilesValid(fs)
    ensures FilesValid(PredictNext(fs, env, symbol).0)
  {
    var sym := Canonical(symbol);
    var loaded := LoadModel(fs.models, fs.scalers, sym);
    if loaded.Ok? && loaded.value.Some? {
      ForecastKeepsValid(fs, env, sym, loaded.value.value.model, loaded.value.value.scaler);
    } else if loaded.Ok? {
      var (trainedFiles, trained) := TrainNew(fs, env, sym, EPOCHS_NEW);
      TrainNewKeepsValid(fs, env, sym, EPOCHS_NEW);
      if trained.Ok? {
        var reloaded := LoadModel(trainedFiles.models, trainedFiles.scalers, sym);
        ForecastKeepsValid(trainedFiles, env, sym, trained.value, reloaded.value.value.scaler);
      }
    }
  }

  /**
   * In a valid store an update fails exactly when the symbol has neither a
   * cache nor any rows for the default period at the remote source.
   */
  lemma UpdateFailsOnlyWithoutData(fs: Files, env: Env, symbol: string, epochs: nat)
    requires FilesValid(fs)
    ensures UpdateModel(fs, env, symbol, epochs).1.Err?
      <==> Upper(symbol) !in fs.caches && env.remote.download(Upper(symbol), Trailing(DEFAULT_PERIOD)) == []
  {
    FetchFailsOnlyWithoutData(fs.caches, env.remote, symbol, DEFAULT_PERIOD);
  }

  /**
   * Once a symbol has a model in a valid store, a prediction fails exactly when
   * its merged history has fewer than SEQ_LENGTH rows, and then with NotEnoughData.
   */
  lemma PredictNeedsSeqLengthRows(fs: Files, env: Env, symbol: string)
    requires FilesValid(fs)
    requires ModelPath(Canonical(symbol)) in fs.models
    ensures var sym := Canonical(symbol);
      var r := PredictNext(fs, env, symbol);
      && Upper(sym) in r.0.caches
      && (r.1.Err? <==> |r.0.caches[Upper(sym)]| < SEQ_LENGTH)
      && (r.1.Err? ==> r.1.error == NotEnoughData(sym))
  {
    var sym := Canonical(symbol);
    FetchFailsOnlyWithoutData(fs.caches, env.remote, sym, DEFAULT_PERIOD);
    var rows := FetchRows(fs.caches, env.remote, sym, DEFAULT_PERIOD).value;
    assert |Prices(rows)| == |rows|;
  }
}
