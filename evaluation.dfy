/**
 * The cross-validation evaluator: the loss of one score, the fold loop of
 * `evaluate` with its per-fold lists, the averaging of the losses and of the
 * named metrics, the test-set ensembling choice, and the record that
 * `__call__` assembles for the trial store.
 *
 * The splitter, the pipeline's `procedure`, `calculate_score` and the
 * `vote_predicts`/`mean_predicts` combiners are uninterpreted functions held by
 * the evaluator value. `procedure` (fitting and predicting, and reading
 * "pred_valid"/"pred_test" from its result) and `calculate_score` may raise,
 * and what they raise propagates out of `evaluate`; the splitter and the
 * combiners are total. Scores and losses are reals.
 */
module Evaluation {
  import opened Wrappers
  import opened Trials
  import Manager

  type Row = seq<real>

  /** A (train_index, valid_index) pair yielded by the splitter. */
  type Split = (IndexSet, IndexSet)

  /** `metric`: the scorer's name and `_optimum`. */
  datatype Scorer = Scorer(name: string, optimum: real)

  /** What `calculate_score` can return: a number, a dictionary of named metrics, or something else. */
  datatype Score = ScalarScore(value: real) | DictScore(metrics: Metrics) | OtherScore

  /** An entry a pipeline records in the intermediate-result list it is handed. */
  datatype IntermediateItem = IntermediateItem(name: string)

  /** The arguments `procedure` receives for one fold. */
  datatype FoldInput = FoldInput(
    task: string,
    xTrain: seq<Row>, yTrain: seq<real>,
    xValid: seq<Row>, yValid: seq<real>,
    xTest: Option<seq<Row>>, yTest: Option<seq<real>>)

  /** `procedure`'s result: "pred_valid", "pred_test", and what it appended to
      the intermediate-result list (ignored when no list was handed over). */
  datatype ProcedureResult = ProcedureResult(
    predValid: Prediction, predTest: Option<Prediction>, intermediate: seq<IntermediateItem>)

  /** A `TrainEvaluator` after `init_data`. `task` is `ml_task.mainTask`. */
  datatype TrainEvaluator = TrainEvaluator(
    task: string,
    metric: Scorer,
    storeIntermediate: bool,
    xTrain: seq<Row>, yTrain: seq<real>,
    xTest: Option<seq<Row>>, yTest: Option<seq<real>>,
    splitter: (seq<Row>, seq<real>) -> seq<Split>,
    procedure: (FittedPipeline, FoldInput, bool) -> Result<ProcedureResult, EvalError>,
    calculateScore: (seq<real>, Prediction) -> Result<Score, EvalError>,
    votePredicts: seq<Option<Prediction>> -> Prediction,
    meanPredicts: seq<Option<Prediction>> -> Prediction)

  /** The exceptions the evaluator raises, or lets through from the store. */
  datatype EvalError =
    | AssertionError
    | IndexError
    | TypeError
    | KeyError(key: string)
    | UnboundLocalError(name: string)
    | AttributeError(name: string)
    | Storage(cause: Manager.RmError)

  /** The test-set part of `info`, present only when `y_test` is given. */
  datatype TestPart = TestPart(testLoss: real, testAllScore: Option<Metrics>, yTestTrue: seq<real>, yTestPred: Prediction)

  /** The `info` dictionary `evaluate` returns. */
  datatype EvalInfo = EvalInfo(
    loss: real,
    losses: seq<real>,
    allScore: Option<Metrics>,
    allScores: Option<seq<Option<Metrics>>>,
    models: seq<FittedPipeline>,
    yTrueIndexes: seq<IndexSet>,
    yPreds: seq<Prediction>,
    intermediateResult: Option<seq<IntermediateItem>>,
    test: Option<TestPart>,
    warningInfo: string)

  // ---------------------------------------------------------------- loss

  /** `loss`: a dictionary score is read at the metric's name, a number is used
      as it is, anything else is a type error; the error is `optimum - score`. */
  function LossOf(metric: Scorer, score: Score): (r: Result<(real, Option<Metrics>), EvalError>)
    ensures score.OtherScore? ==> r == Err(TypeError)
    ensures score.DictScore? && metric.name !in score.metrics ==> r == Err(KeyError(metric.name))
    ensures r.Ok? ==> (r.value.1.Some? <==> score.DictScore?)
  {
    match score
    case DictScore(d) =>
      if metric.name in d then Ok((metric.optimum - d[metric.name], Some(d)))
      else Err(KeyError(metric.name))
    case ScalarScore(s) => Ok((metric.optimum - s, None))
    case OtherScore => Err(TypeError)
  }

  /** The value of the score that the loss is taken of, if any. */
  function ScoreValue(metric: Scorer, score: Score): Option<real> {
    match score
    case DictScore(d) => if metric.name in d then Some(d[metric.name]) else None
    case ScalarScore(s) => Some(s)
    case OtherScore => None
  }

  /** The loss is defined exactly when the score has a value, and gives that
      value back: `optimum - err` is the score. A dictionary comes back as the
      fold's `all_score`, a number with none. */
  lemma LossInvertsScore(metric: Scorer, score: Score)
    ensures LossOf(metric, score).Ok? <==> ScoreValue(metric, score).Some?
    ensures LossOf(metric, score).Ok? ==>
              metric.optimum - LossOf(metric, score).value.0 == ScoreValue(metric, score).value
    ensures LossOf(metric, score).Ok? ==>
              LossOf(metric, score).value.1 == if score.DictScore? then Some(score.metrics) else None
    ensures score.OtherScore? ==> LossOf(metric, score) == Err(TypeError)
  {
  }

  /** A larger score never gives a larger loss. */
  lemma LossAntitone(metric: Scorer, a: Score, b: Score)
    requires ScoreValue(metric, a).Some? && ScoreValue(metric, b).Some?
    requires ScoreValue(metric, a).value <= ScoreValue(metric, b).value
    ensures LossOf(metric, b).value.0 <= LossOf(metric, a).value.0
  {
    LossInvertsScore(metric, a);
    LossInvertsScore(metric, b);
  }

  /** `loss`: score the predictions, then take the loss of the score; an
      exception from `calculate_score` propagates. */
  function Loss(ev: TrainEvaluator, yTrue: seq<real>, yHat: Prediction): Result<(real, Option<Metrics>), EvalError> {
    match ev.calculateScore(yTrue, yHat)
    case Err(e) => Err(e)
    case Ok(score) => LossOf(ev.metric, score)
  }

  // ---------------------------------------------------------------- means

  function Sum(xs: seq<real>): real {
    if xs == [] then 0.0 else Sum(xs[..|xs| - 1]) + xs[|xs| - 1]
  }

  /** `np.mean` of a non-empty list. */
  function Mean(xs: seq<real>): real
    requires |xs| > 0
  {
    Sum(xs) / (|xs| as real)
  }

  lemma {:induction false} SumBounds(xs: seq<real>, lo: real, hi: real)
    requires forall i :: 0 <= i < |xs| ==> lo <= xs[i] <= hi
    ensures (|xs| as real) * lo <= Sum(xs) <= (|xs| as real) * hi
  {
    if xs != [] {
      SumBounds(xs[..|xs| - 1], lo, hi);
    }
  }

  /** The mean lies between any lower and upper bound of the values. */
  lemma MeanBounds(xs: seq<real>, lo: real, hi: real)
    requires |xs| > 0
    requires forall i :: 0 <= i < |xs| ==> lo <= xs[i] <= hi
    ensures lo <= Mean(xs) <= hi
  {
    SumBounds(xs, lo, hi);
    var n := |xs| as real;
    DivideMonotone(n * lo, Sum(xs), n);
    DivideMonotone(Sum(xs), n * hi, n);
  }

  lemma DivideMonotone(a: real, b: real, n: real)
    requires a <= b && n > 0.0
    ensures a / n <= b / n
  {
  }

  /** The mean of equal values is that value. */
  lemma MeanConstant(xs: seq<real>, v: real)
    requires |xs| > 0 && forall i :: 0 <= i < |xs| ==> xs[i] == v
    ensures Mean(xs) == v
  {
    MeanBounds(xs, v, v);
  }

  // ---------------------------------------------------------------- folds

  predicate InRange(idx: IndexSet, n: nat) {
    forall i :: 0 <= i < |idx| ==> idx[i] < n
  }

  /** `s[idx]`: the elements at the given positions. */
  function Gather<T>(s: seq<T>, idx: IndexSet): (r: seq<T>)
    requires InRange(idx, |s|)
    ensures |r| == |idx| && forall i :: 0 <= i < |idx| ==> r[i] == s[idx[i]]
  {
    seq(|idx|, i requires 0 <= i < |idx| => s[idx[i]])
  }

  /** What one fold contributes to the per-fold lists. */
  datatype FoldResult = FoldResult(
    validIndex: IndexSet, predValid: Prediction, predTest: Option<Prediction>,
    loss: real, allScore: Option<Metrics>, intermediate: seq<IntermediateItem>)

  /** The fold `s`: split the data, run the procedure, score the validation
      predictions. Indices outside the data raise IndexError. */
  function RunFold(ev: TrainEvaluator, model: FittedPipeline, x: seq<Row>, y: seq<real>,
                   xTest: Option<seq<Row>>, yTest: Option<seq<real>>, s: Split): Result<FoldResult, EvalError>
  {
    if !(InRange(s.0, |x|) && InRange(s.1, |x|) && InRange(s.0, |y|) && InRange(s.1, |y|)) then Err(IndexError)
    else
      var input := FoldInput(ev.task, Gather(x, s.0), Gather(y, s.0), Gather(x, s.1), Gather(y, s.1), xTest, yTest);
      match ev.procedure(model, input, ev.storeIntermediate)
      case Err(e) => Err(e)
      case Ok(pr) =>
        match Loss(ev, input.yValid, pr.predValid)
        case Err(e) => Err(e)
        case Ok(l) => Ok(FoldResult(s.1, pr.predValid, pr.predTest, l.0, l.1, pr.intermediate))
  }

  /** The folds in split order; the first fold that raises ends the loop. */
  function RunFolds(ev: TrainEvaluator, model: FittedPipeline, x: seq<Row>, y: seq<real>,
                    xTest: Option<seq<Row>>, yTest: Option<seq<real>>, splits: seq<Split>): Result<seq<FoldResult>, EvalError>
  {
    if splits == [] then Ok([])
    else
      match RunFolds(ev, model, x, y, xTest, yTest, splits[..|splits| - 1])
      case Err(e) => Err(e)
      case Ok(fs) =>
        match RunFold(ev, model, x, y, xTest, yTest, splits[|splits| - 1])
        case Err(e) => Err(e)
        case Ok(f) => Ok(fs + [f])
  }

  /** A successful fold loop has one result per split, each that split's fold. */
  lemma {:induction false} RunFoldsIndex(ev: TrainEvaluator, model: FittedPipeline, x: seq<Row>, y: seq<real>,
                                         xTest: Option<seq<Row>>, yTest: Option<seq<real>>, splits: seq<Split>)
    requires RunFolds(ev, model, x, y, xTest, yTest, splits).Ok?
    ensures |RunFolds(ev, model, x, y, xTest, yTest, splits).value| == |splits|
    ensures forall j :: 0 <= j < |splits| ==>
              RunFold(ev, model, x, y, xTest, yTest, splits[j]) == Ok(RunFolds(ev, model, x, y, xTest, yTest, splits).value[j])
  {
    if splits != [] {
      var init := splits[..|splits| - 1];
      RunFoldsIndex(ev, model, x, y, xTest, yTest, init);
      forall j | 0 <= j < |init| ensures init[j] == splits[j] { }
    }
  }

  /** One more successful fold extends the successful prefix by its result. */
  lemma RunFoldsStep(ev: TrainEvaluator, model: FittedPipeline, x: seq<Row>, y: seq<real>,
                     xTest: Option<seq<Row>>, yTest: Option<seq<real>>, splits: seq<Split>, i: nat,
                     folds: seq<FoldResult>, f: FoldResult)
    requires i < |splits| && RunFolds(ev, model, x, y, xTest, yTest, splits[..i]) == Ok(folds)
    requires RunFold(ev, model, x, y, xTest, yTest, splits[i]) == Ok(f)
    ensures RunFolds(ev, model, x, y, xTest, yTest, splits[..i + 1]) == Ok(folds + [f])
  {
    assert splits[..i + 1][..i] == splits[..i];
  }

  /** A fold that raises after a successful prefix is what the whole loop raises. */
  lemma RunFoldsFails(ev: TrainEvaluator, model: FittedPipeline, x: seq<Row>, y: seq<real>,
                      xTest: Option<seq<Row>>, yTest: Option<seq<real>>, splits: seq<Split>, i: nat,
                      folds: seq<FoldResult>)
    requires i < |splits| && RunFolds(ev, model, x, y, xTest, yTest, splits[..i]) == Ok(folds)
    requires RunFold(ev, model, x, y, xTest, yTest, splits[i]).Err?
    ensures RunFolds(ev, model, x, y, xTest, yTest, splits)
            == Err(RunFold(ev, model, x, y, xTest, yTest, splits[i]).error)
  {
    assert splits[..i + 1][..i] == splits[..i];
    RunFoldsStopsAtError(ev, model, x, y, xTest, yTest, splits, i + 1);
  }

  /** Once a fold raises, the later splits are never reached. */
  lemma {:induction false} RunFoldsStopsAtError(ev: TrainEvaluator, model: FittedPipeline, x: seq<Row>, y: seq<real>,
                                                xTest: Option<seq<Row>>, yTest: Option<seq<real>>, splits: seq<Split>, i: nat)
    requires i <= |splits| && RunFolds(ev, model, x, y, xTest, yTest, splits[..i]).Err?
    ensures RunFolds(ev, model, x, y, xTest, yTest, splits) == RunFolds(ev, model, x, y, xTest, yTest, splits[..i])
    decreases |splits|
  {
    if i == |splits| {
      assert splits[..i] == splits;
    } else {
      var init := splits[..|splits| - 1];
      assert init[..i] == splits[..i];
      RunFoldsStopsAtError(ev, model, x, y, xTest, yTest, init, i);
    }
  }

  // ---------------------------------------------------------------- metric averaging

  /** The metric names that occur in any fold. */
  function AllKeys(ds: seq<Option<Metrics>>): set<string> {
    if ds == [] then {}
    else AllKeys(ds[..|ds| - 1]) + (match ds[|ds| - 1] case Some(m) => m.Keys case None => {})
  }

  /** The values of metric `k` over the folds that report it, in fold order:
      what the `defaultdict(list)` holds under `k`. */
  function KeyValues(ds: seq<Option<Metrics>>, k: string): seq<real> {
    if ds == [] then []
    else
      KeyValues(ds[..|ds| - 1], k)
        + (match ds[|ds| - 1] case Some(m) => (if k in m then [m[k]] else []) case None => [])
  }

  /** A name has values exactly when some fold reports it. */
  lemma {:induction false} KeyValuesNonEmpty(ds: seq<Option<Metrics>>, k: string)
    ensures k in AllKeys(ds) <==> |KeyValues(ds, k)| > 0
  {
    if ds != [] {
      KeyValuesNonEmpty(ds[..|ds| - 1], k);
    }
  }

  /** Appending one fold's dictionary adds its names and extends each of its
      names' values by one. */
  lemma KeyValuesSnoc(prefix: seq<Option<Metrics>>, cur: Metrics, k: string)
    ensures AllKeys(prefix + [Some(cur)]) == AllKeys(prefix) + cur.Keys
    ensures KeyValues(prefix + [Some(cur)], k) == KeyValues(prefix, k) + (if k in cur then [cur[k]] else [])
  {
    assert (prefix + [Some(cur)])[..|prefix|] == prefix;
  }

  /** The averaged metrics: each name's mean over the folds that report it. */
  function MeanScores(ds: seq<Option<Metrics>>): map<string, real> {
    map k | k in AllKeys(ds) :: (KeyValuesNonEmpty(ds, k); Mean(KeyValues(ds, k)))
  }

  /** `all_score`: averaged when the first fold's dictionary is non-empty, in
      which case every fold must have reported a dictionary; None otherwise. */
  function Aggregate(ds: seq<Option<Metrics>>): Result<Option<Metrics>, EvalError> {
    if |ds| > 0 && ds[0].Some? && ds[0].value != map[] then
      if forall j :: 0 <= j < |ds| ==> ds[j].Some? then Ok(Some(MeanScores(ds))) else Err(AssertionError)
    else Ok(None)
  }

  /** When every fold reports the same names, the aggregate has exactly those
      names, each the plain mean of its values over all folds. */
  lemma {:induction false} KeyValuesUniform(ds: seq<Option<Metrics>>, k: string)
    requires forall j :: 0 <= j < |ds| ==> ds[j].Some? && k in ds[j].value
    ensures KeyValues(ds, k) == MetricOf(ds, k)
  {
    if ds != [] {
      KeyValuesUniform(ds[..|ds| - 1], k);
    }
  }

  lemma {:induction false} AllKeysUniform(ds: seq<Option<Metrics>>, names: set<string>)
    requires |ds| > 0 && forall j :: 0 <= j < |ds| ==> ds[j].Some? && ds[j].value.Keys == names
    ensures AllKeys(ds) == names
  {
    if |ds| > 1 {
      AllKeysUniform(ds[..|ds| - 1], names);
    }
  }

  /** The values of metric `k` in folds that all report it. */
  function MetricOf(ds: seq<Option<Metrics>>, k: string): seq<real>
    requires forall j :: 0 <= j < |ds| ==> ds[j].Some? && k in ds[j].value
  {
    seq(|ds|, j requires 0 <= j < |ds| => ds[j].value[k])
  }

  lemma AggregateUniform(ds: seq<Option<Metrics>>, names: set<string>)
    requires |ds| > 0 && names != {}
    requires forall j :: 0 <= j < |ds| ==> ds[j].Some? && ds[j].value.Keys == names
    ensures Aggregate(ds).Ok? && Aggregate(ds).value.Some?
    ensures Aggregate(ds).value.value.Keys == names
    ensures forall k :: k in names ==> Aggregate(ds).value.value[k] == Mean(MetricOf(ds, k))
  {
    AllKeysUniform(ds, names);
    assert ds[0].value != map[] by {
      var k :| k in names;
      assert k in ds[0].value.Keys;
    }
    assert Aggregate(ds) == Ok(Some(MeanScores(ds)));
    forall k | k in names ensures MeanScores(ds)[k] == Mean(MetricOf(ds, k)) {
      forall j | 0 <= j < |ds| ensures k in ds[j].value {
        assert k in ds[j].value.Keys;
      }
      KeyValuesUniform(ds, k);
    }
  }

  // ---------------------------------------------------------------- evaluate

  /** The parallel per-fold lists of `evaluate`, and the intermediate-result
      list of the last fold. */
  datatype FoldLists = FoldLists(
    losses: seq<real>,
    models: seq<FittedPipeline>,
    yTrueIndexes: seq<IndexSet>,
    yPreds: seq<Prediction>,
    yTestPreds: seq<Option<Prediction>>,
    allScores: seq<Option<Metrics>>,
    intermediateResult: Option<seq<IntermediateItem>>)

  /** The lists after the folds `folds`, each fold appending one entry to each. */
  function ListsOf(storeIntermediate: bool, model: FittedPipeline, folds: seq<FoldResult>): FoldLists {
    if folds == [] then FoldLists([], [], [], [], [], [], None)
    else
      var l := ListsOf(storeIntermediate, model, folds[..|folds| - 1]);
      var f := folds[|folds| - 1];
      FoldLists(
        l.losses + [f.loss],
        l.models + [model],
        l.yTrueIndexes + [f.validIndex],
        l.yPreds + [f.predValid],
        l.yTestPreds + [f.predTest],
        l.allScores + [f.allScore],
        if storeIntermediate then Some(f.intermediate) else None)
  }

  /** Appending a fold appends its entries to every list. */
  lemma ListsOfSnoc(storeIntermediate: bool, model: FittedPipeline, folds: seq<FoldResult>, f: FoldResult)
    ensures var l := ListsOf(storeIntermediate, model, folds);
            ListsOf(storeIntermediate, model, folds + [f])
            == FoldLists(l.losses + [f.loss], l.models + [model], l.yTrueIndexes + [f.validIndex],
                         l.yPreds + [f.predValid], l.yTestPreds + [f.predTest], l.allScores + [f.allScore],
                         if storeIntermediate then Some(f.intermediate) else None)
  {
    assert (folds + [f])[..|folds|] == folds;
  }

  /** Every list has one entry per fold, in fold order; the intermediate
      result is the last fold's. */
  lemma {:induction false} ListsOfIndex(storeIntermediate: bool, model: FittedPipeline, folds: seq<FoldResult>)
    ensures var l := ListsOf(storeIntermediate, model, folds);
            && |l.losses| == |l.models| == |l.yTrueIndexes| == |l.yPreds| == |folds|
            && |l.yTestPreds| == |l.allScores| == |folds|
            && (forall j :: 0 <= j < |folds| ==>
                  && l.losses[j] == folds[j].loss && l.models[j] == model
                  && l.yTrueIndexes[j] == folds[j].validIndex && l.yPreds[j] == folds[j].predValid
                  && l.yTestPreds[j] == folds[j].predTest && l.allScores[j] == folds[j].allScore)
            && l.intermediateResult == if storeIntermediate && |folds| > 0 then Some(folds[|folds| - 1].intermediate) else None
  {
    if folds != [] {
      ListsOfIndex(storeIntermediate, model, folds[..|folds| - 1]);
    }
  }

  /** The test predictions combined across folds: voting for classification,
      averaging for every other task. */
  function EnsembleTest(ev: TrainEvaluator, yTestPreds: seq<Option<Prediction>>): Prediction {
    if ev.task == "classification" then ev.votePredicts(yTestPreds) else ev.meanPredicts(yTestPreds)
  }

  /** What `evaluate` returns or raises once the folds have run. */
  function Finish(ev: TrainEvaluator, l: FoldLists, yTest: Option<seq<real>>, stderr: string): Result<(real, EvalInfo), EvalError> {
    match Aggregate(l.allScores)
    case Err(e) => Err(e)
    case Ok(allScore) =>
      if |l.losses| == 0 then Err(UnboundLocalError("intermediate_result"))
      else
        var info := EvalInfo(
          Mean(l.losses), l.losses, allScore, if allScore.Some? then Some(l.allScores) else None,
          l.models, l.yTrueIndexes, l.yPreds, l.intermediateResult, None, stderr);
        if yTest.None? then Ok((info.loss, info))
        else
          var yTestPred := EnsembleTest(ev, l.yTestPreds);
          match Loss(ev, yTest.value, yTestPred)
          case Err(e) => Err(e)
          case Ok(t) => Ok((info.loss, info.(test := Some(TestPart(t.0, t.1, yTest.value, yTestPred)))))
  }

  /** What `evaluate` returns or raises. `hasResourceManager` says whether a
      resource manager was set; `stderr` is what the fold loop wrote to it. */
  function EvaluateSpec(ev: TrainEvaluator, hasResourceManager: bool, model: FittedPipeline, x: seq<Row>, y: seq<real>,
                        xTest: Option<seq<Row>>, yTest: Option<seq<real>>, stderr: string): Result<(real, EvalInfo), EvalError>
  {
    if !hasResourceManager then Err(AssertionError)
    else
      match RunFolds(ev, model, x, y, xTest, yTest, ev.splitter(x, y))
      case Err(e) => Err(e)
      case Ok(folds) => Finish(ev, ListsOf(ev.storeIntermediate, model, folds), yTest, stderr)
  }

  /** The fold loop of `evaluate`: split, run the procedure, append to the
      per-fold lists, score. */
  method FoldLoop(ev: TrainEvaluator, model: FittedPipeline, x: seq<Row>, y: seq<real>,
                  xTest: Option<seq<Row>>, yTest: Option<seq<real>>, splits: seq<Split>)
    returns (r: Result<FoldLists, EvalError>)
    ensures RunFolds(ev, model, x, y, xTest, yTest, splits).Err? ==>
              r == Err(RunFolds(ev, model, x, y, xTest, yTest, splits).error)
    ensures RunFolds(ev, model, x, y, xTest, yTest, splits).Ok? ==>
              r == Ok(ListsOf(ev.storeIntermediate, model, RunFolds(ev, model, x, y, xTest, yTest, splits).value))
  {
    var losses: seq<real> := [];
    var models: seq<FittedPipeline> := [];
    var yTrueIndexes: seq<IndexSet> := [];
    var yPreds: seq<Prediction> := [];
    var yTestPreds: seq<Option<Prediction>> := [];
    var allScores: seq<Option<Metrics>> := [];
    var intermediateResult: Option<seq<IntermediateItem>> := None;
    ghost var folds: seq<FoldResult> := [];
    for i := 0 to |splits|
      invariant RunFolds(ev, model, x, y, xTest, yTest, splits[..i]) == Ok(folds)
      invariant FoldLists(losses, models, yTrueIndexes, yPreds, yTestPreds, allScores, intermediateResult)
                == ListsOf(ev.storeIntermediate, model, folds)
    {
      var (trainIndex, validIndex) := splits[i];
      if !(InRange(trainIndex, |x|) && InRange(validIndex, |x|) && InRange(trainIndex, |y|) && InRange(validIndex, |y|)) {
        RunFoldsFails(ev, model, x, y, xTest, yTest, splits, i, folds);
        return Err(IndexError);
      }
      var xTrain, xValid := Gather(x, trainIndex), Gather(x, validIndex);
      var yTrain, yValid := Gather(y, trainIndex), Gather(y, validIndex);
      var procedureResult := ev.procedure(model, FoldInput(ev.task, xTrain, yTrain, xValid, yValid, xTest, yTest), ev.storeIntermediate);
      if procedureResult.Err? {
        RunFoldsFails(ev, model, x, y, xTest, yTest, splits, i, folds);
        return Err(procedureResult.error);
      }
      var pr := procedureResult.value;
      intermediateResult := if ev.storeIntermediate then Some(pr.intermediate) else None;
      models := models + [model];
      yTrueIndexes := yTrueIndexes + [validIndex];
      yPreds := yPreds + [pr.predValid];
      yTestPreds := yTestPreds + [pr.predTest];
      var l := Loss(ev, yValid, pr.predValid);
      if l.Err? {
        RunFoldsFails(ev, model, x, y, xTest, yTest, splits, i, folds);
        return Err(l.error);
      }
      losses := losses + [l.value.0];
      allScores := allScores + [l.value.1];
      ghost var f := FoldResult(validIndex, pr.predValid, pr.predTest, l.value.0, l.value.1, pr.intermediate);
      RunFoldsStep(ev, model, x, y, xTest, yTest, splits, i, folds, f);
      ListsOfSnoc(ev.storeIntermediate, model, folds, f);
      folds := folds + [f];
    }
    assert splits[..|splits|] == splits;
    return Ok(FoldLists(losses, models, yTrueIndexes, yPreds, yTestPreds, allScores, intermediateResult));
  }

  /** `evaluate`: the fold loop, the loss average, the metric averaging and
      the test-set ensembling. */
  method Evaluate(ev: TrainEvaluator, hasResourceManager: bool, model: FittedPipeline, x: seq<Row>, y: seq<real>,
                  xTest: Option<seq<Row>>, yTest: Option<seq<real>>, stderr: string)
    returns (r: Result<(real, EvalInfo), EvalError>)
    ensures r == EvaluateSpec(ev, hasResourceManager, model, x, y, xTest, yTest, stderr)
  {
    if !hasResourceManager {
      return Err(AssertionError);
    }
    var splits := ev.splitter(x, y);
    var folded := FoldLoop(ev, model, x, y, xTest, yTest, splits);
    if folded.Err? {
      return Err(folded.error);
    }
    var l := folded.value;
    var allScore := AverageScores(l.allScores);
    if allScore.Err? {
      return Err(allScore.error);
    }
    if |l.losses| == 0 {
      return Err(UnboundLocalError("intermediate_result"));
    }
    var finalLoss := Mean(l.losses);
    var info := EvalInfo(finalLoss, l.losses, allScore.value, if allScore.value.Some? then Some(l.allScores) else None,
                         l.models, l.yTrueIndexes, l.yPreds, l.intermediateResult, None, stderr);
    if yTest.Some? {
      var yTestPred := if ev.task == "classification" then ev.votePredicts(l.yTestPreds) else ev.meanPredicts(l.yTestPreds);
      var t := Loss(ev, yTest.value, yTestPred);
      if t.Err? {
        return Err(t.error);
      }
      info := info.(test := Some(TestPart(t.value.0, t.value.1, yTest.value, yTestPred)));
    }
    return Ok((finalLoss, info));
  }

  /** The averaging part of `evaluate`: collect every name's values over the
      folds into lists, then replace each list by its mean. */
  method AverageScores(allScores: seq<Option<Metrics>>) returns (r: Result<Option<Metrics>, EvalError>)
    ensures r == Aggregate(allScores)
  {
    if !(|allScores| > 0 && allScores[0].Some? && allScores[0].value != map[]) {
      return Ok(None);
    }
    var acc: map<string, seq<real>> := map[];
    for i := 0 to |allScores|
      invariant forall j :: 0 <= j < i ==> allScores[j].Some?
      invariant acc.Keys == AllKeys(allScores[..i])
      invariant forall k :: k in acc ==> acc[k] == KeyValues(allScores[..i], k)
    {
      if allScores[i].None? {
        return Err(AssertionError);
      }
      acc := AppendFold(acc, allScores[..i], allScores[i].value);
      assert allScores[..i + 1] == allScores[..i] + [allScores[i]];
    }
    assert allScores[..|allScores|] == allScores;
    var avg := MeansOf(allScores, acc);
    return Ok(Some(avg));
  }

  /** Replaces each collected list by its mean. */
  method MeansOf(ds: seq<Option<Metrics>>, acc: map<string, seq<real>>) returns (avg: map<string, real>)
    requires acc.Keys == AllKeys(ds)
    requires forall k :: k in acc ==> acc[k] == KeyValues(ds, k)
    ensures avg == MeanScores(ds)
  {
    avg := map[];
    var keys := acc.Keys;
    while keys != {}
      invariant keys <= acc.Keys
      invariant avg.Keys == acc.Keys - keys
      invariant forall k :: k in avg ==> avg[k] == MeanScores(ds)[k]
      decreases keys
    {
      var key :| key in keys;
      KeyValuesNonEmpty(ds, key);
      avg := avg[key := Mean(acc[key])];
      keys := keys - {key};
    }
  }

  /** One fold's dictionary appended, name by name, to the lists collected so far. */
  method AppendFold(acc: map<string, seq<real>>, prefix: seq<Option<Metrics>>, cur: Metrics)
    returns (acc': map<string, seq<real>>)
    requires acc.Keys == AllKeys(prefix)
    requires forall k :: k in acc ==> acc[k] == KeyValues(prefix, k)
    ensures acc'.Keys == AllKeys(prefix + [Some(cur)])
    ensures forall k :: k in acc' ==> acc'[k] == KeyValues(prefix + [Some(cur)], k)
  {
    acc' := acc;
    var keys := cur.Keys;
    ghost var done: set<string> := {};
    while keys != {}
      invariant keys !! done && keys + done == cur.Keys
      invariant Collected(acc', prefix, cur, done)
      decreases keys
    {
      var key :| key in keys;
      AppendOneKey(acc', prefix, cur, done, key);
      acc' := acc'[key := (if key in acc' then acc'[key] else []) + [cur[key]]];
      keys := keys - {key};
      done := done + {key};
    }
    AppendedAll(acc', prefix, cur);
  }

  /** The lists hold the values of the earlier folds, followed by the current
      fold's value for the names in `done`. */
  ghost predicate Collected(acc: map<string, seq<real>>, prefix: seq<Option<Metrics>>, cur: Metrics, done: set<string>) {
    && acc.Keys == AllKeys(prefix) + done
    && forall k :: k in acc ==> acc[k] == KeyValues(prefix, k) + (if k in done && k in cur then [cur[k]] else [])
  }

  lemma AppendOneKey(acc: map<string, seq<real>>, prefix: seq<Option<Metrics>>, cur: Metrics, done: set<string>, key: string)
    requires key in cur && key !in done && Collected(acc, prefix, cur, done)
    ensures Collected(acc[key := (if key in acc then acc[key] else []) + [cur[key]]], prefix, cur, done + {key})
  {
    KeyValuesNonEmpty(prefix, key);
  }

  lemma AppendedAll(acc: map<string, seq<real>>, prefix: seq<Option<Metrics>>, cur: Metrics)
    requires Collected(acc, prefix, cur, cur.Keys)
    ensures acc.Keys == AllKeys(prefix + [Some(cur)])
    ensures forall k :: k in acc ==> acc[k] == KeyValues(prefix + [Some(cur)], k)
  {
    forall k | k in acc ensures acc[k] == KeyValues(prefix + [Some(cur)], k) {
      KeyValuesSnoc(prefix, cur, k);
    }
    KeyValuesSnoc(prefix, cur, "");
  }

  /** A successful evaluation ran every fold and finished. */
  lemma EvaluateSpecOk(ev: TrainEvaluator, hasResourceManager: bool, model: FittedPipeline, x: seq<Row>, y: seq<real>,
                       xTest: Option<seq<Row>>, yTest: Option<seq<real>>, stderr: string)
    requires EvaluateSpec(ev, hasResourceManager, model, x, y, xTest, yTest, stderr).Ok?
    ensures hasResourceManager && RunFolds(ev, model, x, y, xTest, yTest, ev.splitter(x, y)).Ok?
    ensures EvaluateSpec(ev, hasResourceManager, model, x, y, xTest, yTest, stderr)
         == Finish(ev, ListsOf(ev.storeIntermediate, model, RunFolds(ev, model, x, y, xTest, yTest, ev.splitter(x, y)).value), yTest, stderr)
  {
  }

  /** What a finished evaluation's `info` holds, list by list. */
  lemma FinishShape(ev: TrainEvaluator, l: FoldLists, yTest: Option<seq<real>>, stderr: string)
    requires Finish(ev, l, yTest, stderr).Ok?
    ensures var (loss, info) := Finish(ev, l, yTest, stderr).value;
            && |l.losses| > 0 && Aggregate(l.allScores).Ok?
            && info.losses == l.losses && info.models == l.models
            && info.yTrueIndexes == l.yTrueIndexes && info.yPreds == l.yPreds
            && loss == info.loss == Mean(l.losses)
            && info.allScore == Aggregate(l.allScores).value
            && info.allScores == (if info.allScore.Some? then Some(l.allScores) else None)
            && (info.test.Some? <==> yTest.Some?)
            && (info.test.Some? ==> info.test.value.yTestTrue == yTest.value
                                    && info.test.value.yTestPred == EnsembleTest(ev, l.yTestPreds))
  {
  }

  /** One entry per split in every per-fold list, in split order, each fold's
      loss the loss of that split's fold; the loss is the mean of the per-fold
      losses (see `MeanBounds` for where that mean lies). */
  lemma EvaluateOnePerFold(ev: TrainEvaluator, hasResourceManager: bool, model: FittedPipeline, x: seq<Row>, y: seq<real>,
                           xTest: Option<seq<Row>>, yTest: Option<seq<real>>, stderr: string)
    requires EvaluateSpec(ev, hasResourceManager, model, x, y, xTest, yTest, stderr).Ok?
    ensures var (loss, info) := EvaluateSpec(ev, hasResourceManager, model, x, y, xTest, yTest, stderr).value;
            var splits := ev.splitter(x, y);
            && |splits| > 0
            && |info.losses| == |info.models| == |info.yTrueIndexes| == |info.yPreds| == |splits|
            && (info.allScores.Some? ==> |info.allScores.value| == |splits|)
            && (forall j :: 0 <= j < |splits| ==> info.yTrueIndexes[j] == splits[j].1 && info.models[j] == model)
            && (forall j :: 0 <= j < |splits| ==>
                  RunFold(ev, model, x, y, xTest, yTest, splits[j]).Ok?
                  && info.losses[j] == RunFold(ev, model, x, y, xTest, yTest, splits[j]).value.loss)
            && loss == info.loss == Mean(info.losses)
  {
    var splits := ev.splitter(x, y);
    EvaluateSpecOk(ev, hasResourceManager, model, x, y, xTest, yTest, stderr);
    var l := ListsOf(ev.storeIntermediate, model, RunFolds(ev, model, x, y, xTest, yTest, splits).value);
    FoldListsPerSplit(ev, model, x, y, xTest, yTest, splits);
    FinishShape(ev, l, yTest, stderr);
  }

  /** The per-fold lists of a successful fold loop, split by split. */
  lemma FoldListsPerSplit(ev: TrainEvaluator, model: FittedPipeline, x: seq<Row>, y: seq<real>,
                          xTest: Option<seq<Row>>, yTest: Option<seq<real>>, splits: seq<Split>)
    requires RunFolds(ev, model, x, y, xTest, yTest, splits).Ok?
    ensures var l := ListsOf(ev.storeIntermediate, model, RunFolds(ev, model, x, y, xTest, yTest, splits).value);
            && |l.losses| == |l.models| == |l.yTrueIndexes| == |l.yPreds| == |l.allScores| == |splits|
            && (forall j :: 0 <= j < |splits| ==> l.yTrueIndexes[j] == splits[j].1 && l.models[j] == model)
            && (forall j :: 0 <= j < |splits| ==>
                  RunFold(ev, model, x, y, xTest, yTest, splits[j]).Ok?
                  && l.losses[j] == RunFold(ev, model, x, y, xTest, yTest, splits[j]).value.loss)
  {
    RunFoldsIndex(ev, model, x, y, xTest, yTest, splits);
    var folds := RunFolds(ev, model, x, y, xTest, yTest, splits).value;
    ListsOfIndex(ev.storeIntermediate, model, folds);
    var l := ListsOf(ev.storeIntermediate, model, folds);
    forall j | 0 <= j < |splits|
      ensures l.yTrueIndexes[j] == splits[j].1 && l.models[j] == model
      ensures RunFold(ev, model, x, y, xTest, yTest, splits[j]).Ok?
      ensures l.losses[j] == RunFold(ev, model, x, y, xTest, yTest, splits[j]).value.loss
    {
      RunFoldValidIndex(ev, model, x, y, xTest, yTest, splits[j]);
    }
  }

  /** A fold's result records its validation indices. */
  lemma RunFoldValidIndex(ev: TrainEvaluator, model: FittedPipeline, x: seq<Row>, y: seq<real>,
                          xTest: Option<seq<Row>>, yTest: Option<seq<real>>, s: Split)
    requires RunFold(ev, model, x, y, xTest, yTest, s).Ok?
    ensures RunFold(ev, model, x, y, xTest, yTest, s).value.validIndex == s.1
  {
  }

  /** The test-set keys are there exactly when `y_test` is given, with the
      fold predictions ensembled by voting for classification and averaging otherwise. */
  lemma EvaluateTestKeys(ev: TrainEvaluator, hasResourceManager: bool, model: FittedPipeline, x: seq<Row>, y: seq<real>,
                         xTest: Option<seq<Row>>, yTest: Option<seq<real>>, stderr: string)
    requires EvaluateSpec(ev, hasResourceManager, model, x, y, xTest, yTest, stderr).Ok?
    ensures var info := EvaluateSpec(ev, hasResourceManager, model, x, y, xTest, yTest, stderr).value.1;
            var folds := RunFolds(ev, model, x, y, xTest, yTest, ev.splitter(x, y)).value;
            var preds := seq(|folds|, j requires 0 <= j < |folds| => folds[j].predTest);
            && (info.test.Some? <==> yTest.Some?)
            && (info.test.Some? ==> info.test.value.yTestTrue == yTest.value)
            && (info.test.Some? && ev.task == "classification" ==> info.test.value.yTestPred == ev.votePredicts(preds))
            && (info.test.Some? && ev.task != "classification" ==> info.test.value.yTestPred == ev.meanPredicts(preds))
  {
    EvaluateSpecOk(ev, hasResourceManager, model, x, y, xTest, yTest, stderr);
    var folds := RunFolds(ev, model, x, y, xTest, yTest, ev.splitter(x, y)).value;
    ListsOfIndex(ev.storeIntermediate, model, folds);
    FinishShape(ev, ListsOf(ev.storeIntermediate, model, folds), yTest, stderr);
    var preds := seq(|folds|, j requires 0 <= j < |folds| => folds[j].predTest);
    assert ListsOf(ev.storeIntermediate, model, folds).yTestPreds == preds;
  }

  /** A splitter that yields nothing leaves `intermediate_result` unbound;
      without a resource manager nothing is evaluated at all. */
  lemma EvaluateNoSplits(ev: TrainEvaluator, model: FittedPipeline, x: seq<Row>, y: seq<real>,
                         xTest: Option<seq<Row>>, yTest: Option<seq<real>>, stderr: string)
    requires ev.splitter(x, y) == []
    ensures EvaluateSpec(ev, true, model, x, y, xTest, yTest, stderr) == Err(UnboundLocalError("intermediate_result"))
    ensures EvaluateSpec(ev, false, model, x, y, xTest, yTest, stderr) == Err(AssertionError)
  {
  }

  /** The per-fold `all_score` values. */
  function ScoresOf(folds: seq<FoldResult>): seq<Option<Metrics>> {
    seq(|folds|, j requires 0 <= j < |folds| => folds[j].allScore)
  }

  /** The metric average of a successful evaluation: when every fold reports
      the same non-empty set of names, `all_score` has exactly those names,
      each the mean of its per-fold values, and `all_scores` keeps the folds'
      dictionaries. */
  lemma EvaluateMetricMeans(ev: TrainEvaluator, hasResourceManager: bool, model: FittedPipeline, x: seq<Row>, y: seq<real>,
                            xTest: Option<seq<Row>>, yTest: Option<seq<real>>, stderr: string, names: set<string>)
    requires EvaluateSpec(ev, hasResourceManager, model, x, y, xTest, yTest, stderr).Ok?
    requires names != {}
    requires var ds := ScoresOf(RunFolds(ev, model, x, y, xTest, yTest, ev.splitter(x, y)).value);
             forall j :: 0 <= j < |ds| ==> ds[j].Some? && ds[j].value.Keys == names
    ensures var info := EvaluateSpec(ev, hasResourceManager, model, x, y, xTest, yTest, stderr).value.1;
            var ds := ScoresOf(RunFolds(ev, model, x, y, xTest, yTest, ev.splitter(x, y)).value);
            && info.allScore.Some? && info.allScore.value.Keys == names
            && info.allScores == Some(ds)
            && forall k :: k in names ==> info.allScore.value[k] == Mean(MetricOf(ds, k))
  {
    EvaluateSpecOk(ev, hasResourceManager, model, x, y, xTest, yTest, stderr);
    var folds := RunFolds(ev, model, x, y, xTest, yTest, ev.splitter(x, y)).value;
    var l := ListsOf(ev.storeIntermediate, model, folds);
    ListsOfIndex(ev.storeIntermediate, model, folds);
    FinishShape(ev, l, yTest, stderr);
    assert l.allScores == ScoresOf(folds);
    RunFoldsIndex(ev, model, x, y, xTest, yTest, ev.splitter(x, y));
    AggregateUniform(l.allScores, names);
  }

  // ---------------------------------------------------------------- __call__

  /** `list(dhp.get("estimator", {"unk": ""}).keys())[0]` */
  function EstimatorName(dhp: DictHyperParam): (r: Result<string, EvalError>)
    ensures dhp.estimatorKeys.None? ==> r == Ok("unk")
    ensures dhp.estimatorKeys.Some? ==> (r.Ok? <==> |dhp.estimatorKeys.value| > 0)
    ensures r.Ok? && dhp.estimatorKeys.Some? ==> r.value in dhp.estimatorKeys.value
    ensures r.Ok? && dhp.estimatorKeys.Some? ==> r.value == dhp.estimatorKeys.value[0]
  {
    match dhp.estimatorKeys
    case None => Ok("unk")
    case Some(keys) => if |keys| > 0 then Ok(keys[0]) else Err(IndexError)
  }

  /** The `info` of a successful evaluation completed by `__call__`, keyed by
      the configuration's id as the trial id. */
  function CallRecord(info: EvalInfo, configId: string, shp: Configuration, dhp: DictHyperParam,
                      estimator: string, costTime: real): TrialInfo
  {
    TrialInfo(
      trialId := Some(configId),
      models := Some(info.models),
      estimator := Some(estimator),
      loss := Some(info.loss),
      losses := Some(info.losses),
      testLoss := if info.test.Some? then Some(info.test.value.testLoss) else None,
      allScore := info.allScore,
      allScores := info.allScores,
      testAllScore := if info.test.Some? then info.test.value.testAllScore else None,
      yTrueIndexes := Some(info.yTrueIndexes),
      yPreds := Some(info.yPreds),
      yTestTrue := if info.test.Some? then Some(info.test.value.yTestTrue) else None,
      yTestPred := if info.test.Some? then Some(info.test.value.yTestPred) else None,
      programHyperParam := Some(shp),
      dictHyperParam := Some(dhp),
      costTime := Some(costTime),
      status := Some("success"),
      failedInfo := None,
      warningInfo := Some(info.warningInfo))
  }

  /** The row stored for a completed trial is marked successful, carries the
      evaluated loss and cost, names the estimator, and holds one model and one
      validation index set per fold. */
  lemma CallRecordRow(info: EvalInfo, configId: string, shp: Configuration, dhp: DictHyperParam,
                      estimator: string, costTime: real, path: string, bits: Option<seq<FittedPipeline>>)
    ensures var row := TrialRow(CallRecord(info, configId, shp, dhp, estimator, costTime), configId, path, bits);
            && row.trialId == configId && row.status == "success" && row.failedInfo == ""
            && row.loss == info.loss && row.costTime == costTime && row.estimator == estimator
            && row.losses == Some(info.losses) && row.yTrueIndexes == Some(info.yTrueIndexes)
            && (row.testLoss == if info.test.Some? then info.test.value.testLoss else NotComputed)
            && row.dictHyperParam == Some(dhp) && row.programHyperParam == Some(shp)
  {
  }

  /** `__call__` as written: after evaluating, it hands the record to
      `insert_to_trials_db`, which the resource manager does not define, so
      every call that gets that far raises AttributeError; the record also
      carries "config_id" but no "trial_id". */
  method CallAsWritten(ev: TrainEvaluator, hasResourceManager: bool, shp: Configuration, configId: string,
                       shp2model: Configuration -> (DictHyperParam, FittedPipeline), costTime: real, stderr: string)
    returns (r: Result<real, EvalError>)
    ensures r.Err?
    ensures var (dhp, model) := shp2model(shp);
            var e := EvaluateSpec(ev, hasResourceManager, model, ev.xTrain, ev.yTrain, ev.xTest, ev.yTest, stderr);
            && (e.Err? ==> r == Err(e.error))
            && (e.Ok? && EstimatorName(dhp).Err? ==> r == Err(IndexError))
            && (e.Ok? && EstimatorName(dhp).Ok? ==> r == Err(AttributeError("insert_to_trials_db")))
  {
    var (dhp, model) := shp2model(shp);
    var e := Evaluate(ev, hasResourceManager, model, ev.xTrain, ev.yTrain, ev.xTest, ev.yTest, stderr);
    if e.Err? {
      return Err(e.error);
    }
    var estimator := EstimatorName(dhp);
    if estimator.Err? {
      return Err(estimator.error);
    }
    return Err(AttributeError("insert_to_trials_db"));
  }

  /** `__call__` as intended: evaluate the configuration, complete the record
      with status, estimator and cost, store it under the configuration's id
      through `insert_to_db`, and return the loss. `rm` is the evaluator's
      resource manager, null when none was set. */
  method Call(ev: TrainEvaluator, rm: Manager.ResourceManager?, shp: Configuration, configId: string,
              shp2model: Configuration -> (DictHyperParam, FittedPipeline), costTime: real, stderr: string)
    returns (r: Result<real, EvalError>)
    requires rm != null ==> rm.Valid()
    modifies if rm == null then {} else {rm}
    ensures rm != null ==> rm.Valid()
    ensures var (dhp, model) := shp2model(shp);
            var e := EvaluateSpec(ev, rm != null, model, ev.xTrain, ev.yTrain, ev.xTest, ev.yTest, stderr);
            && (e.Err? ==> r == Err(e.error))
            && (e.Ok? && EstimatorName(dhp).Err? ==> r == Err(IndexError))
            && (r.Ok? ==>
                  && e.Ok? && r.value == e.value.0 && rm != null
                  && configId !in old(rm.trials)
                  && (rm.persistentMode == Manager.Fs ==> rm.layout.Some?)
                  && var record := CallRecord(e.value.1, configId, shp, dhp, EstimatorName(dhp).value, costTime);
                     var path := if rm.persistentMode == Manager.Fs then ModelsFileName(rm.layout.value.trialsDir, configId) else "";
                     && rm.trials == old(rm.trials)[configId :=
                          if rm.persistentMode == Manager.Fs then TrialRow(record, configId, path, None)
                          else TrialRow(record, configId, "", Some(e.value.1.models))]
                     && rm.files == (if rm.persistentMode == Manager.Fs then old(rm.files)[path := e.value.1.models] else old(rm.files))
                     && rm.trials[configId].status == "success"
                     && rm.trials[configId].loss == e.value.0
                     && rm.trials[configId].estimator == EstimatorName(dhp).value
                     && rm.trials[configId].costTime == costTime)
            && (r.Err? && rm != null ==> rm.trials == old(rm.trials) && rm.files == old(rm.files))
            && ((&& e.Ok? && EstimatorName(dhp).Ok? && rm != null && configId in old(rm.trials)
                 && old(rm.TableReachable()))
                  ==> r == Err(Storage(Manager.IntegrityError(configId))))
    ensures var (dhp, model) := shp2model(shp);
            var e := EvaluateSpec(ev, rm != null, model, ev.xTrain, ev.yTrain, ev.xTest, ev.yTest, stderr);
            (&& e.Ok? && EstimatorName(dhp).Ok? && rm != null && old(rm.TableReachable())
             && configId !in old(rm.trials) && (rm.persistentMode == Manager.Fs ==> rm.layout.Some?))
              ==> r == Ok(e.value.0)
  {
    var (dhp, model) := shp2model(shp);
    var e := Evaluate(ev, rm != null, model, ev.xTrain, ev.yTrain, ev.xTest, ev.yTest, stderr);
    if e.Err? {
      return Err(e.error);
    }
    var estimator := EstimatorName(dhp);
    if estimator.Err? {
      return Err(estimator.error);
    }
    var record := CallRecord(e.value.1, configId, shp, dhp, estimator.value, costTime);
    CallRecordRow(e.value.1, configId, shp, dhp, estimator.value, costTime, "", None);
    var stored := rm.InsertToDbChecked(record);
    if stored.Fail? {
      return Err(Storage(stored.error));
    }
    return Ok(e.value.0);
  }
}
