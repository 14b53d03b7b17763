/**
 * What the three experiment drivers of racoons/models/classification.py
 * produce: the report rows, the artifact file names each row points to, and
 * the report snapshots written along the way. Model building, cross-validation
 * with its metric summary, the hyper-parameter search, the fitted feature names
 * and the estimator type names are collaborators whose code is not part of
 * this model; they enter as functions.
 */
module ClassificationSpec {
  import opened Wrappers
  import opened Paths
  import opened Frames
  import opened DataUtils

  type Params = map<string, string>

  /** The arguments a model is built from, and the parameters later set on it. */
  datatype Model = Model(scaleLevels: FeatureScaleLevels, sampling: Option<string>, featureSelection: Option<string>,
                         estimator: string, params: Params)

  /** `build_model(feature_scale_levels, sample_method, feature_selection_method, estimator)`. */
  function BuildModel(levels: FeatureScaleLevels, sampling: Option<string>, featureSelection: Option<string>, estimator: string): Model {
    Model(levels, sampling, featureSelection, estimator, map[])
  }

  /** `model.set_params(**params)`: the given parameters override earlier ones. */
  function SetParams(m: Model, params: Params): (r: Model)
    ensures r.(params := m.params) == m
    ensures forall p | p in params :: p in r.params && r.params[p] == params[p]
    ensures forall p | p in m.params && p !in params :: p in r.params && r.params[p] == m.params[p]
    ensures r.params.Keys == m.params.Keys + params.Keys
  {
    m.(params := m.params + params)
  }

  /** `metrics_from_cv_result(cross_validate_model(...))`. */
  datatype Metrics = Metrics(meanAuc: real, stdAuc: real, meanF1: real, stdF1: real)

  /** `hyper_parameter_optimization(...)`. */
  datatype Search = Search(bestParams: Params, meanScore: real, stdScore: real)

  datatype Collaborators = Collaborators(
    /** `type(get_estimator(e)[0][1]).__name__` */
    estimatorTypeName: string -> string,
    /** `type(classifiers[e]).__name__` */
    classifierTypeName: string -> string,
    /** cross-validation of a model on the given feature columns and target column */
    crossValidate: (Model, seq<string>, string) -> Metrics,
    optimize: (Model, seq<string>, string) -> Search,
    /** `model["estimator"].feature_names_in_` after fitting the model on the given feature columns and target column */
    fittedFeatures: (Model, seq<string>, string) -> seq<string>)

  /** The arguments of a driver call; `stamp` stands for the folder's timestamp. */
  datatype Run = Run(df: Frame, featureCols: seq<string>, targetCols: seq<string>,
                     featureSelection: Option<string>, sampling: Option<string>, estimators: seq<string>,
                     supported: set<ScaleLevel>, outputPath: Path, stamp: string)

  /** One report line (`update_report`), plus the model whose feature importance the row's files hold. */
  datatype Row = Row(
    target: string,
    features: seq<string>,
    negativeSamples: int,
    positiveSamples: int,
    estimatorName: string,
    metrics: Metrics,
    rocPlot: Path,
    importanceCsv: Path,
    importancePlot: Path,
    sampling: Option<string>,
    featureSelection: Option<string>,
    selectedFeatures: Option<seq<string>>,
    bestParams: Option<Params>,
    importanceModel: Model)

  /** The report (or the exception that ended the run) and every report written on the way. */
  datatype Outcome = Outcome(report: Result<seq<Row>, Exception>, snapshots: seq<seq<Row>>)

  // ---------------------------------------------------------------------------
  // Output files

  const MultivariateMode := "multivariate"
  const GridSearchMode := "gs_multivariate"
  const UnivariateMode := "univariate"

  /** `output_path / f"{mode}_analysis_{timestamp}"`. */
  function OutputFolder(outputPath: Path, mode: string, stamp: string): Path {
    Join(outputPath, mode + "_analysis_" + stamp)
  }

  function RocPlotPath(folder: Path, k: nat): Path {
    Join(folder, "roc_auc_" + NatToString(k) + ".png")
  }

  function ImportancePlotPath(folder: Path, k: nat): Path {
    Join(folder, "feature_importance_" + NatToString(k) + ".png")
  }

  function ImportanceCsvPath(folder: Path, k: nat): Path {
    Join(folder, "feature_importance_" + NatToString(k) + ".csv")
  }

  /** Row k of `rows` uses plot index `base + k` for its three files. */
  predicate ArtifactsIndexed(rows: seq<Row>, folder: Path, base: nat) {
    forall k | 0 <= k < |rows| ::
      && rows[k].rocPlot == RocPlotPath(folder, base + k)
      && rows[k].importancePlot == ImportancePlotPath(folder, base + k)
      && rows[k].importanceCsv == ImportanceCsvPath(folder, base + k)
  }

  /** No two of the files a run writes for its rows share a name. */
  lemma ArtifactPathsDistinct(rows: seq<Row>, folder: Path)
    requires ArtifactsIndexed(rows, folder, 0)
    ensures forall i, j | 0 <= i < j < |rows| ::
      && rows[i].rocPlot != rows[j].rocPlot
      && rows[i].importancePlot != rows[j].importancePlot
      && rows[i].importanceCsv != rows[j].importanceCsv
    ensures forall i, j | 0 <= i < |rows| && 0 <= j < |rows| ::
      && rows[i].rocPlot != rows[j].importancePlot
      && rows[i].rocPlot != rows[j].importanceCsv
      && rows[i].importancePlot != rows[j].importanceCsv
  {
    forall i, j | 0 <= i < j < |rows|
      ensures rows[i].rocPlot != rows[j].rocPlot
      ensures rows[i].importancePlot != rows[j].importancePlot
      ensures rows[i].importanceCsv != rows[j].importanceCsv
    {
      NatToStringInjective(i, j);
      var x, y := NatToString(i), NatToString(j);
      FramedDistinct("roc_auc_", x, y, ".png");
      FramedDistinct("feature_importance_", x, y, ".png");
      FramedDistinct("feature_importance_", x, y, ".csv");
      JoinDistinct(folder, "roc_auc_" + x + ".png", "roc_auc_" + y + ".png");
      JoinDistinct(folder, "feature_importance_" + x + ".png", "feature_importance_" + y + ".png");
      JoinDistinct(folder, "feature_importance_" + x + ".csv", "feature_importance_" + y + ".csv");
    }
    forall i, j | 0 <= i < |rows| && 0 <= j < |rows|
      ensures rows[i].rocPlot != rows[j].importancePlot
      ensures rows[i].rocPlot != rows[j].importanceCsv
      ensures rows[i].importancePlot != rows[j].importanceCsv
    {
      var x, y := NatToString(i), NatToString(j);
      var roc, png, csv := "roc_auc_" + x + ".png", "feature_importance_" + y + ".png", "feature_importance_" + y + ".csv";
      var png' := "feature_importance_" + x + ".png";
      assert roc[0] == 'r' && png[0] == 'f' && csv[0] == 'f';
      assert png'[|png'| - 1] == 'g' && csv[|csv| - 1] == 'v';
      JoinDistinct(folder, roc, png);
      JoinDistinct(folder, roc, csv);
      JoinDistinct(folder, png', csv);
    }
  }

  // ---------------------------------------------------------------------------
  // Class counts of a binary target

  function Sum(vs: seq<int>): int
    decreases |vs|
  {
    if vs == [] then 0 else Sum(vs[..|vs| - 1]) + vs[|vs| - 1]
  }

  function CountZeros(vs: seq<int>): (n: nat)
    ensures n <= |vs|
    decreases |vs|
  {
    if vs == [] then 0 else CountZeros(vs[..|vs| - 1]) + (if vs[|vs| - 1] == 0 then 1 else 0)
  }

  predicate IsBinary(vs: seq<int>) {
    forall k | 0 <= k < |vs| :: vs[k] == 0 || vs[k] == 1
  }

  /** The values of a target column (the selection guarantees the column exists). */
  function TargetValues(df: Frame, target: string): seq<int> {
    match Find(df, target)
    case Some(c) => c.values
    case None => []
  }

  /** `df[target].sum()`: the number of positive samples of a 0/1 target. */
  function PositiveSamples(df: Frame, target: string): int {
    Sum(TargetValues(df, target))
  }

  /**
   * The number of negative samples: the zeros of the target column, so that
   * for a 0/1 target the two class counts add up to the number of rows.
   */
  function NegativeSamples(df: Frame, target: string): (n: nat)
    ensures n <= |TargetValues(df, target)|
    ensures IsBinary(TargetValues(df, target)) ==> n + PositiveSamples(df, target) == |TargetValues(df, target)|
  {
    var vs := TargetValues(df, target);
    ClassCountsCoverRows(vs);
    CountZeros(vs)
  }

  /** Python's `~v` on a target value: logical negation for booleans, two's-complement negation for integers. */
  function Complement(t: DType, v: int): int {
    if IsBoolDType(t) then 1 - v else -v - 1
  }

  function ComplementSum(t: DType, vs: seq<int>): int
    decreases |vs|
  {
    if vs == [] then 0 else ComplementSum(t, vs[..|vs| - 1]) + Complement(t, vs[|vs| - 1])
  }

  /** `(~df[target]).sum()` as written. */
  function NegativeSamplesAsWritten(df: Frame, target: string): int {
    match Find(df, target)
    case Some(c) => ComplementSum(c.dtype, c.values)
    case None => 0
  }

  /** For a 0/1 target, the negative and positive samples add up to the number of rows. */
  lemma {:induction false} ClassCountsCoverRows(vs: seq<int>)
    ensures IsBinary(vs) ==> CountZeros(vs) + Sum(vs) == |vs|
    decreases |vs|
  {
    if vs != [] && IsBinary(vs) {
      ClassCountsCoverRows(vs[..|vs| - 1]);
    }
  }

  /** On a boolean column, the code's complement sum is the number of zeros. */
  lemma {:induction false} BooleanComplementCountsZeros(vs: seq<int>)
    requires IsBinary(vs)
    ensures ComplementSum(Boolean, vs) == CountZeros(vs)
    decreases |vs|
  {
    if vs != [] {
      BooleanComplementCountsZeros(vs[..|vs| - 1]);
    }
  }

  /** On a (signed) integer column, the code's complement sum is minus the sum minus the row count. */
  lemma {:induction false} IntegerComplementSum(t: DType, vs: seq<int>)
    requires IsIntegerDType(t)
    ensures ComplementSum(t, vs) == -Sum(vs) - |vs|
    decreases |vs|
  {
    if vs != [] {
      IntegerComplementSum(t, vs[..|vs| - 1]);
    }
  }

  /** A boolean target gets the same negative count as written and as corrected. */
  lemma BooleanTargetCountsAgree(df: Frame, target: string)
    requires Find(df, target).Some? && Find(df, target).value.dtype == Boolean && IsBinary(TargetValues(df, target))
    ensures NegativeSamplesAsWritten(df, target) == NegativeSamples(df, target)
    ensures NegativeSamples(df, target) + PositiveSamples(df, target) == |TargetValues(df, target)|
  {
    BooleanComplementCountsZeros(TargetValues(df, target));
    ClassCountsCoverRows(TargetValues(df, target));
  }

  /** A label-encoded int64 target 0, 1, 0 is reported with -4 negative samples instead of 2. */
  lemma IntegerTargetNegativeCount()
    ensures var df: Frame := [Column("y", NumpyInt64, [0, 1, 0])];
      && NegativeSamplesAsWritten(df, "y") == -4
      && NegativeSamples(df, "y") == 2
  {
    var vs := [0, 1, 0];
    assert vs[..2] == [0, 1] && vs[..2][..1] == [0] && vs[..2][..1][..0] == [];
    assert Sum([0]) == 0 && CountZeros([0]) == 1;
    assert Sum([0, 1]) == 1 && CountZeros([0, 1]) == 1;
    assert Sum(vs) == 1 && CountZeros(vs) == 2;
    IntegerComplementSum(NumpyInt64, vs);
  }

  // ---------------------------------------------------------------------------
  // multivariate_classification

  /** The report row for one target and one estimator, at plot index `k`. */
  function MultiRow(run: Run, co: Collaborators, levels: FeatureScaleLevels, target: string, estimator: string, k: nat): Row {
    var model := BuildModel(levels, run.sampling, run.featureSelection, estimator);
    var folder := OutputFolder(run.outputPath, MultivariateMode, run.stamp);
    Row(target := target,
        features := run.featureCols,
        negativeSamples := NegativeSamples(run.df, target),
        positiveSamples := PositiveSamples(run.df, target),
        estimatorName := co.estimatorTypeName(estimator),
        metrics := co.crossValidate(model, run.featureCols, target),
        rocPlot := RocPlotPath(folder, k),
        importanceCsv := ImportanceCsvPath(folder, k),
        importancePlot := ImportancePlotPath(folder, k),
        sampling := run.sampling,
        featureSelection := run.featureSelection,
        selectedFeatures := Some(co.fittedFeatures(model, run.featureCols, target)),
        bestParams := None,
        importanceModel := model)
  }

  /** The rows of one target's estimator block, starting at plot index `base`. */
  function TargetBlock(run: Run, co: Collaborators, levels: FeatureScaleLevels, target: string, estimators: seq<string>, base: nat): seq<Row> {
    seq(|estimators|, j requires 0 <= j < |estimators| => MultiRow(run, co, levels, target, estimators[j], base + j))
  }

  /**
   * A multivariate row describes a model built with the run's sampling and
   * feature selection, cross-validated on all requested feature columns.
   */
  predicate IsMultivariateRow(run: Run, co: Collaborators, row: Row) {
    && row.features == run.featureCols
    && row.sampling == run.sampling
    && row.featureSelection == run.featureSelection
    && row.importanceModel.sampling == run.sampling
    && row.importanceModel.featureSelection == run.featureSelection
    && row.importanceModel.estimator in run.estimators
    && row.metrics == co.crossValidate(row.importanceModel, run.featureCols, row.target)
    && row.selectedFeatures == Some(co.fittedFeatures(row.importanceModel, run.featureCols, row.target))
    && row.bestParams.None?
  }

  /** The rows for the targets `targets`, target-major and estimator-minor. */
  function MultivariateRows(run: Run, co: Collaborators, levels: FeatureScaleLevels, targets: seq<string>): (rows: seq<Row>)
    ensures |rows| == |targets| * |run.estimators|
    ensures ArtifactsIndexed(rows, OutputFolder(run.outputPath, MultivariateMode, run.stamp), 0)
    ensures forall row | row in rows :: row.target in targets && IsMultivariateRow(run, co, row)
    decreases |targets|
  {
    if targets == [] then []
    else
      var init := targets[..|targets| - 1];
      MultivariateRows(run, co, levels, init)
        + TargetBlock(run, co, levels, targets[|targets| - 1], run.estimators, |init| * |run.estimators|)
  }

  /** The reports written inside the target loop, one after each target's block. */
  function MultivariateLog(run: Run, co: Collaborators, levels: FeatureScaleLevels, targets: seq<string>): (log: seq<seq<Row>>)
    ensures |log| == |targets|
    decreases |targets|
  {
    if targets == [] then []
    else MultivariateLog(run, co, levels, targets[..|targets| - 1]) + [MultivariateRows(run, co, levels, targets)]
  }

  /** One report write per target, after its block, and one after the loop. */
  function MultivariateSnapshots(run: Run, co: Collaborators, levels: FeatureScaleLevels, targets: seq<string>): seq<seq<Row>> {
    MultivariateLog(run, co, levels, targets) + [MultivariateRows(run, co, levels, targets)]
  }

  /** `multivariate_classification`: a selection error ends the run before any report is written. */
  function Multivariate(run: Run, co: Collaborators): Outcome {
    match SelectionOf(run.df, run.featureCols, run.targetCols, run.supported)
    case Err(e) => Outcome(Err(e), [])
    case Ok(sel) =>
      var targets := Labels(sel.targets);
      Outcome(Ok(MultivariateRows(run, co, sel.scaleLevels, targets)), MultivariateSnapshots(run, co, sel.scaleLevels, targets))
  }

  lemma TargetBlockStep(run: Run, co: Collaborators, levels: FeatureScaleLevels, target: string, j: nat, base: nat)
    requires j < |run.estimators|
    ensures TargetBlock(run, co, levels, target, run.estimators[..j + 1], base)
         == TargetBlock(run, co, levels, target, run.estimators[..j], base) + [MultiRow(run, co, levels, target, run.estimators[j], base + j)]
  {
  }

  lemma MultivariateRowsStep(run: Run, co: Collaborators, levels: FeatureScaleLevels, targets: seq<string>, i: nat)
    requires i < |targets|
    ensures MultivariateRows(run, co, levels, targets[..i + 1])
         == MultivariateRows(run, co, levels, targets[..i]) + TargetBlock(run, co, levels, targets[i], run.estimators, i * |run.estimators|)
    ensures MultivariateLog(run, co, levels, targets[..i + 1])
         == MultivariateLog(run, co, levels, targets[..i]) + [MultivariateRows(run, co, levels, targets[..i + 1])]
  {
    assert targets[..i + 1][..i] == targets[..i];
    assert run.estimators[..|run.estimators|] == run.estimators;
  }

  /** Row `i * |estimators| + j` is the row of target i and estimator j. */
  lemma {:induction false} MultivariateRowAt(run: Run, co: Collaborators, levels: FeatureScaleLevels, targets: seq<string>, i: nat, j: nat)
    requires i < |targets| && j < |run.estimators|
    ensures i * |run.estimators| + j < |MultivariateRows(run, co, levels, targets)|
    ensures MultivariateRows(run, co, levels, targets)[i * |run.estimators| + j]
         == MultiRow(run, co, levels, targets[i], run.estimators[j], i * |run.estimators| + j)
    decreases |targets|
  {
    var n := |run.estimators|;
    var init := targets[..|targets| - 1];
    assert |MultivariateRows(run, co, levels, init)| == |init| * n;
    if i < |init| {
      MultivariateRowAt(run, co, levels, init, i, j);
      assert init[i] == targets[i];
    } else {
      assert i * n + j - |init| * n == j;
    }
  }

  /** The rows for a prefix of the targets are a prefix of the rows. */
  lemma {:induction false} MultivariatePrefix(run: Run, co: Collaborators, levels: FeatureScaleLevels, targets: seq<string>, m: nat)
    requires m <= |targets|
    ensures m * |run.estimators| <= |MultivariateRows(run, co, levels, targets)|
    ensures MultivariateRows(run, co, levels, targets[..m]) == MultivariateRows(run, co, levels, targets)[..m * |run.estimators|]
    decreases |targets|
  {
    var n := |run.estimators|;
    if m == |targets| {
      assert targets[..m] == targets;
    } else {
      var init := targets[..|targets| - 1];
      MultivariatePrefix(run, co, levels, init, m);
      assert init[..m] == targets[..m];
      assert m * n <= |init| * n;
    }
  }

  /** Every report written inside the target loop is a prefix of the final rows. */
  lemma {:induction false} MultivariateLogArePrefixes(run: Run, co: Collaborators, levels: FeatureScaleLevels, targets: seq<string>)
    ensures forall s | s in MultivariateLog(run, co, levels, targets) :: s <= MultivariateRows(run, co, levels, targets)
    decreases |targets|
  {
    if targets != [] {
      var init := targets[..|targets| - 1];
      MultivariateLogArePrefixes(run, co, levels, init);
      MultivariatePrefix(run, co, levels, targets, |init|);
      assert targets[..|init|] == init;
    }
  }

  /**
   * A successful run writes the report |targets| + 1 times; every write is a
   * prefix of the final report and the last two writes are equal.
   */
  lemma MultivariateCheckpoints(run: Run, co: Collaborators)
    requires Multivariate(run, co).report.Ok?
    ensures var o := Multivariate(run, co);
      var targets := SelectedTargets(run.df, run.targetCols);
      && |o.snapshots| == |targets| + 1
      && (forall s | s in o.snapshots :: s <= o.report.value)
      && o.snapshots[|o.snapshots| - 1] == o.report.value
      && (|targets| > 0 ==> o.snapshots[|o.snapshots| - 2] == o.report.value)
      && |o.report.value| == |targets| * |run.estimators|
  {
    var sel := SelectionOf(run.df, run.featureCols, run.targetCols, run.supported).value;
    SelectedTargetColumns(run.df, run.featureCols, run.targetCols, run.supported);
    MultivariateLogArePrefixes(run, co, sel.scaleLevels, Labels(sel.targets));
  }

  // ---------------------------------------------------------------------------
  // grid_search_multivariate_classification

  /** The initial pass builds every estimator without feature selection. */
  function InitialModel(run: Run, levels: FeatureScaleLevels, estimator: string): Model {
    BuildModel(levels, run.sampling, None, estimator)
  }

  function InitialAuc(run: Run, co: Collaborators, levels: FeatureScaleLevels, target: string, estimator: string): real {
    co.crossValidate(InitialModel(run, levels, estimator), run.featureCols, target).meanAuc
  }

  /** An estimator of the run whose initial mean AUC no other estimator exceeds. */
  predicate IsBestEstimator(run: Run, co: Collaborators, levels: FeatureScaleLevels, target: string, estimator: string) {
    && estimator in run.estimators
    && forall e | e in run.estimators :: InitialAuc(run, co, levels, target, e) <= InitialAuc(run, co, levels, target, estimator)
  }

  /** A position holding a largest initial mean AUC names a best estimator. */
  lemma LargestAucIsBest(run: Run, co: Collaborators, levels: FeatureScaleLevels, target: string, aucs: seq<real>, b: nat)
    requires |aucs| == |run.estimators| && b < |aucs|
    requires forall m | 0 <= m < |aucs| :: aucs[m] == InitialAuc(run, co, levels, target, run.estimators[m])
    requires forall m | 0 <= m < |aucs| :: aucs[m] <= aucs[b]
    ensures IsBestEstimator(run, co, levels, target, run.estimators[b])
  {
    forall e | e in run.estimators
      ensures InitialAuc(run, co, levels, target, e) <= InitialAuc(run, co, levels, target, run.estimators[b])
    {
      var m :| 0 <= m < |run.estimators| && run.estimators[m] == e;
      assert aucs[m] <= aucs[b];
    }
  }

  /** The model handed to the hyper-parameter search: the run's sampling and feature selection. */
  function SearchModel(run: Run, levels: FeatureScaleLevels, best: string): Model {
    BuildModel(levels, run.sampling, run.featureSelection, best)
  }

  /** A fresh build of the search model with the best parameters set. */
  function OptimizedModel(run: Run, co: Collaborators, levels: FeatureScaleLevels, target: string, best: string): Model {
    var search := co.optimize(SearchModel(run, levels, best), run.featureCols, target);
    SetParams(BuildModel(levels, run.sampling, run.featureSelection, best), search.bestParams)
  }

  /**
   * The report row of one target. The feature importance comes from the last
   * model of the initial pass, as the code has it.
   */
  function GridRow(run: Run, co: Collaborators, levels: FeatureScaleLevels, target: string, best: string, k: nat): Row
    requires |run.estimators| > 0
  {
    var search := co.optimize(SearchModel(run, levels, best), run.featureCols, target);
    var optimized := OptimizedModel(run, co, levels, target, best);
    var folder := OutputFolder(run.outputPath, GridSearchMode, run.stamp);
    Row(target := target,
        features := run.featureCols,
        negativeSamples := NegativeSamples(run.df, target),
        positiveSamples := PositiveSamples(run.df, target),
        estimatorName := co.classifierTypeName(best),
        metrics := co.crossValidate(optimized, run.featureCols, target),
        rocPlot := RocPlotPath(folder, k),
        importanceCsv := ImportanceCsvPath(folder, k),
        importancePlot := ImportancePlotPath(folder, k),
        sampling := run.sampling,
        featureSelection := run.featureSelection,
        selectedFeatures := Some(co.fittedFeatures(optimized, run.featureCols, target)),
        bestParams := Some(search.bestParams),
        importanceModel := InitialModel(run, levels, run.estimators[|run.estimators| - 1]))
  }

  /** One row per target, target `k` with the estimator `chosen[k]`. */
  function GridRows(run: Run, co: Collaborators, levels: FeatureScaleLevels, targets: seq<string>, chosen: seq<string>): seq<Row>
    requires |chosen| == |targets| && (|targets| > 0 ==> |run.estimators| > 0)
  {
    seq(|targets|, k requires 0 <= k < |targets| => GridRow(run, co, levels, targets[k], chosen[k], k))
  }

  lemma GridRowsStep(run: Run, co: Collaborators, levels: FeatureScaleLevels, targets: seq<string>, chosen: seq<string>, best: string, i: nat)
    requires i < |targets| && |chosen| == i && |run.estimators| > 0
    ensures GridRows(run, co, levels, targets[..i + 1], chosen + [best])
         == GridRows(run, co, levels, targets[..i], chosen) + [GridRow(run, co, levels, targets[i], best, i)]
  {
  }

  /**
   * What the grid search returns for the selected targets: IndexError exactly
   * when there are targets but no estimators; otherwise one row per target, in
   * order, with plot index k, the caller's feature selection and the searched
   * best parameters.
   */
  predicate GridSearchReport(run: Run, targets: seq<string>, r: Result<seq<Row>, Exception>) {
    && (r.Err? <==> |targets| > 0 && run.estimators == [])
    && (r.Err? ==> r.error == IndexError)
    && (r.Ok? ==>
          && |r.value| == |targets|
          && ArtifactsIndexed(r.value, OutputFolder(run.outputPath, GridSearchMode, run.stamp), 0)
          && forall k | 0 <= k < |targets| ::
               r.value[k].target == targets[k] && r.value[k].featureSelection == run.featureSelection
               && r.value[k].bestParams.Some?)
  }

  /** The grid-search rows of any choice of estimators form a grid-search report. */
  lemma GridRowsReport(run: Run, co: Collaborators, levels: FeatureScaleLevels, targets: seq<string>, chosen: seq<string>)
    requires |chosen| == |targets| && (|targets| > 0 ==> |run.estimators| > 0)
    ensures GridSearchReport(run, targets, Ok(GridRows(run, co, levels, targets, chosen)))
  {
    GridRowsDescribeOptimizedModels(run, co, levels, targets, chosen);
  }

  /** The reports written inside the target loop: one after each row. */
  function RowLog(rows: seq<Row>): (log: seq<seq<Row>>)
    ensures |log| == |rows|
    decreases |rows|
  {
    if rows == [] then [] else RowLog(rows[..|rows| - 1]) + [rows]
  }

  lemma RowLogStep(rows: seq<Row>, row: Row)
    ensures RowLog(rows + [row]) == RowLog(rows) + [rows + [row]]
  {
    assert (rows + [row])[..|rows|] == rows;
  }

  /** One report write per row, after it, and one after the loop. */
  function RowCheckpoints(rows: seq<Row>): seq<seq<Row>> {
    RowLog(rows) + [rows]
  }

  /**
   * Each grid-search row is cross-validated on a rebuild of the chosen
   * estimator with the run's feature selection and the searched parameters
   * applied, reports those parameters, and uses plot index k.
   */
  lemma GridRowsDescribeOptimizedModels(run: Run, co: Collaborators, levels: FeatureScaleLevels, targets: seq<string>, chosen: seq<string>)
    requires |chosen| == |targets| && (|targets| > 0 ==> |run.estimators| > 0)
    ensures var rows := GridRows(run, co, levels, targets, chosen);
      && |rows| == |targets|
      && ArtifactsIndexed(rows, OutputFolder(run.outputPath, GridSearchMode, run.stamp), 0)
      && forall k | 0 <= k < |rows| ::
        var search := co.optimize(SearchModel(run, levels, chosen[k]), run.featureCols, targets[k]);
        var optimized := OptimizedModel(run, co, levels, targets[k], chosen[k]);
        && optimized.params == search.bestParams
        && rows[k].target == targets[k]
        && optimized.featureSelection == run.featureSelection && optimized.estimator == chosen[k]
        && rows[k].metrics == co.crossValidate(optimized, run.featureCols, targets[k])
        && rows[k].bestParams == Some(search.bestParams)
        && rows[k].featureSelection == run.featureSelection
  {
    var rows := GridRows(run, co, levels, targets, chosen);
    forall k | 0 <= k < |rows|
      ensures OptimizedModel(run, co, levels, targets[k], chosen[k]).params
              == co.optimize(SearchModel(run, levels, chosen[k]), run.featureCols, targets[k]).bestParams
    {
      var search := co.optimize(SearchModel(run, levels, chosen[k]), run.featureCols, targets[k]);
      var optimized := OptimizedModel(run, co, levels, targets[k], chosen[k]);
      assert optimized.params == map[] + search.bestParams;
      assert map[] + search.bestParams == search.bestParams;
    }
  }

  /** Every report written inside the loop is a prefix of the rows. */
  lemma {:induction false} RowLogArePrefixes(rows: seq<Row>)
    ensures forall s | s in RowLog(rows) :: s <= rows
    decreases |rows|
  {
    if rows != [] {
      RowLogArePrefixes(rows[..|rows| - 1]);
    }
  }

  /** Every write is a prefix of the final report, the last two writes are equal, and there are |rows| + 1 of them. */
  lemma RowCheckpointsArePrefixes(rows: seq<Row>)
    ensures |RowCheckpoints(rows)| == |rows| + 1
    ensures forall s | s in RowCheckpoints(rows) :: s <= rows
    ensures RowCheckpoints(rows)[|rows|] == rows
    ensures |rows| > 0 ==> RowCheckpoints(rows)[|rows| - 1] == rows
  {
    RowLogArePrefixes(rows);
  }

  // ---------------------------------------------------------------------------
  // univariate_classification

  /** The report row for one feature, target and estimator, at plot index `k`; feature selection is always off. */
  function UniRow(run: Run, co: Collaborators, levels: FeatureScaleLevels, feature: string, target: string, estimator: string, k: nat): Row {
    var model := BuildModel(levels, run.sampling, None, estimator);
    var folder := OutputFolder(run.outputPath, UnivariateMode, run.stamp);
    Row(target := target,
        features := co.fittedFeatures(model, [feature], target),
        negativeSamples := NegativeSamples(run.df, target),
        positiveSamples := PositiveSamples(run.df, target),
        estimatorName := co.classifierTypeName(estimator),
        metrics := co.crossValidate(model, [feature], target),
        rocPlot := RocPlotPath(folder, k),
        importanceCsv := ImportanceCsvPath(folder, k),
        importancePlot := ImportancePlotPath(folder, k),
        sampling := run.sampling,
        featureSelection := None,
        selectedFeatures := None,
        bestParams := None,
        importanceModel := model)
  }

  function UniTargetBlock(run: Run, co: Collaborators, levels: FeatureScaleLevels, feature: string, target: string, estimators: seq<string>, base: nat): seq<Row> {
    seq(|estimators|, j requires 0 <= j < |estimators| => UniRow(run, co, levels, feature, target, estimators[j], base + j))
  }

  lemma UniTargetBlockStep(run: Run, co: Collaborators, levels: FeatureScaleLevels, feature: string, target: string, j: nat, base: nat)
    requires j < |run.estimators|
    ensures UniTargetBlock(run, co, levels, feature, target, run.estimators[..j + 1], base)
         == UniTargetBlock(run, co, levels, feature, target, run.estimators[..j], base)
            + [UniRow(run, co, levels, feature, target, run.estimators[j], base + j)]
  {
  }

  /** A univariate row: no feature selection anywhere. */
  predicate IsUnivariateRow(run: Run, co: Collaborators, row: Row) {
    && row.featureSelection.None?
    && row.importanceModel.featureSelection.None?
    && row.importanceModel.sampling == run.sampling
    && row.sampling == run.sampling
  }

  /** The row's model is fitted and cross-validated on the single column `feature`, and its features are the fitted names. */
  predicate FitsFeature(co: Collaborators, row: Row, feature: string) {
    && row.features == co.fittedFeatures(row.importanceModel, [feature], row.target)
    && row.metrics == co.crossValidate(row.importanceModel, [feature], row.target)
  }

  /** The rows of one feature: one estimator block per target, starting at plot index `base`. */
  function UniFeatureBlock(run: Run, co: Collaborators, levels: FeatureScaleLevels, feature: string, targets: seq<string>, base: nat): (rows: seq<Row>)
    ensures |rows| == |targets| * |run.estimators|
    decreases |targets|
  {
    if targets == [] then []
    else
      var init := targets[..|targets| - 1];
      UniFeatureBlock(run, co, levels, feature, init, base)
        + UniTargetBlock(run, co, levels, feature, targets[|targets| - 1], run.estimators, base + |init| * |run.estimators|)
  }

  /**
   * The rows of one feature's block have consecutive plot indices from
   * `base`; every row is about one of the targets, has no feature selection,
   * and is cross-validated on that single feature.
   */
  lemma {:induction false} UniFeatureBlockRows(run: Run, co: Collaborators, levels: FeatureScaleLevels, feature: string, targets: seq<string>, base: nat)
    ensures var rows := UniFeatureBlock(run, co, levels, feature, targets, base);
      && ArtifactsIndexed(rows, OutputFolder(run.outputPath, UnivariateMode, run.stamp), base)
      && forall row | row in rows ::
           row.target in targets && IsUnivariateRow(run, co, row) && FitsFeature(co, row, feature)
    decreases |targets|
  {
    if targets != [] {
      var init := targets[..|targets| - 1];
      UniFeatureBlockRows(run, co, levels, feature, init, base);
      forall t | t in init ensures t in targets {
        var i :| 0 <= i < |init| && init[i] == t;
        assert targets[i] == t;
      }
    }
  }

  /** Row i x |estimators| + j of a feature's block is that feature's row for target i and estimator j. */
  lemma {:induction false} UniFeatureBlockRowAt(run: Run, co: Collaborators, levels: FeatureScaleLevels, feature: string, targets: seq<string>, base: nat, i: nat, j: nat)
    requires i < |targets| && j < |run.estimators|
    ensures i * |run.estimators| + j < |UniFeatureBlock(run, co, levels, feature, targets, base)|
    ensures UniFeatureBlock(run, co, levels, feature, targets, base)[i * |run.estimators| + j]
         == UniRow(run, co, levels, feature, targets[i], run.estimators[j], base + i * |run.estimators| + j)
    decreases |targets|
  {
    var n := |run.estimators|;
    var init := targets[..|targets| - 1];
    assert |UniFeatureBlock(run, co, levels, feature, init, base)| == |init| * n;
    if i < |init| {
      UniFeatureBlockRowAt(run, co, levels, feature, init, base, i, j);
      assert init[i] == targets[i];
    } else {
      assert i * n + j - |init| * n == j;
    }
  }

  /** The reports written inside one feature's target loop, one after each target block. */
  function UniFeatureSnapshots(run: Run, co: Collaborators, levels: FeatureScaleLevels, feature: string, targets: seq<string>, before: seq<Row>): (snaps: seq<seq<Row>>)
    ensures |snaps| == |targets|
    decreases |targets|
  {
    if targets == [] then []
    else
      UniFeatureSnapshots(run, co, levels, feature, targets[..|targets| - 1], before)
        + [before + UniFeatureBlock(run, co, levels, feature, targets, |before|)]
  }

  /**
   * `univariate_classification` over `features`: each feature is selected on
   * its own, and a selection error ends the run with the reports written so
   * far. A report is written after each target block and after each feature.
   */
  function Univariate(run: Run, co: Collaborators, features: seq<string>): Outcome
    decreases |features|
  {
    if features == [] then Outcome(Ok([]), [])
    else
      var prev := Univariate(run, co, features[..|features| - 1]);
      var feature := features[|features| - 1];
      if prev.report.Err? then prev
      else
        match SelectionOf(run.df, [feature], run.targetCols, run.supported)
        case Err(e) => Outcome(Err(e), prev.snapshots)
        case Ok(sel) =>
          var rows := prev.report.value;
          var targets := Labels(sel.targets);
          var block := UniFeatureBlock(run, co, sel.scaleLevels, feature, targets, |rows|);
          Outcome(Ok(rows + block),
                  prev.snapshots + UniFeatureSnapshots(run, co, sel.scaleLevels, feature, targets, rows) + [rows + block])
  }

  /** A successful run over a non-empty list succeeded on all but the last feature, and selected the last one. */
  lemma UnivariateOkParts(run: Run, co: Collaborators, features: seq<string>)
    requires features != [] && Univariate(run, co, features).report.Ok?
    ensures Univariate(run, co, features[..|features| - 1]).report.Ok?
    ensures SelectionOf(run.df, [features[|features| - 1]], run.targetCols, run.supported).Ok?
  {
  }

  /** Once all but the last feature have run and the last one is selected, its block and writes are appended. */
  lemma UnivariateUnfold(run: Run, co: Collaborators, features: seq<string>)
    requires features != [] && Univariate(run, co, features[..|features| - 1]).report.Ok?
    requires SelectionOf(run.df, [features[|features| - 1]], run.targetCols, run.supported).Ok?
    ensures var feature, prev := features[|features| - 1], Univariate(run, co, features[..|features| - 1]);
      var sel := SelectionOf(run.df, [feature], run.targetCols, run.supported).value;
      var rows := prev.report.value;
      var block := UniFeatureBlock(run, co, sel.scaleLevels, feature, Labels(sel.targets), |rows|);
      Univariate(run, co, features)
        == Outcome(Ok(rows + block), prev.snapshots + UniFeatureSnapshots(run, co, sel.scaleLevels, feature, Labels(sel.targets), rows) + [rows + block])
  {
  }

  lemma MultiplySuccessor(a: nat, b: nat)
    ensures (a + 1) * b == a * b + b
  {
  }

  /**
   * Row k of a successful univariate report uses plot index k, no row has
   * feature selection, and every row is fitted on one of the features alone.
   */
  lemma {:induction false} UnivariateRows(run: Run, co: Collaborators, features: seq<string>)
    requires Univariate(run, co, features).report.Ok?
    ensures var rows := Univariate(run, co, features).report.value;
      && ArtifactsIndexed(rows, OutputFolder(run.outputPath, UnivariateMode, run.stamp), 0)
      && forall row | row in rows :: IsUnivariateRow(run, co, row) && exists i | 0 <= i < |features| :: FitsFeature(co, row, features[i])
    decreases |features|
  {
    if features != [] {
      var init := features[..|features| - 1];
      var feature := features[|features| - 1];
      UnivariateRows(run, co, init);
      var rows := Univariate(run, co, init).report.value;
      var sel := SelectionOf(run.df, [feature], run.targetCols, run.supported).value;
      var block := UniFeatureBlock(run, co, sel.scaleLevels, feature, Labels(sel.targets), |rows|);
      UniFeatureBlockRows(run, co, sel.scaleLevels, feature, Labels(sel.targets), |rows|);
      assert Univariate(run, co, features).report.value == rows + block;
      forall row | row in rows + block
        ensures exists i | 0 <= i < |features| :: FitsFeature(co, row, features[i])
      {
        if row in rows {
          var i :| 0 <= i < |init| && FitsFeature(co, row, init[i]);
          assert init[i] == features[i];
        } else {
          assert FitsFeature(co, row, features[|features| - 1]);
        }
      }
    }
  }

  lemma UniFeatureBlockStep(run: Run, co: Collaborators, levels: FeatureScaleLevels, feature: string, targets: seq<string>, t: nat, before: seq<Row>)
    requires t < |targets|
    ensures UniFeatureBlock(run, co, levels, feature, targets[..t + 1], |before|)
         == UniFeatureBlock(run, co, levels, feature, targets[..t], |before|)
            + UniTargetBlock(run, co, levels, feature, targets[t], run.estimators, |before| + t * |run.estimators|)
    ensures UniFeatureSnapshots(run, co, levels, feature, targets[..t + 1], before)
         == UniFeatureSnapshots(run, co, levels, feature, targets[..t], before)
            + [before + UniFeatureBlock(run, co, levels, feature, targets[..t + 1], |before|)]
  {
    assert targets[..t + 1][..t] == targets[..t];
  }

  /** One more feature: a selection error ends the run, otherwise its block and writes are appended. */
  lemma UnivariateStep(run: Run, co: Collaborators, features: seq<string>, f: nat, rows: seq<Row>, snapshots: seq<seq<Row>>)
    requires f < |features| && Univariate(run, co, features[..f]) == Outcome(Ok(rows), snapshots)
    ensures var selection := SelectionOf(run.df, [features[f]], run.targetCols, run.supported);
      Univariate(run, co, features[..f + 1]) ==
        if selection.Err? then Outcome(Err(selection.error), snapshots)
        else
          var sel := selection.value;
          var block := UniFeatureBlock(run, co, sel.scaleLevels, features[f], Labels(sel.targets), |rows|);
          Outcome(Ok(rows + block),
                  snapshots + UniFeatureSnapshots(run, co, sel.scaleLevels, features[f], Labels(sel.targets), rows) + [rows + block])
  {
    assert features[..f + 1][..f] == features[..f];
  }

  /**
   * When every feature and target is in the frame, the report has
   * |features| * |selected targets| * |estimators| rows and is written
   * |features| * (|selected targets| + 1) times; no feature means no write.
   */
  lemma {:induction false} UnivariateCounts(run: Run, co: Collaborators, features: seq<string>)
    requires forall c | c in features + run.targetCols :: c in Labels(run.df)
    ensures var o := Univariate(run, co, features);
      var targets := SelectedTargets(run.df, run.targetCols);
      && o.report.Ok?
      && |o.report.value| == |features| * (|targets| * |run.estimators|)
      && |o.snapshots| == |features| * (|targets| + 1)
    decreases |features|
  {
    if features != [] {
      var init := features[..|features| - 1];
      assert forall c | c in init + run.targetCols :: c in features + run.targetCols;
      UnivariateCounts(run, co, init);
      UnivariateCountsStep(run, co, features);
      var targets := SelectedTargets(run.df, run.targetCols);
      MultiplySuccessor(|init|, |targets| * |run.estimators|);
      MultiplySuccessor(|init|, |targets| + 1);
    }
  }

  /** The last feature of a run whose labels are all present adds one block and |selected targets| + 1 writes. */
  lemma UnivariateCountsStep(run: Run, co: Collaborators, features: seq<string>)
    requires features != [] && forall c | c in features + run.targetCols :: c in Labels(run.df)
    requires Univariate(run, co, features[..|features| - 1]).report.Ok?
    ensures var prev, o := Univariate(run, co, features[..|features| - 1]), Univariate(run, co, features);
      var targets := SelectedTargets(run.df, run.targetCols);
      && o.report.Ok?
      && |o.report.value| == |prev.report.value| + |targets| * |run.estimators|
      && |o.snapshots| == |prev.snapshots| + |targets| + 1
  {
    var init := features[..|features| - 1];
    var feature := features[|features| - 1];
    var prev := Univariate(run, co, init);
    SelectionFailsOnlyOnMissingLabels(run.df, [feature], run.targetCols, run.supported);
    var sel := SelectionOf(run.df, [feature], run.targetCols, run.supported).value;
    SelectedTargetColumns(run.df, [feature], run.targetCols, run.supported);
    var targets := Labels(sel.targets);
    assert targets == SelectedTargets(run.df, run.targetCols);
    var rows := prev.report.value;
    var block := UniFeatureBlock(run, co, sel.scaleLevels, feature, targets, |rows|);
    UniFeatureBlockRows(run, co, sel.scaleLevels, feature, targets, |rows|);
    var snaps := UniFeatureSnapshots(run, co, sel.scaleLevels, feature, targets, rows);
    assert Univariate(run, co, features) == Outcome(Ok(rows + block), prev.snapshots + snaps + [rows + block]);
  }

  /**
   * Running on a prefix of the features writes a prefix of the reports; once
   * the prefix fails, the whole run ends as the prefix did; otherwise a
   * successful run's report extends the prefix's (feature-major order).
   */
  lemma {:induction false} UnivariatePrefix(run: Run, co: Collaborators, features: seq<string>, m: nat)
    requires m <= |features|
    ensures var p, o := Univariate(run, co, features[..m]), Univariate(run, co, features);
      && p.snapshots <= o.snapshots
      && (p.report.Err? ==> o == p)
      && (o.report.Ok? ==> p.report.Ok? && p.report.value <= o.report.value)
    decreases |features|
  {
    if m == |features| {
      assert features[..m] == features;
    } else {
      var init := features[..|features| - 1];
      UnivariatePrefix(run, co, init, m);
      assert init[..m] == features[..m];
    }
  }

  /** While a feature's targets run, each write is the report so far extended by a prefix of that feature's rows. */
  lemma {:induction false} UniFeatureSnapshotsArePrefixes(run: Run, co: Collaborators, levels: FeatureScaleLevels, feature: string, targets: seq<string>, before: seq<Row>)
    ensures forall s | s in UniFeatureSnapshots(run, co, levels, feature, targets, before) ::
      s <= before + UniFeatureBlock(run, co, levels, feature, targets, |before|)
    decreases |targets|
  {
    if targets != [] {
      var init := targets[..|targets| - 1];
      UniFeatureSnapshotsArePrefixes(run, co, levels, feature, init, before);
      var whole := UniFeatureBlock(run, co, levels, feature, targets, |before|);
      assert UniFeatureBlock(run, co, levels, feature, init, |before|) <= whole;
    }
  }

  /** Every report a successful univariate run writes is a prefix of its final report, and the last write is that report. */
  lemma {:induction false} UnivariateSnapshotsArePrefixes(run: Run, co: Collaborators, features: seq<string>)
    requires Univariate(run, co, features).report.Ok?
    ensures var o := Univariate(run, co, features);
      && (forall s | s in o.snapshots :: s <= o.report.value)
      && (features != [] ==> o.snapshots[|o.snapshots| - 1] == o.report.value)
    decreases |features|
  {
    if features != [] {
      var init := features[..|features| - 1];
      var feature := features[|features| - 1];
      UnivariateOkParts(run, co, features);
      UnivariateSnapshotsArePrefixes(run, co, init);
      UnivariateUnfold(run, co, features);
      var sel := SelectionOf(run.df, [feature], run.targetCols, run.supported).value;
      var prev := Univariate(run, co, init);
      var rows := prev.report.value;
      var block := UniFeatureBlock(run, co, sel.scaleLevels, feature, Labels(sel.targets), |rows|);
      var snaps := UniFeatureSnapshots(run, co, sel.scaleLevels, feature, Labels(sel.targets), rows);
      UniFeatureSnapshotsArePrefixes(run, co, sel.scaleLevels, feature, Labels(sel.targets), rows);
      var all := prev.snapshots + snaps + [rows + block];
      forall s | s in all ensures s <= rows + block {
        if s in prev.snapshots {
          assert s <= rows;
        }
      }
    }
  }
}
