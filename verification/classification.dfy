/**
 * The three experiment drivers of racoons/models/classification.py as loops
 * that grow the report row by row, advance the plot index and record every
 * report write (`to_excel` together with `to_csv`) in a ghost log. Each is
 * proved to produce what ClassificationSpec describes.
 */
module Classification {
  import opened Wrappers
  import opened Paths
  import opened Frames
  import opened DataUtils
  import opened ClassificationSpec

  /**
   * `multivariate_classification`: for every selected target and every
   * estimator, one cross-validated model and one report row; the report is
   * written after each target and once more at the end.
   */
  method MultivariateClassification(run: Run, co: Collaborators)
    returns (r: Result<seq<Row>, Exception>, ghost snapshots: seq<seq<Row>>)
    ensures r == Multivariate(run, co).report
    ensures Outcome(r, snapshots) == Multivariate(run, co)
  {
    snapshots := [];
    var selection := FeaturesAndTargetsFromDataframe(run.df, run.featureCols, run.targetCols, run.supported);
    if selection.Err? {
      return Err(selection.error), snapshots;
    }
    var featureScaleLevels := selection.value.scaleLevels;
    var targets := Labels(selection.value.targets);
    var report: seq<Row> := [];
    var plotIndex: nat := 0;
    for i := 0 to |targets|
      invariant report == MultivariateRows(run, co, featureScaleLevels, targets[..i])
      invariant plotIndex == |report|
      invariant snapshots == MultivariateLog(run, co, featureScaleLevels, targets[..i])
    {
      report, plotIndex := MultivariateTarget(run, co, featureScaleLevels, targets[i], report, plotIndex);
      MultivariateRowsStep(run, co, featureScaleLevels, targets, i);
      snapshots := snapshots + [report];
    }
    assert targets[..|targets|] == targets;
    snapshots := snapshots + [report];
    r := Ok(report);
  }

  /** The estimator loop of `multivariate_classification` for one target, continuing at `plotIndex`. */
  method MultivariateTarget(run: Run, co: Collaborators, featureScaleLevels: FeatureScaleLevels, target: string,
                            report: seq<Row>, plotIndex: nat)
    returns (report': seq<Row>, plotIndex': nat)
    requires plotIndex == |report|
    ensures report' == report + TargetBlock(run, co, featureScaleLevels, target, run.estimators, plotIndex)
    ensures plotIndex' == |report'|
  {
    var folder := OutputFolder(run.outputPath, MultivariateMode, run.stamp);
    report', plotIndex' := report, plotIndex;
    for j := 0 to |run.estimators|
      invariant report' == report + TargetBlock(run, co, featureScaleLevels, target, run.estimators[..j], plotIndex)
      invariant plotIndex' == plotIndex + j == |report'|
    {
      var estimator := run.estimators[j];
      var estimatorName := co.estimatorTypeName(estimator);
      var model := BuildModel(featureScaleLevels, run.sampling, run.featureSelection, estimator);
      var cvResultMetrics := co.crossValidate(model, run.featureCols, target);
      var rocCurvePlotPath := Join(folder, "roc_auc_" + NatToString(plotIndex') + ".png");
      var featureImportancePlotPath := Join(folder, "feature_importance_" + NatToString(plotIndex') + ".png");
      var featureImportanceCsvPath := Join(folder, "feature_importance_" + NatToString(plotIndex') + ".csv");
      var selectedFeatures := co.fittedFeatures(model, run.featureCols, target);
      var row := Row(target := target,
                     features := run.featureCols,
                     negativeSamples := NegativeSamples(run.df, target),
                     positiveSamples := PositiveSamples(run.df, target),
                     estimatorName := estimatorName,
                     metrics := cvResultMetrics,
                     rocPlot := rocCurvePlotPath,
                     importanceCsv := featureImportanceCsvPath,
                     importancePlot := featureImportancePlotPath,
                     sampling := run.sampling,
                     featureSelection := run.featureSelection,
                     selectedFeatures := Some(selectedFeatures),
                     bestParams := None,
                     importanceModel := model);
      TargetBlockStep(run, co, featureScaleLevels, target, j, plotIndex);
      report' := report' + [row];
      plotIndex' := plotIndex' + 1;
    }
    assert run.estimators[..|run.estimators|] == run.estimators;
  }

  /** The position of a largest value: the row `sort_values(by="AUC", ascending=False).iloc[0]` picks. */
  method BestIndex(aucs: seq<real>) returns (best: nat)
    requires |aucs| > 0
    ensures best < |aucs|
    ensures forall k | 0 <= k < |aucs| :: aucs[k] <= aucs[best]
  {
    best := 0;
    for k := 1 to |aucs|
      invariant best < k
      invariant forall m | 0 <= m < k :: aucs[m] <= aucs[best]
    {
      if aucs[k] > aucs[best] {
        best := k;
      }
    }
  }

  /**
   * `grid_search_multivariate_classification`: per selected target, an
   * initial cross-validation of every estimator without feature selection,
   * a hyper-parameter search on an estimator with the best initial mean AUC,
   * and one report row for the optimized model; the report is written after
   * each target and once more at the end. With targets but no estimators the
   * pick fails with IndexError. `chosen` records the estimator picked per
   * target; ties are broken in no particular order.
   */
  method GridSearchMultivariateClassification(run: Run, co: Collaborators)
    returns (r: Result<seq<Row>, Exception>, ghost snapshots: seq<seq<Row>>, ghost chosen: seq<string>)
    ensures SelectionOf(run.df, run.featureCols, run.targetCols, run.supported).Err? ==>
      r == Err(SelectionOf(run.df, run.featureCols, run.targetCols, run.supported).error)
    ensures SelectionOf(run.df, run.featureCols, run.targetCols, run.supported).Ok? ==>
      GridSearchReport(run, Labels(SelectionOf(run.df, run.featureCols, run.targetCols, run.supported).value.targets), r)
    ensures SelectionOf(run.df, run.featureCols, run.targetCols, run.supported).Err? ==> snapshots == []
    ensures SelectionOf(run.df, run.featureCols, run.targetCols, run.supported).Ok? ==>
      var sel := SelectionOf(run.df, run.featureCols, run.targetCols, run.supported).value;
      var targets := Labels(sel.targets);
      if |targets| > 0 && run.estimators == [] then r == Err(IndexError) && snapshots == []
      else
        && |chosen| == |targets|
        && (forall k | 0 <= k < |targets| :: IsBestEstimator(run, co, sel.scaleLevels, targets[k], chosen[k]))
        && r == Ok(GridRows(run, co, sel.scaleLevels, targets, chosen))
        && snapshots == RowCheckpoints(r.value)
  {
    snapshots, chosen := [], [];
    var selection := FeaturesAndTargetsFromDataframe(run.df, run.featureCols, run.targetCols, run.supported);
    if selection.Err? {
      return Err(selection.error), snapshots, chosen;
    }
    var targets := Labels(selection.value.targets);
    r, snapshots, chosen := GridSearchTargets(run, co, selection.value.scaleLevels, targets);
  }

  /** The target loop of `grid_search_multivariate_classification` over the selected targets. */
  method GridSearchTargets(run: Run, co: Collaborators, featureScaleLevels: FeatureScaleLevels, targets: seq<string>)
    returns (r: Result<seq<Row>, Exception>, ghost snapshots: seq<seq<Row>>, ghost chosen: seq<string>)
    ensures GridSearchReport(run, targets, r)
    ensures if |targets| > 0 && run.estimators == [] then r == Err(IndexError) && snapshots == []
      else
        && |chosen| == |targets|
        && (forall k | 0 <= k < |targets| :: IsBestEstimator(run, co, featureScaleLevels, targets[k], chosen[k]))
        && r == Ok(GridRows(run, co, featureScaleLevels, targets, chosen))
        && snapshots == RowCheckpoints(r.value)
  {
    snapshots, chosen := [], [];
    var report: seq<Row> := [];
    var plotIndex: nat := 0;
    for i := 0 to |targets|
      invariant |chosen| == i
      invariant i > 0 ==> |run.estimators| > 0
      invariant forall k | 0 <= k < i :: IsBestEstimator(run, co, featureScaleLevels, targets[k], chosen[k])
      invariant report == GridRows(run, co, featureScaleLevels, targets[..i], chosen)
      invariant plotIndex == |report| == i
      invariant snapshots == RowLog(report)
    {
      var row, bestCvEstimator := BestEstimatorRow(run, co, featureScaleLevels, targets[i], plotIndex);
      if row.None? {
        return Err(IndexError), snapshots, chosen;
      }
      report, snapshots, chosen := AppendGridRow(run, co, featureScaleLevels, targets, report, snapshots, chosen,
                                                 bestCvEstimator, row.value);
      plotIndex := plotIndex + 1;
    }
    assert targets[..|targets|] == targets;
    GridRowsReport(run, co, featureScaleLevels, targets, chosen);
    snapshots := snapshots + [report];
    r := Ok(report);
  }

  /** Records the row of the next target of the grid search and writes the report. */
  method AppendGridRow(run: Run, co: Collaborators, featureScaleLevels: FeatureScaleLevels, targets: seq<string>,
                       report: seq<Row>, ghost snapshots: seq<seq<Row>>, ghost chosen: seq<string>, best: string, row: Row)
    returns (report': seq<Row>, ghost snapshots': seq<seq<Row>>, ghost chosen': seq<string>)
    requires |chosen| < |targets| && |run.estimators| > 0
    requires forall k | 0 <= k < |chosen| :: IsBestEstimator(run, co, featureScaleLevels, targets[k], chosen[k])
    requires report == GridRows(run, co, featureScaleLevels, targets[..|chosen|], chosen) && snapshots == RowLog(report)
    requires IsBestEstimator(run, co, featureScaleLevels, targets[|chosen|], best)
    requires row == GridRow(run, co, featureScaleLevels, targets[|chosen|], best, |chosen|)
    ensures chosen' == chosen + [best]
    ensures forall k | 0 <= k < |chosen'| :: IsBestEstimator(run, co, featureScaleLevels, targets[k], chosen'[k])
    ensures report' == report + [row]
    ensures report' == GridRows(run, co, featureScaleLevels, targets[..|chosen'|], chosen')
    ensures snapshots' == RowLog(report')
  {
    GridRowsStep(run, co, featureScaleLevels, targets, chosen, best, |chosen|);
    RowLogStep(report, row);
    chosen' := chosen + [best];
    report' := report + [row];
    snapshots' := snapshots + [report'];
  }

  /**
   * One target of the grid search: the initial pass, the pick of an
   * estimator with the largest initial mean AUC (`best`) and its optimized
   * row; no row when there is no estimator to pick.
   */
  method BestEstimatorRow(run: Run, co: Collaborators, featureScaleLevels: FeatureScaleLevels, target: string,
                          plotIndex: nat)
    returns (row: Option<Row>, best: string)
    ensures row.None? <==> run.estimators == []
    ensures row.Some? ==>
      && IsBestEstimator(run, co, featureScaleLevels, target, best)
      && row.value == GridRow(run, co, featureScaleLevels, target, best, plotIndex)
  {
    best := "";
    var aucs, model := InitialCrossValidation(run, co, featureScaleLevels, target);
    if |aucs| == 0 {
      return None, best;
    }
    var b := BestIndex(aucs);
    best := run.estimators[b];
    LargestAucIsBest(run, co, featureScaleLevels, target, aucs, b);
    var optimized := OptimizedRow(run, co, featureScaleLevels, target, best, plotIndex, model.value);
    row := Some(optimized);
  }

  /**
   * The initial pass of the grid search for one target: the mean AUC of every
   * estimator built without feature selection, and the last model built.
   */
  method InitialCrossValidation(run: Run, co: Collaborators, featureScaleLevels: FeatureScaleLevels, target: string)
    returns (aucs: seq<real>, model: Option<Model>)
    ensures |aucs| == |run.estimators|
    ensures forall m | 0 <= m < |aucs| :: aucs[m] == InitialAuc(run, co, featureScaleLevels, target, run.estimators[m])
    ensures model == if run.estimators == [] then None
                     else Some(InitialModel(run, featureScaleLevels, run.estimators[|run.estimators| - 1]))
  {
    aucs, model := [], None;
    for j := 0 to |run.estimators|
      invariant |aucs| == j
      invariant forall m | 0 <= m < j :: aucs[m] == InitialAuc(run, co, featureScaleLevels, target, run.estimators[m])
      invariant model == if j == 0 then None else Some(InitialModel(run, featureScaleLevels, run.estimators[j - 1]))
    {
      var estimator := run.estimators[j];
      model := Some(BuildModel(featureScaleLevels, run.sampling, None, estimator));
      var initialCvResult := co.crossValidate(model.value, run.featureCols, target);
      aucs := aucs + [initialCvResult.meanAuc];
    }
  }

  /**
   * The hyper-parameter search, the final cross-validation and the report row
   * of the grid search for one target, at plot index `plotIndex`; the feature
   * importance is taken from `model`, the last model of the initial pass.
   */
  method OptimizedRow(run: Run, co: Collaborators, featureScaleLevels: FeatureScaleLevels, target: string,
                      bestCvEstimator: string, plotIndex: nat, model: Model)
    returns (row: Row)
    requires |run.estimators| > 0 && model == InitialModel(run, featureScaleLevels, run.estimators[|run.estimators| - 1])
    ensures row == GridRow(run, co, featureScaleLevels, target, bestCvEstimator, plotIndex)
  {
    var folder := OutputFolder(run.outputPath, GridSearchMode, run.stamp);
    var gridSearchModel := BuildModel(featureScaleLevels, run.sampling, run.featureSelection, bestCvEstimator);
    var search := co.optimize(gridSearchModel, run.featureCols, target);
    var optimizedModel := BuildModel(featureScaleLevels, run.sampling, run.featureSelection, bestCvEstimator);
    optimizedModel := SetParams(optimizedModel, search.bestParams);
    var cvResultMetrics := co.crossValidate(optimizedModel, run.featureCols, target);
    var rocCurvePlotPath := Join(folder, "roc_auc_" + NatToString(plotIndex) + ".png");
    var featureImportancePlotPath := Join(folder, "feature_importance_" + NatToString(plotIndex) + ".png");
    var featureImportanceCsvPath := Join(folder, "feature_importance_" + NatToString(plotIndex) + ".csv");
    row := Row(target := target,
               features := run.featureCols,
               negativeSamples := NegativeSamples(run.df, target),
               positiveSamples := PositiveSamples(run.df, target),
               estimatorName := co.classifierTypeName(bestCvEstimator),
               metrics := cvResultMetrics,
               rocPlot := rocCurvePlotPath,
               importanceCsv := featureImportanceCsvPath,
               importancePlot := featureImportancePlotPath,
               sampling := run.sampling,
               featureSelection := run.featureSelection,
               selectedFeatures := Some(co.fittedFeatures(optimizedModel, run.featureCols, target)),
               bestParams := Some(search.bestParams),
               importanceModel := model);
  }

  /**
   * `univariate_classification`: each requested feature is selected on its
   * own and run, without feature selection, against every selected target
   * and every estimator; the report is written after each target and after
   * each feature, and a selection error ends the run.
   */
  method UnivariateClassification(run: Run, co: Collaborators)
    returns (r: Result<seq<Row>, Exception>, ghost snapshots: seq<seq<Row>>)
    ensures r == Univariate(run, co, run.featureCols).report
    ensures Outcome(r, snapshots) == Univariate(run, co, run.featureCols)
  {
    var report: seq<Row> := [];
    snapshots := [];
    var plotIndex: nat := 0;
    for f := 0 to |run.featureCols|
      invariant Univariate(run, co, run.featureCols[..f]) == Outcome(Ok(report), snapshots)
      invariant plotIndex == |report|
    {
      var feature := run.featureCols[f];
      UnivariateStep(run, co, run.featureCols, f, report, snapshots);
      var selection := FeaturesAndTargetsFromDataframe(run.df, [feature], run.targetCols, run.supported);
      if selection.Err? {
        UnivariatePrefix(run, co, run.featureCols, f + 1);
        return Err(selection.error), snapshots;
      }
      var featureScaleLevels := selection.value.scaleLevels;
      var targets := Labels(selection.value.targets);
      report, snapshots, plotIndex := UnivariateFeature(run, co, featureScaleLevels, feature, targets, report, snapshots, plotIndex);
      snapshots := snapshots + [report];
    }
    assert run.featureCols[..|run.featureCols|] == run.featureCols;
    r := Ok(report);
  }

  /** The target loop of `univariate_classification` for one feature, continuing at `plotIndex`. */
  method UnivariateFeature(run: Run, co: Collaborators, featureScaleLevels: FeatureScaleLevels, feature: string, targets: seq<string>,
                           report: seq<Row>, ghost snapshots: seq<seq<Row>>, plotIndex: nat)
    returns (report': seq<Row>, ghost snapshots': seq<seq<Row>>, plotIndex': nat)
    requires plotIndex == |report|
    ensures report' == report + UniFeatureBlock(run, co, featureScaleLevels, feature, targets, |report|)
    ensures snapshots' == snapshots + UniFeatureSnapshots(run, co, featureScaleLevels, feature, targets, report)
    ensures plotIndex' == |report'|
  {
    report', snapshots', plotIndex' := report, snapshots, plotIndex;
    for t := 0 to |targets|
      invariant report' == report + UniFeatureBlock(run, co, featureScaleLevels, feature, targets[..t], |report|)
      invariant snapshots' == snapshots + UniFeatureSnapshots(run, co, featureScaleLevels, feature, targets[..t], report)
      invariant plotIndex' == |report'|
    {
      UniFeatureBlockStep(run, co, featureScaleLevels, feature, targets, t, report);
      report', plotIndex' := UnivariateTarget(run, co, featureScaleLevels, feature, targets[t], report', plotIndex');
      snapshots' := snapshots' + [report'];
    }
    assert targets[..|targets|] == targets;
  }

  /** The estimator loop of `univariate_classification` for one feature and target, continuing at `plotIndex`. */
  method UnivariateTarget(run: Run, co: Collaborators, featureScaleLevels: FeatureScaleLevels, feature: string, target: string,
                          report: seq<Row>, plotIndex: nat)
    returns (report': seq<Row>, plotIndex': nat)
    requires plotIndex == |report|
    ensures report' == report + UniTargetBlock(run, co, featureScaleLevels, feature, target, run.estimators, plotIndex)
    ensures plotIndex' == |report'|
  {
    var featureSelectionMethod: Option<string> := None;
    var folder := OutputFolder(run.outputPath, UnivariateMode, run.stamp);
    report', plotIndex' := report, plotIndex;
    for j := 0 to |run.estimators|
      invariant report' == report + UniTargetBlock(run, co, featureScaleLevels, feature, target, run.estimators[..j], plotIndex)
      invariant plotIndex' == plotIndex + j == |report'|
    {
      var estimator := run.estimators[j];
      var estimatorName := co.classifierTypeName(estimator);
      var model := BuildModel(featureScaleLevels, run.sampling, featureSelectionMethod, estimator);
      var cvResultMetrics := co.crossValidate(model, [feature], target);
      var rocCurvePlotPath := Join(folder, "roc_auc_" + NatToString(plotIndex') + ".png");
      var featureImportancePlotPath := Join(folder, "feature_importance_" + NatToString(plotIndex') + ".png");
      var featureImportanceCsvPath := Join(folder, "feature_importance_" + NatToString(plotIndex') + ".csv");
      var features := co.fittedFeatures(model, [feature], target);
      var row := Row(target := target,
                     features := features,
                     negativeSamples := NegativeSamples(run.df, target),
                     positiveSamples := PositiveSamples(run.df, target),
                     estimatorName := estimatorName,
                     metrics := cvResultMetrics,
                     rocPlot := rocCurvePlotPath,
                     importanceCsv := featureImportanceCsvPath,
                     importancePlot := featureImportancePlotPath,
                     sampling := run.sampling,
                     featureSelection := featureSelectionMethod,
                     selectedFeatures := None,
                     bestParams := None,
                     importanceModel := model);
      UniTargetBlockStep(run, co, featureScaleLevels, feature, target, j, plotIndex);
      report' := report' + [row];
      plotIndex' := plotIndex' + 1;
    }
    assert run.estimators[..|run.estimators|] == run.estimators;
  }
}
