# racoons, modelled in Dafny

racoons runs classification experiments on tabular data. A dataset is a
pandas frame. The caller names feature columns and target columns, and the
library does three things with them:

- it keeps the features whose dtype gives a supported scale level (numerical,
  ordinal, categorical) and the targets that are boolean or integer;
- it builds, cross-validates and reports one model per (target, estimator),
  per target after a best-estimator pick and a hyper-parameter search, or per
  (feature, target, estimator);
- it writes a ROC plot and feature-importance files per report row, and
  rewrites the report at fixed points.

A `DataSet` object loads the frame by file suffix and locates a scale-level
side-car file. A `configurable` decorator fills keyword arguments from a
nested configuration dictionary.

The model covers:

- `wrappers.dfy`: Option, Result and the Python exceptions the core raises.
- `sequences.dfy`: order-preserving filtering of label lists, subsequences,
  and cardinality facts.
- `paths.dfy`: `pathlib` paths as segment lists, `name`, `parent`, `suffix`,
  and decimal numerals.
- `frames.dfy`: a frame as a sequence of uniquely labelled columns with a
  dtype and integer values, label lookup (`df[col]`) and projection
  (`df.loc[:, cols]`).
- `data_utils.dfy`: `get_scale_level`, `features_and_targets_from_dataframe`
  and `create_scale_level_template`.
- `dataset.dfy`: the `DataSet` class.
- `config.dfy`: the `configurable` wrapper over mutable dictionaries.
- `classification_spec.dfy`: what the three experiment drivers produce. This
  is the report rows, the artifact file names, the report snapshots, and the
  class counts.
- `classification.dfy`: the three drivers as loops. Each is proved to
  produce what the specification module describes.

Collaborators whose code is not part of this model enter as parameters:

- model building is recorded as the record of its arguments;
- cross-validation with its metric summary, the hyper-parameter search, the
  fitted feature names and the estimator type names are functions in a
  `Collaborators` value;
- the CSV and Excel readers, the scale-level file lookup, and the YAML file
  contents are function or value parameters;
- the folder timestamp is a string parameter.

Every report write (`to_excel` together with `to_csv`) is one entry in a
ghost snapshot log.

## Model

| member | source | states |
|---|---|---|
| `Frames.Find` | racoons/data/utils.py:37 | `df[col]` finds a column iff the label is in the frame, and the column found carries that label |
| `Frames.Project` | racoons/data/utils.py:80-81 | `df.loc[:, cols]` yields columns whose labels are exactly `cols`, in that order, and the k-th one is the frame's own column with the k-th label |
| `DataUtils.GetScaleLevel` | racoons/data/utils.py:113-122 | float is numerical, exactly numpy int64 is ordinal, a categorical dtype is categorical; bool, nullable Int64, other integer widths, strings and objects get no scale level (each direction of each case) |
| `DataUtils.FirstMissing` | racoons/data/utils.py:36-37 | no label is reported missing iff every requested label is in the frame; a reported label is requested and absent, and every label requested before it is present, so it is the first missing one in loop order |
| `DataUtils.FeaturesAndTargetsFromDataframe` | racoons/data/utils.py:11-83 | the two loops produce exactly the selection specified by `SelectionOf`, including the KeyError for the first missing feature, then the first missing target |
| `DataUtils.ScanFeatures` | racoons/data/utils.py:33-45 | the feature loop stops at the first feature the frame lacks and names it; otherwise it keeps exactly the supported features and the three scale-level groups, in request order |
| `DataUtils.ScanTargets` | racoons/data/utils.py:58-61 | the target loop stops at the first target the frame lacks and names it; otherwise it keeps exactly the boolean and integer targets, in request order |
| `DataUtils.SelectionFailsOnlyOnMissingLabels` | racoons/data/utils.py:36-65 | the selection fails iff some requested feature or target is absent, and then with a KeyError naming an absent label; unsupported columns never raise |
| `DataUtils.SelectedFeatureColumns` | racoons/data/utils.py:36-39 | the feature frame holds exactly the requested features with a supported scale level, as a request-order subsequence, each column having a supported level |
| `DataUtils.SelectedTargetColumns` | racoons/data/utils.py:59-65 | the target frame holds exactly the requested targets of boolean or integer dtype, as a request-order subsequence |
| `DataUtils.ScaleLevelGroupMembers` | racoons/data/utils.py:40-45 | each scale-level group is a request-order subsequence of the requested features and holds exactly those of its level, if that level is supported |
| `DataUtils.ScaleLevelGroupsPartition` | racoons/data/utils.py:73-77 | the numerical, ordinal and categorical groups are pairwise disjoint and together as long as the selected features |
| `DataUtils.CreateScaleLevelTemplate` | racoons/data/utils.py:125-144 | the loop over the frame's columns produces the template `Template` specifies, including the ValueError for lists of unequal length |
| `DataUtils.TemplateLabelsAlign` | racoons/data/utils.py:131-141 | the k-th scale-level label is the label of the k-th frame column named in `columns_to_use`, in frame order |
| `DataUtils.TemplateOfAllColumns` | racoons/data/utils.py:129-130 | with no or an empty `columns_to_use` the template has one row per frame column, in frame order, labelled from that column's dtype, with no level order |
| `DataUtils.TemplateSucceeds` | racoons/data/utils.py:143 | with a non-empty `columns_to_use`, building the template succeeds iff the list has no repeats and names only frame columns |
| `DataUtils.AlignedTemplate` | racoons/data/utils.py:131-143 | every row is labelled from its own column's dtype and has no level order; the rows' columns are exactly the frame's columns named in `columns_to_use`, in frame order |
| `DataUtils.AlignedTemplateCovers` | racoons/data/utils.py:129-143 | the aligned template names every frame column of `columns_to_use`, none twice, and lists them in frame order |
| `DataUtils.TemplateAgreesInFrameOrder` | racoons/data/utils.py:129-143 | when `columns_to_use` lists its columns in frame order without repeats, the template as written equals the aligned one |
| `DataUtils.DefaultColumnsInFrameOrder` | racoons/data/utils.py:129-130 | with no or an empty `columns_to_use` the template as written equals the aligned one |
| `DataUtils.TemplateMisalignsReordered` | racoons/data/utils.py:131 | for the frame [a: float, b: string] and `columns_to_use` = ["b", "a"], the template as written labels b "numerical" and a "categorical", while the aligned template labels a "numerical" and b "categorical" |
| `Paths.SuffixIs` | racoons/data/dataset.py:17 | a path has suffix ".csv" (or any dot-led, dot-free extension) iff its name is longer than and ends with it, compared case-sensitively |
| `Paths.NatToStringInjective` | racoons/models/classification.py:109 | distinct plot indices give distinct decimal numerals, so the file names they are formatted into differ |
| `Dataset.SideCar` | racoons/data/dataset.py:13 | the side-car path has the dataset's parent and the name "scale_levels.csv" |
| `Dataset.RawDataframeByFileName` | racoons/data/dataset.py:17-20 | a frame is loaded iff the file name ends with ".csv" (by the CSV reader) or ".xlsx" (by the Excel reader) |
| `Dataset.DataSet.constructor` | racoons/data/dataset.py:7-13 | path, features and targets are stored unchanged; the frame is the suffix-selected reader's; a falsy `scale_levels` gives the side-car path and a truthy one is dropped |
| `Dataset.DataSet.ReadDataframe` | racoons/data/dataset.py:15-20 | ".csv" and ".xlsx" replace the frame with the matching reader's result; any other suffix leaves it untouched and raises nothing |
| `Dataset.DataSet.ReadScaleLevels` | racoons/data/dataset.py:22-30 | an unset side-car path raises AttributeError; an existing file returns nothing; a missing file raises AttributeError if the frame was never read, else builds the all-columns template and returns nothing |
| `Config.Lookup` | racoons/config.py:18 | indexing succeeds iff the value is a dictionary holding the key; a missing key is a KeyError, a non-dictionary a TypeError |
| `Config.Section` | racoons/config.py:17-18 | the section is `config[file name][qualname]`, and the first failing lookup decides the error |
| `Config.Merge` | racoons/config.py:19 | the merged keys are both key sets; a call keyword wins on a clash and the section fills in the rest |
| `Config.Wrapper` | racoons/config.py:7-20 | without a config the call is passed through unchanged; otherwise lookup errors propagate, a non-dictionary section raises AttributeError, and the section is updated in place with the call's keywords, config included, and becomes the keywords of the call; positional arguments always pass unchanged |
| `ClassificationSpec.SetParams` | racoons/models/classification.py:270 | setting parameters changes only the parameters; given ones override, others are kept, and no other parameter appears |
| `ClassificationSpec.ArtifactPathsDistinct` | racoons/models/classification.py:109-121 | when row k uses plot index k, no two ROC plots, importance plots or importance CSVs share a path, and no file of one kind shares a path with one of another kind |
| `ClassificationSpec.NegativeSamples` | racoons/models/classification.py:128-129 | the negative count never exceeds the rows, and for a 0/1 target the negative and positive counts add up to the number of rows |
| `ClassificationSpec.ClassCountsCoverRows` | racoons/models/classification.py:128-129 | for 0/1 values, the zeros plus the sum equal the number of values |
| `ClassificationSpec.BooleanComplementCountsZeros` | racoons/models/classification.py:128 | `~` on a boolean 0/1 column sums to the number of zeros |
| `ClassificationSpec.IntegerComplementSum` | racoons/models/classification.py:128 | `~` on a signed integer column sums to minus the sum minus the row count |
| `ClassificationSpec.BooleanTargetCountsAgree` | racoons/models/classification.py:128-129 | for a boolean target the code's negative count equals the corrected one, and the two counts cover all rows |
| `ClassificationSpec.IntegerTargetNegativeCount` | racoons/models/classification.py:128 | for an int64 target 0, 1, 0 the code reports -4 negative samples where 2 are meant |
| `ClassificationSpec.MultivariateRows` | racoons/models/classification.py:91-153 | the report has |targets| x |estimators| rows; row k uses plot index k; every row records the run's sampling, feature selection and full requested feature list, and is cross-validated on those requested features |
| `ClassificationSpec.MultivariateRowAt` | racoons/models/classification.py:92-93 | row i x |estimators| + j is the row of target i and estimator j (target-major, estimator-minor) |
| `ClassificationSpec.MultivariatePrefix` | racoons/models/classification.py:92-135 | the rows of a prefix of the targets are a prefix of the rows |
| `ClassificationSpec.MultivariateLogArePrefixes` | racoons/models/classification.py:154-155 | every report written inside the target loop is a prefix of the final rows |
| `ClassificationSpec.MultivariateCheckpoints` | racoons/models/classification.py:154-158 | a successful run writes the report |selected targets| + 1 times, every write is a prefix of the final report, the last write is the report, and with at least one target the last two writes are equal |
| `Classification.MultivariateClassification` | racoons/models/classification.py:31-159 | the loops produce exactly the report and the snapshot log of `Multivariate`, including the selection error before any write |
| `Classification.MultivariateTarget` | racoons/models/classification.py:93-153 | one target's estimator loop appends that target's block and advances the plot index by one per row |
| `Classification.GridSearchTargets` | racoons/models/classification.py:226-330 | IndexError exactly when there are targets but no estimators, and then before any write; otherwise one row per target in order with plot index k, each chosen estimator has a maximal initial mean AUC, the report is `GridRows` of those choices, and every write is recorded |
| `Classification.AppendGridRow` | racoons/models/classification.py:304-328 | appending the next target's row keeps the report equal to the grid-search rows of the targets so far and logs one more write |
| `Classification.BestEstimatorRow` | racoons/models/classification.py:230-324 | no row iff there is no estimator to pick; otherwise the picked estimator has a maximal initial mean AUC and the row is its grid-search row |
| `Classification.BestIndex` | racoons/models/classification.py:247-249 | the picked position holds a largest AUC |
| `ClassificationSpec.LargestAucIsBest` | racoons/models/classification.py:232-249 | a position with the largest initial mean AUC names an estimator that no other estimator beats |
| `Classification.InitialCrossValidation` | racoons/models/classification.py:232-245 | one initial mean AUC per estimator, each from a model built without feature selection, and the last model built |
| `Classification.OptimizedRow` | racoons/models/classification.py:250-324 | the row is the grid-search row of the chosen estimator, with its feature importance taken from the last initial model |
| `ClassificationSpec.GridRowsDescribeOptimizedModels` | racoons/models/classification.py:250-274 | one row per target with plot index k; row k is cross-validated on a rebuild of the chosen estimator with the caller's feature selection, whose parameters are exactly the searched best parameters, and reports those parameters |
| `Classification.GridSearchMultivariateClassification` | racoons/models/classification.py:162-331 | a selection error propagates; with targets but no estimators the pick raises IndexError; otherwise every chosen estimator has a maximal initial mean AUC, the report is `GridRows` of those choices, and the writes are one per target plus one |
| `ClassificationSpec.GridRowsReport` | racoons/models/classification.py:250-324 | whatever estimators are chosen, the grid-search rows give one row per target, in order, with plot index k, the caller's feature selection and the searched best parameters |
| `ClassificationSpec.RowLogArePrefixes` | racoons/models/classification.py:327-328 | every report written inside the grid-search loop is a prefix of the final rows |
| `ClassificationSpec.RowCheckpointsArePrefixes` | racoons/models/classification.py:327-330 | the grid search writes |targets| + 1 reports, each a prefix of the final one, and the last two equal when there is a target |
| `ClassificationSpec.UniFeatureBlock` | racoons/models/classification.py:399-465 | one feature's block has |targets| x |estimators| rows |
| `ClassificationSpec.UniFeatureBlockRows` | racoons/models/classification.py:400-441 | the rows of one feature's block have consecutive plot indices; every row is about one of the targets, has no feature selection, and is fitted and cross-validated on that single feature, its features being the names fitted on that feature and the row's target |
| `ClassificationSpec.UniFeatureBlockRowAt` | racoons/models/classification.py:400-441 | row i x |estimators| + j of a feature's block is the row for target i and estimator j, with plot index base + i x |estimators| + j (target-major, estimator-minor) |
| `ClassificationSpec.UniFeatureSnapshots` | racoons/models/classification.py:466-467 | one write per selected target inside a feature's loop |
| `ClassificationSpec.UnivariateRows` | racoons/models/classification.py:374-441 | in a successful univariate report row k uses plot index k, no row or model has feature selection, and each row is fitted and cross-validated on one requested feature alone, its features being the names fitted on that feature and the row's target |
| `ClassificationSpec.UnivariateCounts` | racoons/models/classification.py:387-470 | with every label present, the report has |features| x |selected targets| x |estimators| rows and |features| x (|selected targets| + 1) writes, so no feature means no write |
| `ClassificationSpec.UnivariatePrefix` | racoons/models/classification.py:387-395 | a prefix of the features writes a prefix of the reports; once a feature's selection fails the run ends as it stood; a successful report extends each prefix's report (feature-major) |
| `ClassificationSpec.UniFeatureSnapshotsArePrefixes` | racoons/models/classification.py:466-467 | each write inside a feature's loop extends the report so far by a prefix of that feature's rows |
| `ClassificationSpec.UnivariateSnapshotsArePrefixes` | racoons/models/classification.py:466-470 | every report a successful univariate run writes is a prefix of its final report, and the last write is that report |
| `Classification.UnivariateClassification` | racoons/models/classification.py:334-471 | the loops produce exactly the report and the snapshot log of `Univariate` over the requested features |
| `Classification.UnivariateFeature` | racoons/models/classification.py:399-467 | one feature's target loop appends its block and one write per target |
| `Classification.UnivariateTarget` | racoons/models/classification.py:400-465 | one (feature, target) estimator loop appends its block with consecutive plot indices |

## Left out

- File and console I/O is not modelled. This covers `mkdir`, plotting and `savefig`, the contents of `to_excel`/`to_csv` (each write is a snapshot), tqdm progress bars and their totals, and every `print`.
- The folder timestamp is a parameter, not the clock.
- The collaborators are opaque functions: model building internals, cross-validation, the metric summary, the hyper-parameter search, feature importance, `update_report` and the registries of classifiers and supported scale levels. They are total: an exception raised by `build_model`, cross-validation, the search or feature importance in the middle of a run is not modelled, and the model has no outcome for that case (the program would stop with the snapshots written so far).
- The estimator registry lookup is a total function. A KeyError for an unknown estimator name is not modelled.
- Metric values are reals. NaN and its ordering are not modelled.
- `Classification.BestIndex`: returns a first largest position; the specification promises only some position with a largest AUC, because the source's sort fixes no tie-break.
- `Classification.MultivariateClassification`: stores the corrected negative count (`ClassificationSpec.NegativeSamples`, the number of zeros) in each report row, where racoons/models/classification.py:128 stores `(~df[target]).sum()`. The two agree for boolean targets (`ClassificationSpec.BooleanTargetCountsAgree`) and differ for integer targets (`ClassificationSpec.IntegerTargetNegativeCount`); the code's count is modelled by `ClassificationSpec.NegativeSamplesAsWritten`.
- `Classification.MultivariateTarget`: stores the corrected negative count (`ClassificationSpec.NegativeSamples`, the number of zeros) in each report row, where racoons/models/classification.py:128 stores `(~df[target]).sum()`. The two agree for boolean targets (`ClassificationSpec.BooleanTargetCountsAgree`) and differ for integer targets (`ClassificationSpec.IntegerTargetNegativeCount`); the code's count is modelled by `ClassificationSpec.NegativeSamplesAsWritten`.
- `Classification.GridSearchMultivariateClassification`: stores the corrected negative count (`ClassificationSpec.NegativeSamples`, the number of zeros) in each report row, where racoons/models/classification.py:300 stores `(~df[target]).sum()`. The two agree for boolean targets (`ClassificationSpec.BooleanTargetCountsAgree`) and differ for integer targets (`ClassificationSpec.IntegerTargetNegativeCount`); the code's count is modelled by `ClassificationSpec.NegativeSamplesAsWritten`.
- `Classification.GridSearchTargets`: stores the corrected negative count (`ClassificationSpec.NegativeSamples`, the number of zeros) in each report row, where racoons/models/classification.py:300 stores `(~df[target]).sum()`. The two agree for boolean targets (`ClassificationSpec.BooleanTargetCountsAgree`) and differ for integer targets (`ClassificationSpec.IntegerTargetNegativeCount`); the code's count is modelled by `ClassificationSpec.NegativeSamplesAsWritten`.
- `Classification.BestEstimatorRow`: stores the corrected negative count (`ClassificationSpec.NegativeSamples`, the number of zeros) in each report row, where racoons/models/classification.py:300 stores `(~df[target]).sum()`. The two agree for boolean targets (`ClassificationSpec.BooleanTargetCountsAgree`) and differ for integer targets (`ClassificationSpec.IntegerTargetNegativeCount`); the code's count is modelled by `ClassificationSpec.NegativeSamplesAsWritten`.
- `Classification.OptimizedRow`: stores the corrected negative count (`ClassificationSpec.NegativeSamples`, the number of zeros) in each report row, where racoons/models/classification.py:300 stores `(~df[target]).sum()`. The two agree for boolean targets (`ClassificationSpec.BooleanTargetCountsAgree`) and differ for integer targets (`ClassificationSpec.IntegerTargetNegativeCount`); the code's count is modelled by `ClassificationSpec.NegativeSamplesAsWritten`.
- `ClassificationSpec.UniFeatureBlock`: stores the corrected negative count (`ClassificationSpec.NegativeSamples`, the number of zeros) in each report row, where racoons/models/classification.py:442 stores `(~df[target]).sum()`. The two agree for boolean targets (`ClassificationSpec.BooleanTargetCountsAgree`) and differ for integer targets (`ClassificationSpec.IntegerTargetNegativeCount`); the code's count is modelled by `ClassificationSpec.NegativeSamplesAsWritten`.
- `Classification.UnivariateClassification`: stores the corrected negative count (`ClassificationSpec.NegativeSamples`, the number of zeros) in each report row, where racoons/models/classification.py:442 stores `(~df[target]).sum()`. The two agree for boolean targets (`ClassificationSpec.BooleanTargetCountsAgree`) and differ for integer targets (`ClassificationSpec.IntegerTargetNegativeCount`); the code's count is modelled by `ClassificationSpec.NegativeSamplesAsWritten`.
- `Classification.UnivariateFeature`: stores the corrected negative count (`ClassificationSpec.NegativeSamples`, the number of zeros) in each report row, where racoons/models/classification.py:442 stores `(~df[target]).sum()`. The two agree for boolean targets (`ClassificationSpec.BooleanTargetCountsAgree`) and differ for integer targets (`ClassificationSpec.IntegerTargetNegativeCount`); the code's count is modelled by `ClassificationSpec.NegativeSamplesAsWritten`.
- `Classification.UnivariateTarget`: stores the corrected negative count (`ClassificationSpec.NegativeSamples`, the number of zeros) in each report row, where racoons/models/classification.py:442 stores `(~df[target]).sum()`. The two agree for boolean targets (`ClassificationSpec.BooleanTargetCountsAgree`) and differ for integer targets (`ClassificationSpec.IntegerTargetNegativeCount`); the code's count is modelled by `ClassificationSpec.NegativeSamplesAsWritten`.
- The grid search takes feature importance from the last model of the initial pass (racoons/models/classification.py:286). This is modelled as written.
- racoons/models/classification.py:10 imports `features_and_targets_from_dataframe` from a module path that does not exist; the model uses the definition in racoons/data/utils.py.
- The YAML branch of `configurable` is file I/O. The parsed file contents are a parameter of `Config.Wrapper`.
- `encode_multitarget_data` is a thin wrapper over scikit-learn's LabelEncoder and is not part of this model.
- The modelling package (pipeline, estimators, models and its `__init__`) holds stubs and static registries over scikit-learn and xgboost. It is not part of this model.
- Frames have unique column labels.
  - Frames with duplicate labels are not modelled.
  - Neither is the column duplication `df.loc` performs when a label is requested twice, or when it is both a feature and a target.
- Dtypes form a closed enumeration. A categorical dtype over booleans, sparse dtypes (which pandas' dtype tests look through to their subtype) and missing values (NaN, `pd.NA`) are not modelled.
- Unsigned integer dtypes are left out: every integer dtype of the model is signed. The selection would keep an unsigned target, and `~` on it is the width-dependent complement (255 - v on uint8), which the model does not state.
- Column values are integers, enough for 0/1 targets.
- The readers and the scale-level file lookup cannot fail. I/O errors other than a missing side-car file are not modelled.
- Paths are already split into segments. Parsing path strings, and `Path()` of a `str` argument, are not modelled.
- The tests of the dataset expect behaviour the code lacks. The model follows the code. This concerns ordinal rank coercion, typed feature and target views, `scale_levels_path`, template writing with SystemExit, and `feature_cols`/`target_cols` keywords.
- The tests of `get_scale_level` expect nullable Int64 to be ordinal and plain int to have no level; the code does the opposite, and the model follows the code.
- The template test expects a "Datatype" column; the code produces "Scale Level" and "Level order (for ordinal values)" columns, which the model follows.
- `Dataset.DataSet.ReadScaleLevels`: the contents of an existing side-car file are read and discarded, so the model does not look at them.

## Findings

| source | as written | input that shows it | evidently intended | confidence | as-written member | corrected member |
|---|---|---|---|---|---|---|
| racoons/models/classification.py:128 | `negative_samples = (~df[target]).sum()`; `~` is bitwise complement on integer columns, and integer targets are kept by the selection | an int64 target with values 0, 1, 0 gives -4 negative samples | the number of zeros (2), so that negative plus positive samples equal the rows | high; not executed | `ClassificationSpec.NegativeSamplesAsWritten` | `ClassificationSpec.NegativeSamples` |
| racoons/data/utils.py:131,143 | the "Column" list is `columns_to_use` in the caller's order, while the "Scale Level" list follows the frame's column order | frame columns a (float), b (string), `columns_to_use = ["b", "a"]` labels b "numerical" and a "categorical" | each row labelled by its own column's dtype | high; not executed | `DataUtils.Template` | `DataUtils.AlignedTemplate` |

The report rows use the corrected negative count (see "## Left out"); for
boolean targets it equals the code's (`ClassificationSpec.BooleanTargetCountsAgree`).
`ClassificationSpec.IntegerTargetNegativeCount` exhibits the first
discrepancy.

`DataUtils.CreateScaleLevelTemplate` models the template as written.
`DataUtils.TemplateMisalignsReordered` exhibits the misalignment. The side-car
template that `DataSet` builds uses the default columns, where the template
as written and the aligned template agree
(`DataUtils.DefaultColumnsInFrameOrder`).
