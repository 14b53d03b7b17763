/**
 * Scale-level classification and column selection (racoons/data/utils.py):
 * which requested features and targets survive, how the features split into
 * numerical, ordinal and categorical groups, and the fillable scale-level
 * template built from a frame's dtypes.
 */
module DataUtils {
  import opened Wrappers
  import opened Sequences
  import opened Frames

  datatype ScaleLevel = Numerical | Ordinal | Categorical

  /** The `feature_scale_levels` dictionary: the selected features grouped by scale level. */
  datatype FeatureScaleLevels = FeatureScaleLevels(numerical: seq<string>, ordinal: seq<string>, categorical: seq<string>)

  /** The three results of `features_and_targets_from_dataframe`. */
  datatype Selection = Selection(features: seq<Column>, targets: seq<Column>, scaleLevels: FeatureScaleLevels)

  /**
   * `get_scale_level`: floating point is numerical, exactly numpy int64 is
   * ordinal, a categorical dtype is categorical, and every other dtype (bool,
   * the nullable Int64, other integer widths, strings, objects) has none.
   */
  function GetScaleLevel(t: DType): (r: Option<ScaleLevel>)
    ensures r == Some(Numerical) <==> IsFloatDType(t)
    ensures r == Some(Ordinal) <==> t == NumpyInt64
    ensures r == Some(Categorical) <==> t == Category
    ensures r == None <==> t in {Boolean, NullableInt64, OtherInt, Str, Obj, Complex, Other}
  {
    if IsFloatDType(t) then Some(Numerical)
    else if t == NumpyInt64 then Some(Ordinal)
    else if t == Category then Some(Categorical)
    else None
  }

  /** The scale level of a requested feature column; None also for a label the frame lacks. */
  function FeatureLevel(df: Frame, name: string): Option<ScaleLevel> {
    match Find(df, name)
    case None => None
    case Some(c) => GetScaleLevel(c.dtype)
  }

  /** `scale_level in supported_scale_levels`. */
  predicate IsSupported(level: Option<ScaleLevel>, supported: set<ScaleLevel>) {
    level.Some? && level.value in supported
  }

  /** A target must already be label-encoded: boolean or any integer dtype. */
  predicate IsTargetDType(t: DType) {
    IsBoolDType(t) || IsIntegerDType(t)
  }

  function SupportedLabels(df: Frame, supported: set<ScaleLevel>): set<string> {
    set c | c in Labels(df) && IsSupported(FeatureLevel(df, c), supported)
  }

  function LabelsAtLevel(df: Frame, level: ScaleLevel, supported: set<ScaleLevel>): set<string> {
    set c | c in Labels(df) && level in supported && FeatureLevel(df, c) == Some(level)
  }

  function TargetLabels(df: Frame): set<string> {
    set c | c in Labels(df) && Find(df, c).Some? && IsTargetDType(Find(df, c).value.dtype)
  }

  /** `feature_cols_selected`. */
  function SelectedFeatures(df: Frame, featureCols: seq<string>, supported: set<ScaleLevel>): seq<string> {
    FilterIn(featureCols, SupportedLabels(df, supported))
  }

  /** One list of `feature_scale_levels`. */
  function Group(df: Frame, featureCols: seq<string>, supported: set<ScaleLevel>, level: ScaleLevel): seq<string> {
    FilterIn(featureCols, LabelsAtLevel(df, level, supported))
  }

  /** `target_cols_selected`. */
  function SelectedTargets(df: Frame, targetCols: seq<string>): seq<string> {
    FilterIn(targetCols, TargetLabels(df))
  }

  /** The first requested label the frame lacks, where `df[col]` raises KeyError. */
  function FirstMissing(df: Frame, cols: seq<string>): (r: Option<string>)
    ensures r.None? <==> forall c | c in cols :: c in Labels(df)
    ensures r.Some? ==> r.value in cols && r.value !in Labels(df)
    ensures r.Some? ==> exists i | 0 <= i < |cols| :: cols[i] == r.value && forall j | 0 <= j < i :: cols[j] in Labels(df)
    decreases |cols|
  {
    if cols == [] then None
    else
      var init := cols[..|cols| - 1];
      assert cols == init + [cols[|cols| - 1]];
      match FirstMissing(df, init)
      case Some(c) =>
        assert exists i | 0 <= i < |cols| :: cols[i] == c && forall j | 0 <= j < i :: cols[j] in Labels(df) by {
          var i :| 0 <= i < |init| && init[i] == c && forall j | 0 <= j < i :: init[j] in Labels(df);
          assert cols[i] == c;
        }
        Some(c)
      case None =>
        assert forall j | 0 <= j < |init| :: cols[j] in Labels(df) by {
          forall j | 0 <= j < |init| ensures cols[j] in Labels(df) {
            assert init[j] in init;
          }
        }
        if cols[|cols| - 1] in Labels(df) then None else Some(cols[|cols| - 1])
  }

  /** A label missing from a prefix is still the first missing one of any extension. */
  lemma {:induction false} FirstMissingExtends(df: Frame, cols: seq<string>, n: nat)
    requires n <= |cols| && FirstMissing(df, cols[..n]).Some?
    ensures FirstMissing(df, cols) == FirstMissing(df, cols[..n])
    decreases |cols| - n
  {
    if n < |cols| {
      FirstMissingExtends(df, cols, n + 1);
      assert cols[..n + 1][..n] == cols[..n];
    } else {
      assert cols[..n] == cols;
    }
  }

  /** What `features_and_targets_from_dataframe` returns or raises. */
  function SelectionOf(df: Frame, featureCols: seq<string>, targetCols: seq<string>, supported: set<ScaleLevel>): Result<Selection, Exception> {
    match FirstMissing(df, featureCols)
    case Some(c) => Err(KeyError(c))
    case None =>
      match FirstMissing(df, targetCols)
      case Some(c) => Err(KeyError(c))
      case None =>
        var features := SelectedFeatures(df, featureCols, supported);
        var targets := SelectedTargets(df, targetCols);
        Ok(Selection(
             Project(df, features),
             Project(df, targets),
             FeatureScaleLevels(
               Group(df, featureCols, supported, Numerical),
               Group(df, featureCols, supported, Ordinal),
               Group(df, featureCols, supported, Categorical))))
  }

  /**
   * `features_and_targets_from_dataframe`: a KeyError for the first requested
   * label the frame lacks (features before targets); otherwise the selected
   * features, the selected targets and the scale-level groups. Unsupported
   * columns are dropped silently (the diagnostics are printed, which is not
   * modelled).
   */
  method FeaturesAndTargetsFromDataframe(df: Frame, featureCols: seq<string>, targetCols: seq<string>, supported: set<ScaleLevel>)
    returns (r: Result<Selection, Exception>)
    ensures r == SelectionOf(df, featureCols, targetCols, supported)
  {
    var missing, featureColsSelected, featureScaleLevels := ScanFeatures(df, featureCols, supported);
    if missing.Some? {
      return Err(KeyError(missing.value));
    }
    var targetColsSelected;
    missing, targetColsSelected := ScanTargets(df, targetCols);
    if missing.Some? {
      return Err(KeyError(missing.value));
    }
    return Ok(Selection(Project(df, featureColsSelected), Project(df, targetColsSelected), featureScaleLevels));
  }

  /**
   * The feature loop of `features_and_targets_from_dataframe`: stops at the
   * first feature the frame lacks, and otherwise keeps the supported features
   * and sorts them into the scale-level groups.
   */
  method ScanFeatures(df: Frame, featureCols: seq<string>, supported: set<ScaleLevel>)
    returns (missing: Option<string>, selected: seq<string>, groups: FeatureScaleLevels)
    ensures missing == FirstMissing(df, featureCols)
    ensures missing.None? ==>
      && selected == SelectedFeatures(df, featureCols, supported)
      && groups == FeatureScaleLevels(Group(df, featureCols, supported, Numerical),
                                      Group(df, featureCols, supported, Ordinal),
                                      Group(df, featureCols, supported, Categorical))
  {
    selected := [];
    var numericalFeatures, ordinalFeatures, categoricalFeatures: seq<string> := [], [], [];
    for i := 0 to |featureCols|
      invariant FirstMissing(df, featureCols[..i]).None?
      invariant selected == FilterIn(featureCols[..i], SupportedLabels(df, supported))
      invariant numericalFeatures == FilterIn(featureCols[..i], LabelsAtLevel(df, Numerical, supported))
      invariant ordinalFeatures == FilterIn(featureCols[..i], LabelsAtLevel(df, Ordinal, supported))
      invariant categoricalFeatures == FilterIn(featureCols[..i], LabelsAtLevel(df, Categorical, supported))
    {
      var col := featureCols[i];
      assert featureCols[..i + 1][..i] == featureCols[..i];
      var series := Find(df, col);
      if series.None? {
        FirstMissingExtends(df, featureCols, i + 1);
        return Some(col), selected, FeatureScaleLevels(numericalFeatures, ordinalFeatures, categoricalFeatures);
      }
      var scaleLevel := GetScaleLevel(series.value.dtype);
      if scaleLevel.Some? && scaleLevel.value in supported {
        selected := selected + [col];
        if scaleLevel.value == Numerical {
          numericalFeatures := numericalFeatures + [col];
        } else if scaleLevel.value == Ordinal {
          ordinalFeatures := ordinalFeatures + [col];
        } else if scaleLevel.value == Categorical {
          categoricalFeatures := categoricalFeatures + [col];
        }
      }
    }
    assert featureCols[..|featureCols|] == featureCols;
    missing := None;
    groups := FeatureScaleLevels(numericalFeatures, ordinalFeatures, categoricalFeatures);
  }

  /**
   * The target loop of `features_and_targets_from_dataframe`: stops at the
   * first target the frame lacks, and otherwise keeps the boolean and integer
   * targets.
   */
  method ScanTargets(df: Frame, targetCols: seq<string>) returns (missing: Option<string>, selected: seq<string>)
    ensures missing == FirstMissing(df, targetCols)
    ensures missing.None? ==> selected == SelectedTargets(df, targetCols)
  {
    selected := [];
    for i := 0 to |targetCols|
      invariant FirstMissing(df, targetCols[..i]).None?
      invariant selected == FilterIn(targetCols[..i], TargetLabels(df))
    {
      var col := targetCols[i];
      assert targetCols[..i + 1][..i] == targetCols[..i];
      var series := Find(df, col);
      if series.None? {
        FirstMissingExtends(df, targetCols, i + 1);
        return Some(col), selected;
      }
      if IsBoolDType(series.value.dtype) || IsIntegerDType(series.value.dtype) {
        selected := selected + [col];
      }
    }
    assert targetCols[..|targetCols|] == targetCols;
    missing := None;
  }

  /** A selection fails exactly when some requested label is missing, and then names a missing label. */
  lemma SelectionFailsOnlyOnMissingLabels(df: Frame, featureCols: seq<string>, targetCols: seq<string>, supported: set<ScaleLevel>)
    ensures SelectionOf(df, featureCols, targetCols, supported).Ok?
        <==> forall c | c in featureCols + targetCols :: c in Labels(df)
    ensures SelectionOf(df, featureCols, targetCols, supported).Err? ==>
        exists c | c in featureCols + targetCols && c !in Labels(df) ::
          SelectionOf(df, featureCols, targetCols, supported).error == KeyError(c)
  {
    var r := SelectionOf(df, featureCols, targetCols, supported);
    if r.Err? {
      var c :| r.error == KeyError(c) && c in featureCols + targetCols && c !in Labels(df);
    }
  }

  /**
   * The feature frame holds exactly the requested features whose scale level is
   * supported, in request order, each with a supported scale level.
   */
  lemma {:induction false} SelectedFeatureColumns(df: Frame, featureCols: seq<string>, targetCols: seq<string>, supported: set<ScaleLevel>)
    requires SelectionOf(df, featureCols, targetCols, supported).Ok?
    ensures var sel := SelectionOf(df, featureCols, targetCols, supported).value;
      && Labels(sel.features) == SelectedFeatures(df, featureCols, supported)
      && IsSubsequence(Labels(sel.features), featureCols)
      && (forall c :: c in Labels(sel.features) <==> c in featureCols && IsSupported(FeatureLevel(df, c), supported))
      && (forall k | 0 <= k < |sel.features| :: IsSupported(GetScaleLevel(sel.features[k].dtype), supported))
  {
    var sel := SelectionOf(df, featureCols, targetCols, supported).value;
    FilterInIsSubsequence(featureCols, SupportedLabels(df, supported));
    forall k | 0 <= k < |sel.features| ensures IsSupported(GetScaleLevel(sel.features[k].dtype), supported) {
      var c := Labels(sel.features)[k];
      assert c in SupportedLabels(df, supported);
      assert Find(df, c) == Some(sel.features[k]);
    }
  }

  /**
   * The target frame holds exactly the requested targets whose dtype is boolean
   * or integer, in request order.
   */
  lemma {:induction false} SelectedTargetColumns(df: Frame, featureCols: seq<string>, targetCols: seq<string>, supported: set<ScaleLevel>)
    requires SelectionOf(df, featureCols, targetCols, supported).Ok?
    ensures var sel := SelectionOf(df, featureCols, targetCols, supported).value;
      && Labels(sel.targets) == SelectedTargets(df, targetCols)
      && IsSubsequence(Labels(sel.targets), targetCols)
      && (forall c :: c in Labels(sel.targets) <==> c in targetCols && IsTargetDType(Find(df, c).value.dtype))
      && (forall k | 0 <= k < |sel.targets| :: IsTargetDType(sel.targets[k].dtype))
  {
    var sel := SelectionOf(df, featureCols, targetCols, supported).value;
    FilterInIsSubsequence(targetCols, TargetLabels(df));
    forall k | 0 <= k < |sel.targets| ensures IsTargetDType(sel.targets[k].dtype) {
      var c := Labels(sel.targets)[k];
      assert c in TargetLabels(df);
      assert Find(df, c) == Some(sel.targets[k]);
    }
  }

  /** Each group holds exactly the requested features of its level, in request order. */
  lemma {:induction false} ScaleLevelGroupMembers(df: Frame, featureCols: seq<string>, supported: set<ScaleLevel>, level: ScaleLevel)
    ensures IsSubsequence(Group(df, featureCols, supported, level), featureCols)
    ensures forall c ::
      (c in Group(df, featureCols, supported, level)
       <==> c in featureCols && level in supported && FeatureLevel(df, c) == Some(level))
  {
    FilterInIsSubsequence(featureCols, LabelsAtLevel(df, level, supported));
  }

  /**
   * The three groups are pairwise disjoint and together as many as the
   * selected features: every selected feature lands in exactly one group.
   */
  lemma ScaleLevelGroupsPartition(df: Frame, featureCols: seq<string>, supported: set<ScaleLevel>)
    ensures var num := Group(df, featureCols, supported, Numerical);
      var ord := Group(df, featureCols, supported, Ordinal);
      var cat := Group(df, featureCols, supported, Categorical);
      && (forall c | c in num :: c !in ord && c !in cat)
      && (forall c | c in ord :: c !in cat)
      && |num| + |ord| + |cat| == |SelectedFeatures(df, featureCols, supported)|
  {
    var a := LabelsAtLevel(df, Numerical, supported);
    var b := LabelsAtLevel(df, Ordinal, supported);
    var c := LabelsAtLevel(df, Categorical, supported);
    assert a !! b && (a + b) !! c;
    assert SupportedLabels(df, supported) == a + b + c;
    FilterInDisjointUnion(featureCols, a, b);
    FilterInDisjointUnion(featureCols, a + b, c);
  }

  // ---------------------------------------------------------------------------
  // The scale-level template

  datatype TemplateRow = TemplateRow(column: string, scaleLevel: string, levelOrder: Option<string>)

  /** The template's pre-filled scale level for a dtype. */
  function TemplateLabel(t: DType): string {
    if IsStringDType(t) || IsObjectDType(t) || IsBoolDType(t) then "categorical"
    else if IsNumericDType(t) then "numerical"
    else "provide scale level"
  }

  /** `if not columns_to_use: columns_to_use = df.columns.tolist()`. */
  function ColumnsToUse(df: Frame, columnsToUse: Option<seq<string>>): seq<string> {
    if columnsToUse.None? || columnsToUse.value == [] then Labels(df) else columnsToUse.value
  }

  /** The `dtypes` list: one label per frame column named in `use`, in frame order. */
  function TemplateLabels(cols: seq<Column>, use: seq<string>): seq<string>
    decreases |cols|
  {
    if cols == [] then []
    else
      var c := cols[|cols| - 1];
      TemplateLabels(cols[..|cols| - 1], use) + (if c.name in use then [TemplateLabel(c.dtype)] else [])
  }

  /**
   * `create_scale_level_template` as written: the "Column" list is
   * `columns_to_use` in the caller's order, the "Scale Level" list follows the
   * frame's column order, and lists of different lengths make the DataFrame
   * constructor raise ValueError.
   */
  function Template(df: Frame, columnsToUse: Option<seq<string>>): Result<seq<TemplateRow>, Exception> {
    var use := ColumnsToUse(df, columnsToUse);
    var labels := TemplateLabels(df, use);
    if |use| != |labels| then Err(ValueError)
    else Ok(seq(|use|, k requires 0 <= k < |use| => TemplateRow(use[k], labels[k], None)))
  }

  method CreateScaleLevelTemplate(df: Frame, columnsToUse: Option<seq<string>>) returns (r: Result<seq<TemplateRow>, Exception>)
    ensures r == Template(df, columnsToUse)
  {
    var dtypes: seq<string> := [];
    var levels: seq<Option<string>> := [];
    var use := if columnsToUse.None? || columnsToUse.value == [] then Labels(df) else columnsToUse.value;
    for i := 0 to |df|
      invariant dtypes == TemplateLabels(df[..i], use)
      invariant |levels| == |dtypes| && forall k | 0 <= k < |levels| :: levels[k] == None
    {
      var column := df[i];
      assert df[..i + 1][..i] == df[..i];
      if column.name in use {
        var t := column.dtype;
        if IsStringDType(t) || IsObjectDType(t) || IsBoolDType(t) {
          dtypes := dtypes + ["categorical"];
          levels := levels + [None];
        } else if IsNumericDType(t) {
          dtypes := dtypes + ["numerical"];
          levels := levels + [None];
        } else {
          dtypes := dtypes + ["provide scale level"];
          levels := levels + [None];
        }
      }
    }
    assert df[..|df|] == df;
    assert use == ColumnsToUse(df, columnsToUse);
    if |use| != |dtypes| || |use| != |levels| {
      return Err(ValueError);
    }
    var rows := seq(|use|, k requires 0 <= k < |use| => TemplateRow(use[k], dtypes[k], levels[k]));
    assert rows == Template(df, columnsToUse).value;
    return Ok(rows);
  }

  /**
   * The template labels line up with the frame columns that `use` names, in
   * frame order: the k-th label is that of the k-th such column.
   */
  lemma {:induction false} TemplateLabelsAlign(df: Frame, use: seq<string>, n: nat)
    requires n <= |df|
    ensures var kept := FilterIn(Labels(df[..n]), Elements(use));
      && |TemplateLabels(df[..n], use)| == |kept|
      && forall k | 0 <= k < |kept| :: kept[k] in Labels(df) && TemplateLabels(df[..n], use)[k] == TemplateLabel(Find(df, kept[k]).value.dtype)
    decreases n
  {
    if n > 0 {
      TemplateLabelsAlign(df, use, n - 1);
      var c := df[n - 1];
      FindOwnLabel(df, n - 1);
      assert c.name in Labels(df) by {
        assert Labels(df)[n - 1] == c.name;
      }
      var E := Elements(use);
      var kept0 := FilterIn(Labels(df[..n - 1]), E);
      var labels0 := TemplateLabels(df[..n - 1], use);
      TemplateStep(df, use, n);
      assert c.name in E <==> c.name in use;
      var kept := FilterIn(Labels(df[..n]), E);
      var labels := TemplateLabels(df[..n], use);
      assert kept == kept0 + (if c.name in E then [c.name] else []);
      assert labels == labels0 + (if c.name in use then [TemplateLabel(c.dtype)] else []);
      forall k | 0 <= k < |kept|
        ensures kept[k] in Labels(df) && labels[k] == TemplateLabel(Find(df, kept[k]).value.dtype)
      {
        if k < |kept0| {
          assert kept[k] == kept0[k] && labels[k] == labels0[k];
        } else {
          assert kept[k] == c.name && labels[k] == TemplateLabel(c.dtype);
        }
      }
    }
  }

  /** Extending a frame prefix by one column extends its labels by that column's name. */
  lemma TemplateStep(df: Frame, use: seq<string>, n: nat)
    requires 0 < n <= |df|
    ensures Labels(df[..n]) == Labels(df[..n - 1]) + [df[n - 1].name]
    ensures TemplateLabels(df[..n], use)
         == TemplateLabels(df[..n - 1], use) + (if df[n - 1].name in use then [TemplateLabel(df[n - 1].dtype)] else [])
  {
    assert df[..n][..n - 1] == df[..n - 1];
  }

  /** With no (or an empty) `columns_to_use`, the template has one row per frame column, in frame order. */
  lemma TemplateOfAllColumns(df: Frame, columnsToUse: Option<seq<string>>)
    requires columnsToUse.None? || columnsToUse.value == []
    ensures Template(df, columnsToUse).Ok?
    ensures var rows := Template(df, columnsToUse).value;
      |rows| == |df| &&
      forall k | 0 <= k < |df| :: rows[k] == TemplateRow(df[k].name, TemplateLabel(df[k].dtype), None)
  {
    var use := Labels(df);
    TemplateLabelsAlign(df, use, |df|);
    assert df[..|df|] == df;
    FilterInEverything(use, Elements(use));
    forall k | 0 <= k < |df| ensures Find(df, use[k]) == Some(df[k]) {
      FindOwnLabel(df, k);
    }
  }

  /**
   * With a non-empty `columns_to_use`, building the template succeeds iff the
   * list repeats no label and names only columns of the frame.
   */
  lemma TemplateSucceeds(df: Frame, use: seq<string>)
    requires use != []
    ensures Template(df, Some(use)).Ok? <==> NoDuplicates(use) && forall u | u in use :: u in Labels(df)
  {
    var D, K := Elements(Labels(df)), Elements(use);
    TemplateLength(df, use);
    ElementsCardinality(use);
    IntersectionCardinality(D, K);
    if K <= D {
      forall u | u in use ensures u in Labels(df) {
        assert u in K;
      }
    }
    if forall u | u in use :: u in Labels(df) {
      forall x | x in K ensures x in D {
        assert x in use;
      }
    }
  }

  /** There are as many template labels as distinct labels of `use` in the frame. */
  lemma TemplateLength(df: Frame, use: seq<string>)
    ensures |TemplateLabels(df, use)| == |Elements(Labels(df)) * Elements(use)|
  {
    TemplateLabelsAlign(df, use, |df|);
    assert df[..|df|] == df;
    FilterInCardinality(Labels(df), Elements(use));
  }

  // ---------------------------------------------------------------------------
  // The template as evidently intended: each row labelled by its own column.

  /** One row per frame column named in `columns_to_use`, in frame order, labelled from that column's dtype. */
  function AlignedTemplate(df: Frame, columnsToUse: Option<seq<string>>): (rows: seq<TemplateRow>)
    ensures forall row | row in rows ::
      (row.column in Labels(df) && row.levelOrder == None
       && row.scaleLevel == TemplateLabel(Find(df, row.column).value.dtype))
    ensures forall row | row in rows :: row.column in ColumnsToUse(df, columnsToUse)
    ensures |rows| == |FilterIn(Labels(df), Elements(ColumnsToUse(df, columnsToUse)))|
    ensures forall k | 0 <= k < |rows| :: rows[k].column == FilterIn(Labels(df), Elements(ColumnsToUse(df, columnsToUse)))[k]
  {
    var kept := FilterIn(Labels(df), Elements(ColumnsToUse(df, columnsToUse)));
    seq(|kept|, k requires 0 <= k < |kept| => TemplateRow(kept[k], TemplateLabel(Find(df, kept[k]).value.dtype), None))
  }

  /** The column labels of a template, row by row. */
  function TemplateColumns(rows: seq<TemplateRow>): seq<string> {
    seq(|rows|, k requires 0 <= k < |rows| => rows[k].column)
  }

  /** The aligned template names every frame column of `columns_to_use` exactly once, in frame order. */
  lemma AlignedTemplateCovers(df: Frame, columnsToUse: Option<seq<string>>)
    ensures var columns := TemplateColumns(AlignedTemplate(df, columnsToUse));
      && (forall c | c in ColumnsToUse(df, columnsToUse) && c in Labels(df) :: c in columns)
      && NoDuplicates(columns)
      && IsSubsequence(columns, Labels(df))
  {
    var keep := Elements(ColumnsToUse(df, columnsToUse));
    AlignedColumns(df, columnsToUse);
    FilterInIsSubsequence(Labels(df), keep);
    FrameLabelsDistinct(df);
    FilterInNoDuplicates(Labels(df), keep);
  }

  lemma AlignedColumns(df: Frame, columnsToUse: Option<seq<string>>)
    ensures TemplateColumns(AlignedTemplate(df, columnsToUse)) == FilterIn(Labels(df), Elements(ColumnsToUse(df, columnsToUse)))
  {
  }

  /**
   * Whenever `columns_to_use` lists its columns in frame order without repeats
   * (in particular when it is absent or empty), the template as written is the
   * aligned one.
   */
  lemma TemplateAgreesInFrameOrder(df: Frame, columnsToUse: Option<seq<string>>)
    requires var use := ColumnsToUse(df, columnsToUse); use == FilterIn(Labels(df), Elements(use))
    ensures Template(df, columnsToUse) == Ok(AlignedTemplate(df, columnsToUse))
  {
    var use := ColumnsToUse(df, columnsToUse);
    assert df[..|df|] == df;
    TemplateLabelsAlign(df, use, |df|);
    var labels := TemplateLabels(df, use);
    RowsOfOwnLabels(df, use, labels);
  }

  /** Rows whose labels are those of their own columns are the aligned rows. */
  lemma RowsOfOwnLabels(df: Frame, use: seq<string>, labels: seq<string>)
    requires |use| == |labels|
    requires forall k | 0 <= k < |use| :: use[k] in Labels(df) && labels[k] == TemplateLabel(Find(df, use[k]).value.dtype)
    ensures seq(|use|, k requires 0 <= k < |use| => TemplateRow(use[k], labels[k], None))
         == seq(|use|, k requires 0 <= k < |use| => TemplateRow(use[k], TemplateLabel(Find(df, use[k]).value.dtype), None))
  {
  }

  lemma DefaultColumnsInFrameOrder(df: Frame, columnsToUse: Option<seq<string>>)
    requires columnsToUse.None? || columnsToUse.value == []
    ensures Template(df, columnsToUse) == Ok(AlignedTemplate(df, columnsToUse))
  {
    var use := Labels(df);
    assert ColumnsToUse(df, columnsToUse) == use;
    FilterInEverything(use, Elements(use));
    TemplateAgreesInFrameOrder(df, columnsToUse);
  }

  /**
   * As written, a `columns_to_use` in another order than the frame's mislabels
   * rows: the string column "b" is reported as numerical.
   */
  lemma TemplateMisalignsReordered()
    ensures var df: Frame := [Column("a", Float, []), Column("b", Str, [])];
      && Template(df, Some(["b", "a"])) == Ok([TemplateRow("b", "numerical", None), TemplateRow("a", "categorical", None)])
      && AlignedTemplate(df, Some(["b", "a"])) == [TemplateRow("a", "numerical", None), TemplateRow("b", "categorical", None)]
  {
    ReorderedAsWritten();
    ReorderedAligned();
  }

  /** The template as written for the frame [a: float, b: string] and `columns_to_use` ["b", "a"]. */
  lemma ReorderedAsWritten()
    ensures Template([Column("a", Float, []), Column("b", Str, [])], Some(["b", "a"]))
         == Ok([TemplateRow("b", "numerical", None), TemplateRow("a", "categorical", None)])
  {
    var df: Frame := [Column("a", Float, []), Column("b", Str, [])];
    var use := ["b", "a"];
    ReorderedLabels();
    assert ColumnsToUse(df, Some(use)) == use;
    var labels := TemplateLabels(df, use);
    var rows := seq(|use|, k requires 0 <= k < |use| => TemplateRow(use[k], labels[k], None));
    assert Template(df, Some(use)) == Ok(rows);
    assert rows == [TemplateRow("b", "numerical", None), TemplateRow("a", "categorical", None)];
  }

  /** The aligned template for the same frame and columns. */
  lemma ReorderedAligned()
    ensures AlignedTemplate([Column("a", Float, []), Column("b", Str, [])], Some(["b", "a"]))
         == [TemplateRow("a", "numerical", None), TemplateRow("b", "categorical", None)]
  {
    var df: Frame := [Column("a", Float, []), Column("b", Str, [])];
    assert ColumnsToUse(df, Some(["b", "a"])) == ["b", "a"];
    assert Labels(df) == ["a", "b"];
    ReorderedKept();
    FloatAndStringLabels();
    AlignedTwoColumns(df, Some(["b", "a"]));
  }

  lemma FloatAndStringLabels()
    ensures TemplateLabel(Float) == "numerical" && TemplateLabel(Str) == "categorical"
  {
  }

  /** The aligned template of a two-column frame whose columns are both used. */
  lemma AlignedTwoColumns(df: Frame, columnsToUse: Option<seq<string>>)
    requires |df| == 2 && FilterIn(Labels(df), Elements(ColumnsToUse(df, columnsToUse))) == [df[0].name, df[1].name]
    ensures AlignedTemplate(df, columnsToUse)
         == [TemplateRow(df[0].name, TemplateLabel(df[0].dtype), None), TemplateRow(df[1].name, TemplateLabel(df[1].dtype), None)]
  {
    var rows := AlignedTemplate(df, columnsToUse);
    AlignedColumns(df, columnsToUse);
    assert TemplateColumns(rows) == [df[0].name, df[1].name];
    assert rows[0].column == df[0].name && rows[1].column == df[1].name;
    FindOwnLabel(df, 0);
    FindOwnLabel(df, 1);
    assert rows[0] in rows && rows[1] in rows;
  }

  /** The scale-level labels of the frame [a: float, b: string], in frame order. */
  lemma ReorderedLabels()
    ensures TemplateLabels([Column("a", Float, []), Column("b", Str, [])], ["b", "a"]) == ["numerical", "categorical"]
  {
    var df: Frame := [Column("a", Float, []), Column("b", Str, [])];
    var use := ["b", "a"];
    assert df[..1] == [Column("a", Float, [])];
    assert df[..1][..0] == [];
    assert TemplateLabels(df[..1][..0], use) == [];
    assert TemplateLabels(df[..1], use) == ["numerical"];
  }

  /** The columns of [a, b] named in ["b", "a"], in frame order. */
  lemma ReorderedKept()
    ensures FilterIn(["a", "b"], Elements(["b", "a"])) == ["a", "b"]
  {
    var labels := ["a", "b"];
    assert labels[..1] == ["a"];
    assert labels[..1][..0] == [];
  }
}
