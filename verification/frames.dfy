/**
 * The slice of pandas the modelled code relies on: a dataframe is a sequence of
 * labelled, typed columns, and the dtype tests used by the code are predicates
 * over an explicit enumeration of storage types.
 */
module Frames {
  import opened Wrappers
  import opened Sequences

  /** Storage types, as finely as the modelled dtype tests tell them apart. */
  datatype DType =
    | Float          // every floating-point dtype (numpy float16/32/64, pandas Float32/Float64)
    | NumpyInt64     // exactly numpy's int64
    | NullableInt64  // pandas' nullable "Int64" extension dtype
    | OtherInt       // every other signed integer dtype: other widths, other nullable integers
    | Boolean        // numpy bool and pandas' nullable "boolean"
    | Category       // pandas CategoricalDtype
    | Str            // pandas StringDtype
    | Obj            // numpy object
    | Complex        // complex floating point: numeric, yet neither float nor integer
    | Other          // datetimes, timedeltas, periods, intervals, ...

  /** `is_float_dtype`. */
  predicate IsFloatDType(t: DType) {
    t == Float
  }

  /** `is_integer_dtype`. */
  predicate IsIntegerDType(t: DType) {
    t == NumpyInt64 || t == NullableInt64 || t == OtherInt
  }

  /** `is_bool_dtype`. */
  predicate IsBoolDType(t: DType) {
    t == Boolean
  }

  /** `pd.api.types.is_string_dtype` (an object dtype passes it as well). */
  predicate IsStringDType(t: DType) {
    t == Str || t == Obj
  }

  /** `pd.api.types.is_object_dtype`. */
  predicate IsObjectDType(t: DType) {
    t == Obj
  }

  /** `pd.api.types.is_numeric_dtype`: booleans count as numeric. */
  predicate IsNumericDType(t: DType) {
    IsFloatDType(t) || IsIntegerDType(t) || t == Boolean || t == Complex
  }

  /**
   * A column: its label, its dtype and, for boolean and integer columns, its
   * cells (True and False as 1 and 0). Cells of other dtypes are not modelled.
   */
  datatype Column = Column(name: string, dtype: DType, values: seq<int>)

  function Labels(cols: seq<Column>): seq<string> {
    seq(|cols|, i requires 0 <= i < |cols| => cols[i].name)
  }

  predicate UniqueLabels(cols: seq<Column>) {
    forall i, j | 0 <= i < j < |cols| :: cols[i].name != cols[j].name
  }

  /** A dataframe whose column labels are pairwise distinct. */
  type Frame = cols: seq<Column> | UniqueLabels(cols) witness []

  /** `df[name]`: the column with that label, or None where pandas raises KeyError. */
  function Find(cols: seq<Column>, name: string): (r: Option<Column>)
    ensures r.Some? <==> name in Labels(cols)
    ensures r.Some? ==> r.value in cols && r.value.name == name
  {
    if cols == [] then None
    else if cols[0].name == name then
      assert Labels(cols)[0] == name;
      Some(cols[0])
    else
      assert Labels(cols) == [cols[0].name] + Labels(cols[1..]);
      Find(cols[1..], name)
  }

  /** A frame's labels are pairwise distinct. */
  lemma FrameLabelsDistinct(df: Frame)
    ensures NoDuplicates(Labels(df))
  {
    forall i, j | 0 <= i < j < |df| ensures Labels(df)[i] != Labels(df)[j] {
      assert df[i].name != df[j].name;
    }
  }

  /** In a frame, looking up a column's own label finds that column. */
  lemma FindOwnLabel(df: Frame, i: nat)
    requires i < |df|
    ensures Find(df, df[i].name) == Some(df[i])
  {
    assert Labels(df)[i] == df[i].name;
    var c := Find(df, df[i].name).value;
    var j :| 0 <= j < |df| && df[j] == c;
    assert df[j].name == df[i].name;
  }

  /** `df.loc[:, names]` for labels that are all present: one column per requested label, in request order. */
  function Project(df: Frame, names: seq<string>): (r: seq<Column>)
    requires forall n | n in names :: n in Labels(df)
    ensures Labels(r) == names
    ensures forall k | 0 <= k < |names| :: Find(df, names[k]) == Some(r[k])
  {
    seq(|names|, k requires 0 <= k < |names| => Find(df, names[k]).value)
  }
}
