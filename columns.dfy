/** Choosing, for one model, which columns of a feature row it is fed and in
    which order. */
module Columns {
  import opened Base
  import opened Config
  import opened Rows

  /** What the worker learns about a pre-trained model by introspection: the
      column names it declares (`feature_names_in_`) and its input count. */
  datatype ModelInfo = ModelInfo(featureNames: Option<seq<string>>, nFeatures: Option<int>)

  /** The name-list entries of a model bundle's metadata (`sensor_cols`,
      `feature_cols`, `target_label_cols`, `label_cols`). */
  type Meta = map<string, seq<string>>

  /** A one-row data frame: column names and the values under them. */
  datatype Frame = Frame(columns: seq<string>, values: seq<real>)

  /** `[c for c in cols if c not in row]`. */
  function MissingCols(cols: seq<string>, row: Row): (m: seq<string>)
    ensures forall c :: c in m <==> c in cols && c !in row
    ensures |m| == 0 <==> forall c :: c in cols ==> c in row
  {
    if cols == [] then []
    else (if cols[0] in row then [] else [cols[0]]) + MissingCols(cols[1..], row)
  }

  /** `[row[c] for c in cols]`, for columns that are all present. */
  function ValuesOf(cols: seq<string>, row: Row): (vs: seq<real>)
    requires forall c :: c in cols ==> c in row
    ensures |vs| == |cols| && forall i :: 0 <= i < |cols| ==> vs[i] == row[cols[i]]
  {
    seq(|cols|, i requires 0 <= i < |cols| => row[cols[i]])
  }

  /** The frame of the given columns, or the error naming the missing ones. */
  function SelectColumns(cols: seq<string>, row: Row): (r: Result<Frame>)
    ensures r.Ok? <==> forall c :: c in cols ==> c in row
    ensures r.Ok? ==> r.value == Frame(cols, ValuesOf(cols, row))
    ensures r.Err? ==> r.error == MissingFeatures(MissingCols(cols, row))
  {
    var missing := MissingCols(cols, row);
    if |missing| > 0 then Err(MissingFeatures(missing)) else Ok(Frame(cols, ValuesOf(cols, row)))
  }

  /** `meta.get("sensor_cols") or meta.get("feature_cols")`, None when both are
      absent or empty. */
  function MetaColumns(meta: Meta): (r: Option<seq<string>>)
    ensures r.Some? ==> r.value != []
    ensures r.Some? <==> ("sensor_cols" in meta && meta["sensor_cols"] != [])
                         || ("feature_cols" in meta && meta["feature_cols"] != [])
    ensures "sensor_cols" in meta && meta["sensor_cols"] != [] ==> r == Some(meta["sensor_cols"])
    ensures (!("sensor_cols" in meta && meta["sensor_cols"] != [])
             && "feature_cols" in meta && meta["feature_cols"] != []) ==> r == Some(meta["feature_cols"])
  {
    if "sensor_cols" in meta && meta["sensor_cols"] != [] then Some(meta["sensor_cols"])
    else if "feature_cols" in meta && meta["feature_cols"] != [] then Some(meta["feature_cols"])
    else None
  }

  /** The fixed column table for a model that declares nothing: training names
      (5 when the model takes 5 inputs, 6 otherwise), or the device names of the
      same length when a training name is missing from the row. */
  function FallbackColumns(n: Option<int>, row: Row): (cols: seq<string>)
    ensures |cols| == (if n == Some(5) then 5 else 6)
    ensures cols == MODEL_FEATURES_5 || cols == MODEL_FEATURES_6 || cols == FEATURES_5 || cols == FEATURES_6
    ensures (cols == MODEL_FEATURES_5 || cols == MODEL_FEATURES_6) <==>
              forall c :: c in (if n == Some(5) then MODEL_FEATURES_5 else MODEL_FEATURES_6) ==> c in row
  {
    var cols := if n == Some(5) then MODEL_FEATURES_5 else MODEL_FEATURES_6;
    if |MissingCols(cols, row)| > 0 then (if |cols| == 6 then FEATURES_6 else FEATURES_5) else cols
  }

  /** `[row[c] for c in cols]` with a KeyError on the first absent column. */
  function IndexColumns(cols: seq<string>, row: Row): (r: Result<Frame>)
    ensures r.Ok? <==> forall c :: c in cols ==> c in row
    ensures r.Ok? ==> r.value == Frame(cols, ValuesOf(cols, row))
  {
    var missing := MissingCols(cols, row);
    if |missing| > 0 then Err(MissingColumn(missing[0])) else Ok(Frame(cols, ValuesOf(cols, row)))
  }

  /** The input frame of one feature row for a model, by priority: the
      model's declared names, then the metadata's names, then the fixed table. */
  function MakeXSingleStepFor(model: ModelInfo, row: Row, meta: Meta): (r: Result<Frame>)
    ensures r.Ok? ==> |r.value.values| == |r.value.columns|
                      && forall i :: 0 <= i < |r.value.columns| ==>
                           r.value.columns[i] in row && r.value.values[i] == row[r.value.columns[i]]
    ensures model.featureNames.Some? ==>
              (r.Ok? <==> forall c :: c in model.featureNames.value ==> c in row)
              && (r.Ok? ==> r.value.columns == model.featureNames.value)
    ensures model.featureNames.None? && MetaColumns(meta).Some? ==>
              (r.Ok? <==> forall c :: c in MetaColumns(meta).value ==> c in row)
              && (r.Ok? ==> r.value.columns == MetaColumns(meta).value)
    ensures model.featureNames.None? && MetaColumns(meta).None? ==>
              (r.Ok? <==> forall c :: c in FallbackColumns(model.nFeatures, row) ==> c in row)
              && (r.Ok? ==> r.value.columns == FallbackColumns(model.nFeatures, row))
  {
    if model.featureNames.Some? then SelectColumns(model.featureNames.value, row)
    else if MetaColumns(meta).Some? then SelectColumns(MetaColumns(meta).value, row)
    else IndexColumns(FallbackColumns(model.nFeatures, row), row)
  }

  /** A row with the dual-naming invariant always satisfies the fixed table,
      and gets the training names. */
  lemma FallbackOnShapedRow(n: Option<int>, row: Row)
    requires RowShape(row)
    ensures FallbackColumns(n, row) == (if n == Some(5) then MODEL_FEATURES_5 else MODEL_FEATURES_6)
    ensures MakeXSingleStepFor(ModelInfo(None, n), row, map[]).Ok?
  {
    assert forall c :: c in MODEL_FEATURES_6 ==> c in ROW_KEYS;
  }
}
