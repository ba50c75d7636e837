/** Turning the decision model's output into labels and into a pump command. */
module Decision {
  import opened Base
  import opened Config
  import opened Columns
  import opened Labels

  /** One row of the decision model's output. `entries` holds `str()` of each
      element (after `.item()` where the element has it) when the output is a
      list or array (None for a scalar); `rendered` is `str()` of the whole
      output; `item` is `str()` of the whole output after `.item()` where the
      output has that method (a numpy scalar or array), `str()` of the output
      itself otherwise, and the error `.item()` raises on an array whose size
      is not one. */
  datatype Prediction = Prediction(entries: Option<seq<string>>, rendered: string, item: Result<string>)

  /** `meta.get("target_label_cols") or meta.get("label_cols") or DEFAULT_LABEL_COLS`. */
  function LabelCols(meta: Meta): (cols: seq<string>)
    ensures cols != []
    ensures "target_label_cols" in meta && meta["target_label_cols"] != [] ==> cols == meta["target_label_cols"]
    ensures (!("target_label_cols" in meta && meta["target_label_cols"] != [])
             && "label_cols" in meta && meta["label_cols"] != []) ==> cols == meta["label_cols"]
    ensures (!("target_label_cols" in meta && meta["target_label_cols"] != [])
             && !("label_cols" in meta && meta["label_cols"] != [])) ==> cols == DEFAULT_LABEL_COLS
  {
    if "target_label_cols" in meta && meta["target_label_cols"] != [] then meta["target_label_cols"]
    else if "label_cols" in meta && meta["label_cols"] != [] then meta["label_cols"]
    else DEFAULT_LABEL_COLS
  }

  /** The dict built by assigning `labels[cols[i]] = xs[i]` for i in order. */
  function ZipLabels(cols: seq<string>, xs: seq<string>): map<string, string>
    requires |cols| <= |xs|
  {
    if cols == [] then map[]
    else ZipLabels(cols[..|cols| - 1], xs)[cols[|cols| - 1] := xs[|cols| - 1]]
  }

  /** Every column becomes a key, and a key holds the entry of the column's
      last occurrence. */
  lemma {:induction false} ZipLabelsSpec(cols: seq<string>, xs: seq<string>)
    requires |cols| <= |xs|
    ensures ZipLabels(cols, xs).Keys == set c | c in cols
    ensures forall i :: 0 <= i < |cols| && (forall j :: i < j < |cols| ==> cols[j] != cols[i]) ==>
              ZipLabels(cols, xs)[cols[i]] == xs[i]
  {
    if cols != [] {
      var n := |cols| - 1;
      ZipLabelsSpec(cols[..n], xs);
      assert forall i :: 0 <= i < n ==> cols[..n][i] == cols[i];
      assert (set c | c in cols) == (set c | c in cols[..n]) + {cols[n]} by {
        assert cols == cols[..n] + [cols[n]];
      }
    }
  }

  function MinNat(a: nat, b: nat): nat {
    if a <= b then a else b
  }

  /** The labels of a prediction: each label column zipped with its entry
      (truncated to the shorter of the two) when the output has at least two
      entries, otherwise the output's item under `label`, or the error its
      `.item()` raises. */
  function DecodedLabels(pred: Prediction, meta: Meta): Result<map<string, string>> {
    if pred.entries.Some? && |pred.entries.value| >= 2 then
      var xs := pred.entries.value;
      var cols := LabelCols(meta);
      Ok(ZipLabels(cols[..MinNat(|cols|, |xs|)], xs))
    else
      var v :- pred.item;
      Ok(map["label" := v])
  }

  method DecodeMultioutputPrediction(pred: Prediction, meta: Meta) returns (r: Result<map<string, string>>)
    ensures r == DecodedLabels(pred, meta)
    ensures r.Err? <==> !(pred.entries.Some? && |pred.entries.value| >= 2) && pred.item.Err?
    ensures pred.entries.Some? && |pred.entries.value| >= 2 ==>
              var cols := LabelCols(meta)[..MinNat(|LabelCols(meta)|, |pred.entries.value|)];
              && r.Ok?
              && r.value.Keys == (set c | c in cols)
              && forall i :: 0 <= i < |cols| && (forall j :: i < j < |cols| ==> cols[j] != cols[i]) ==>
                   r.value[cols[i]] == pred.entries.value[i]
    ensures !(pred.entries.Some? && |pred.entries.value| >= 2) && pred.item.Ok? ==>
              r == Ok(map["label" := pred.item.value])
  {
    var labelCols := LabelCols(meta);
    var labels := map[];
    if pred.entries.Some? && |pred.entries.value| >= 2 {
      var xs := pred.entries.value;
      var cols := labelCols[..MinNat(|labelCols|, |xs|)];
      for i := 0 to |cols|
        invariant labels == ZipLabels(cols[..i], xs)
      {
        assert cols[..i + 1][..i] == cols[..i];
        labels := labels[cols[i] := xs[i]];
      }
      assert cols[..|cols|] == cols;
      ZipLabelsSpec(cols, xs);
      return Ok(labels);
    }
    if pred.item.Err? {
      return Err(pred.item.error);
    }
    labels := labels["label" := pred.item.value];
    r := Ok(labels);
  }

  /** `str(x).strip().lower()` of a label or of the rendered output. */
  function Normalized(s: string): string {
    Lower(Strip(s))
  }

  /** A string that contains `p + u` contains `u`. */
  lemma ContainsSuffix(s: string, p: string, u: string)
    requires Contains(s, p + u)
    ensures Contains(s, u)
  {
    var i :| OccursAt(s, p + u, i);
    assert s[i + |p|..i + |p| + |u|] == s[i..i + |p + u|][|p|..];
    assert OccursAt(s, u, i + |p|);
  }

  /** The source's third dry test is already covered by the first. */
  lemma AgakKeringIsKering(s: string)
    ensures Contains(s, "agak kering") ==> Contains(s, "kering")
  {
    if Contains(s, "agak kering") {
      assert "agak kering" == "agak " + "kering";
      ContainsSuffix(s, "agak ", "kering");
    }
  }

  /** The verdict of an explicit soil label: water for a dry label, no water
      for a wet or optimal one, none otherwise. */
  function SoilLabelDecision(labels: map<string, string>): (d: Option<bool>)
    ensures d == Some(true) <==>
              |labels| > 0 && "label_soil" in labels
              && (var s := Normalized(labels["label_soil"]);
                  Contains(s, "kering") || Contains(s, "butuh air"))
    ensures d == Some(false) <==>
              |labels| > 0 && "label_soil" in labels
              && (var s := Normalized(labels["label_soil"]);
                  !Contains(s, "kering") && !Contains(s, "butuh air")
                  && (Contains(s, "basah") || Contains(s, "optimal")))
  {
    if |labels| == 0 then None
    else
      var soil := Normalized(if "label_soil" in labels then labels["label_soil"] else "");
      AgakKeringIsKering(soil);
      if soil == "" then None
      else if Contains(soil, "kering") || Contains(soil, "butuh air") || Contains(soil, "agak kering") then Some(true)
      else if Contains(soil, "basah") || Contains(soil, "optimal") then Some(false)
      else None
  }

  /** The command of the first table key that occurs in `s`. */
  function FirstKeyIn(table: seq<(string, bool)>, s: string): (d: Option<bool>)
    ensures d.None? <==> forall i :: 0 <= i < |table| ==> !Contains(s, table[i].0)
    ensures d.Some? ==> exists i :: 0 <= i < |table| && Contains(s, table[i].0) && d.value == table[i].1
                          && forall j :: 0 <= j < i ==> !Contains(s, table[j].0)
  {
    if table == [] then None
    else if Contains(s, table[0].0) then Some(table[0].1)
    else
      var d := FirstKeyIn(table[1..], s);
      assert forall i :: 1 <= i < |table| ==> table[1..][i - 1] == table[i];
      if d.Some? then
        var k :| 0 <= k < |table[1..]| && Contains(s, table[1..][k].0) && d.value == table[1..][k].1
                 && forall j :: 0 <= j < k ==> !Contains(s, table[1..][j].0);
        assert forall j :: 0 <= j < k + 1 ==> !Contains(s, table[j].0) by {
          forall j | 0 <= j < k + 1 ensures !Contains(s, table[j].0) {
            if j > 0 { assert table[j] == table[1..][j - 1]; }
          }
        }
        d
      else d
  }

  /** The key at `i` decides when it is the first key that occurs in `s`. */
  lemma FirstKeyInAt(table: seq<(string, bool)>, s: string, i: nat)
    requires i < |table| && Contains(s, table[i].0)
    requires forall j :: 0 <= j < i ==> !Contains(s, table[j].0)
    ensures FirstKeyIn(table, s) == Some(table[i].1)
  {
    var d := FirstKeyIn(table, s);
    var k :| 0 <= k < |table| && Contains(s, table[k].0) && d.value == table[k].1
             && forall j :: 0 <= j < k ==> !Contains(s, table[j].0);
    assert !(k < i) && !(i < k);
  }

  /** The legacy reading of the rendered output through `LABEL_MAP`. */
  function LegacyDecision(rendered: string): Option<bool> {
    FirstKeyIn(LABEL_MAP, Normalized(rendered))
  }

  /** `float(row.get("soil_percent", 100.0))`. */
  function SoilOr100(row: Row): real {
    if "soil_percent" in row then row["soil_percent"] else 100.0
  }

  /** The pump command for a prediction, by precedence: an explicit soil
      label, then the first legacy key in the rendered output, then the soil
      threshold (a missing soil reading counts as 100, so no water). */
  function InterpretDecisionToPump(pred: Prediction, row: Row, labels: map<string, string>): (on: bool)
    ensures SoilLabelDecision(labels).Some? ==> on == SoilLabelDecision(labels).value
    ensures SoilLabelDecision(labels).None? && LegacyDecision(pred.rendered).Some? ==>
              on == LegacyDecision(pred.rendered).value
    ensures SoilLabelDecision(labels).None? && LegacyDecision(pred.rendered).None? ==>
              on == (SoilOr100(row) < SOIL_IRRIGATE_THRESHOLD)
  {
    match SoilLabelDecision(labels)
    case Some(b) => b
    case None =>
      var s := Normalized(pred.rendered);
      match FirstKeyIn(LABEL_MAP, s)
      case Some(b) => b
      case None =>
        if Contains(s, "stres_panas") || Contains(s, "panas") then SoilOr100(row) < SOIL_IRRIGATE_THRESHOLD
        else SoilOr100(row) < SOIL_IRRIGATE_THRESHOLD
  }

  /** A dry soil label waters whatever the rest of the output or the
      reading says. */
  lemma DrySoilLabelWins(pred: Prediction, row: Row, labels: map<string, string>)
    requires "label_soil" in labels && Contains(Normalized(labels["label_soil"]), "kering")
    ensures InterpretDecisionToPump(pred, row, labels)
  {
  }
}
