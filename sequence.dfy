/** The forecast model's input: one feature row when the model takes at
    most six inputs, otherwise a window of recent telemetry rows flattened
    step by step. */
module Sequence {
  import opened Base
  import opened Config
  import opened Rows
  import opened Columns
  import opened Telemetry

  /** A feature row held by reference: the worker keeps its rows in a list
      and assigns `hour` into them in place. */
  class RowRef {
    var fields: Row

    constructor (r: Row)
      ensures fields == r
    {
      fields := r;
    }
  }

  /** The input frame handed to the forecast model. */
  datatype ForecastInput = SingleStep(frame: Frame) | Flat(values: seq<real>)

  /** How many features each step carries, and how many steps. */
  datatype Layout = Layout(per: nat, steps: nat)

  /** The step layout of an input count above six: five per step when it
      divides, else six, else the count cannot be mapped. */
  function LayoutFor(nIn: int): (r: Result<Layout>)
    requires nIn > 6
    ensures r.Ok? <==> nIn % 5 == 0 || nIn % 6 == 0
    ensures r.Ok? ==> (r.value.per == 5 <==> nIn % 5 == 0) && (r.value.per == 5 || r.value.per == 6)
    ensures r.Ok? ==> r.value.per * r.value.steps == nIn && r.value.steps >= 2
    ensures r.Err? ==> r.error == BadFeatureCount(nIn)
  {
    if nIn % 5 == 0 then Ok(Layout(5, nIn / 5))
    else if nIn % 6 == 0 then Ok(Layout(6, nIn / 6))
    else Err(BadFeatureCount(nIn))
  }

  function StepFeatures(per: nat): seq<string> {
    if per == 5 then MODEL_FEATURES_5 else MODEL_FEATURES_6
  }

  /** `pts[-(steps * 3):]`: the latest points, at most three per step. */
  function Window<T>(pts: seq<T>, steps: nat): (w: seq<T>)
    ensures |w| == (if |pts| < 3 * steps then |pts| else 3 * steps)
    ensures w == pts[|pts| - |w|..]
  {
    if |pts| < 3 * steps then pts else pts[|pts| - 3 * steps..]
  }

  /** How a point is read: its row, None when it is skipped, or the error
      it raises. */
  type Reader = seq<Entry> -> Result<Option<Row>>

  /** The rows a reader makes of the points, in order: a skipped point adds
      nothing, and the first point it raises on makes the whole collection
      raise. */
  function Collected(pts: seq<seq<Entry>>, read: Reader): (r: Result<seq<Row>>)
    ensures r.Ok? ==> |r.value| <= |pts|
  {
    if pts == [] then Ok([])
    else
      var rows :- Collected(pts[..|pts| - 1], read);
      var o :- read(pts[|pts| - 1]);
      Ok(rows + (match o case Some(row) => [row] case None => []))
  }

  /** A collection raises exactly when the reader raises on one of its points. */
  lemma {:induction false} CollectedErr(pts: seq<seq<Entry>>, read: Reader)
    ensures Collected(pts, read).Err? <==> exists k :: 0 <= k < |pts| && read(pts[k]).Err?
  {
    if pts != [] {
      var n := |pts| - 1;
      var init := pts[..n];
      CollectedErr(init, read);
      if Collected(init, read).Err? {
        var k :| 0 <= k < n && read(init[k]).Err?;
        assert init[k] == pts[k];
      } else if read(pts[n]).Ok? {
        forall k | 0 <= k < |pts|
          ensures read(pts[k]).Ok?
        {
          if k < n {
            assert init[k] == pts[k];
          }
        }
      }
    }
  }

  /** The rows of one point: the row the reader makes of it, or none. */
  lemma CollectedOne(p: seq<Entry>, read: Reader)
    ensures Collected([p], read) ==
              match read(p)
              case Err(e) => Err(e)
              case Ok(o) => Ok(match o case Some(row) => [row] case None => [])
  {
    var pts := [p];
    assert pts[..|pts| - 1] == [] && pts[|pts| - 1] == p;
    assert Collected(pts[..|pts| - 1], read) == Ok([]);
    match read(p)
    case Err(e) =>
      assert Collected(pts, read) == Err(e);
    case Ok(o) =>
      var last := match o case Some(row) => [row] case None => [];
      assert [] + last == last;
  }

  /** Collecting two runs of points one after the other gives the rows of
      the first run followed by those of the second. */
  lemma {:induction false} CollectedAppend(a: seq<seq<Entry>>, b: seq<seq<Entry>>, read: Reader)
    requires Collected(a, read).Ok? && Collected(b, read).Ok?
    ensures Collected(a + b, read) == Ok(Collected(a, read).value + Collected(b, read).value)
  {
    if b == [] {
      assert a + b == a;
      assert Collected(a, read).value + [] == Collected(a, read).value;
    } else {
      var n := |b| - 1;
      var ab := a + b;
      assert ab[..|ab| - 1] == a + b[..n];
      assert ab[|ab| - 1] == b[n];
      var o := read(b[n]).value;
      var last := match o case Some(row) => [row] case None => [];
      var xs, ys := Collected(a, read).value, Collected(b[..n], read).value;
      assert Collected(b, read) == Ok(ys + last);
      CollectedAppend(a, b[..n], read);
      assert Collected(a + b[..n], read) == Ok(xs + ys);
      assert Collected(ab, read) == Ok((xs + ys) + last);
      ConcatAssoc(xs, ys, last);
    }
  }

  /** Every row collected is one the reader made, when all its rows are
      shaped. */
  lemma {:induction false} CollectedShape(pts: seq<seq<Entry>>, read: Reader)
    requires forall p :: read(p).Ok? && read(p).value.Some? ==> RowShape(read(p).value.value)
    ensures Collected(pts, read).Ok? ==>
              forall k :: 0 <= k < |Collected(pts, read).value| ==> RowShape(Collected(pts, read).value[k])
  {
    if pts != [] {
      CollectedShape(pts[..|pts| - 1], read);
    }
  }

  /** `_normalize_point` at the given hour, as a reader. */
  function Normalizer(hour: Hour): Reader {
    p => NormalizePoint(p, hour)
  }

  /** The rows of the normalisable points, in order; the first point whose
      reading raises makes the whole collection raise. */
  function NormalizedRows(pts: seq<seq<Entry>>, hour: Hour): (r: Result<seq<Row>>)
    ensures r.Ok? ==> |r.value| <= |pts| && forall k :: 0 <= k < |r.value| ==> RowShape(r.value[k])
  {
    CollectedShape(pts, Normalizer(hour));
    Collected(pts, Normalizer(hour))
  }

  /** The collection raises exactly when some point's reading raises. */
  lemma NormalizedRowsErr(pts: seq<seq<Entry>>, hour: Hour)
    ensures NormalizedRows(pts, hour).Err? <==> exists k :: 0 <= k < |pts| && NormalizePoint(pts[k], hour).Err?
  {
    CollectedErr(pts, Normalizer(hour));
  }

  /** The rows of one point: its row, or none when it is skipped. */
  lemma NormalizedRowsOne(p: seq<Entry>, hour: Hour)
    ensures NormalizedRows([p], hour) ==
              match NormalizePoint(p, hour)
              case Err(e) => Err(e)
              case Ok(o) => Ok(match o case Some(row) => [row] case None => [])
  {
    CollectedOne(p, Normalizer(hour));
  }

  /** Reading two runs of points one after the other gives the rows of the
      first run followed by those of the second. */
  lemma NormalizedRowsAppend(a: seq<seq<Entry>>, b: seq<seq<Entry>>, hour: Hour)
    requires NormalizedRows(a, hour).Ok? && NormalizedRows(b, hour).Ok?
    ensures NormalizedRows(a + b, hour) == Ok(NormalizedRows(a, hour).value + NormalizedRows(b, hour).value)
  {
    CollectedAppend(a, b, Normalizer(hour));
  }

  /** The latest `steps` rows, with the current row repeated in front when
      there are fewer. */
  function PaddedRows(rows: seq<Row>, current: Row, steps: nat): (r: seq<Row>)
    ensures |r| == steps
    ensures |rows| < steps ==>
              (forall k :: 0 <= k < steps - |rows| ==> r[k] == current)
              && r[steps - |rows|..] == rows
    ensures |rows| >= steps ==> r == rows[|rows| - steps..]
  {
    if |rows| < steps then seq(steps - |rows|, _ => current) + rows else rows[|rows| - steps..]
  }

  function PadCount(n: nat, steps: nat): nat {
    if n < steps then steps - n else 0
  }

  /** The hour of step `i` of `steps`, the last step being now (minute of the
      day `nowMin`) and each step ten minutes apart; earlier days wrap. */
  function StepHour(nowMin: Minute, steps: nat, i: nat): (h: Hour)
    ensures i + 1 == steps ==> h == nowMin / 60
  {
    ((nowMin - (steps - 1 - i) * STEP_MINUTES) % 1440) / 60
  }

  /** Each step stamped with its own hour. */
  function WithStepHours(rs: seq<Row>, nowMin: Minute): (r: seq<Row>)
    ensures |r| == |rs|
    ensures forall k :: 0 <= k < |rs| ==> "hour" in r[k] && r[k]["hour"] == StepHour(nowMin, |rs|, k) as real
    ensures forall k :: 0 <= k < |rs| ==> r[k].Keys == rs[k].Keys + {"hour"}
    ensures forall k, c :: 0 <= k < |rs| && c in rs[k] && c != "hour" ==> r[k][c] == rs[k][c]
  {
    seq(|rs|, k requires 0 <= k < |rs| => rs[k]["hour" := StepHour(nowMin, |rs|, k) as real])
  }

  /** The stamps as the source leaves them: the padded steps are one shared
      row, so all of them keep the hour of the last padded step. */
  function WithSharedPadHours(rs: seq<Row>, pad: nat, nowMin: Minute): (r: seq<Row>)
    ensures |r| == |rs|
    ensures forall k :: 0 <= k < |rs| && k < pad ==>
              "hour" in r[k] && r[k]["hour"] == StepHour(nowMin, |rs|, pad - 1) as real
    ensures forall k :: pad <= k < |rs| ==> "hour" in r[k] && r[k]["hour"] == StepHour(nowMin, |rs|, k) as real
    ensures forall k :: 0 <= k < |rs| ==> r[k].Keys == rs[k].Keys + {"hour"}
    ensures forall k, c :: 0 <= k < |rs| && c in rs[k] && c != "hour" ==> r[k][c] == rs[k][c]
  {
    seq(|rs|, k requires 0 <= k < |rs| =>
      rs[k]["hour" := StepHour(nowMin, |rs|, if k < pad then pad - 1 else k) as real])
  }

  /** `[float(r[f]) for r in rows for f in feats]`. */
  function FlattenRows(rs: seq<Row>, feats: seq<string>): seq<real>
    requires forall k, c :: 0 <= k < |rs| && c in feats ==> c in rs[k]
  {
    if rs == [] then []
    else FlattenRows(rs[..|rs| - 1], feats) + ValuesOf(feats, rs[|rs| - 1])
  }

  /** Every step contributes `|feats|` values. */
  lemma {:induction false} FlattenRowsLength(rs: seq<Row>, feats: seq<string>)
    requires forall k, c :: 0 <= k < |rs| && c in feats ==> c in rs[k]
    ensures |FlattenRows(rs, feats)| == |rs| * |feats|
  {
    if rs != [] {
      var n := |rs| - 1;
      FlattenRowsLength(rs[..n], feats);
      MulSucc(n, |feats|);
    }
  }

  /** The flat vector is step-major: step `i` occupies `|feats|` slots from
      `i * |feats|`, holding that step's features in order. */
  lemma {:induction false} FlattenRowsLayout(rs: seq<Row>, feats: seq<string>, i: nat)
    requires forall k, c :: 0 <= k < |rs| && c in feats ==> c in rs[k]
    requires i < |rs|
    ensures (i + 1) * |feats| <= |FlattenRows(rs, feats)|
    ensures FlattenRows(rs, feats)[i * |feats|..(i + 1) * |feats|] == ValuesOf(feats, rs[i])
  {
    var n := |rs| - 1;
    var w := |feats|;
    var p := FlattenRows(rs[..n], feats);
    var q := ValuesOf(feats, rs[n]);
    assert FlattenRows(rs, feats) == p + q;
    FlattenRowsLength(rs[..n], feats);
    MulSucc(i, w);
    MulSucc(n, w);
    if i < n {
      FlattenRowsLayout(rs[..n], feats, i);
      assert rs[..n][i] == rs[i];
      SliceOfLeft(p, q, i * w, (i + 1) * w);
    } else {
      SliceOfRight(p, q);
    }
  }

  lemma MulSucc(a: nat, c: nat)
    ensures (a + 1) * c == a * c + c && 0 <= a * c
  {
  }

  lemma MulMono(a: nat, b: nat, c: nat)
    requires a <= b
    ensures a * c <= b * c
  {
  }

  lemma SliceOfLeft<T>(p: seq<T>, q: seq<T>, lo: nat, hi: nat)
    requires lo <= hi <= |p|
    ensures (p + q)[lo..hi] == p[lo..hi]
  {
  }

  lemma SliceOfRight<T>(p: seq<T>, q: seq<T>)
    ensures (p + q)[|p|..|p| + |q|] == q
  {
  }

  /** Step rows of the sequence input (before the hours are stamped): the
      layout of the model, the padded window, and how many steps are padding. */
  datatype StepRows = StepRows(layout: Layout, rows: seq<Row>, pad: nat)

  function Padded(layout: Layout, rows: seq<Row>, current: Row): (s: StepRows)
    requires RowShape(current) && forall k :: 0 <= k < |rows| ==> RowShape(rows[k])
    ensures s.layout == layout && |s.rows| == layout.steps && s.pad <= layout.steps
    ensures forall k :: 0 <= k < |s.rows| ==> RowShape(s.rows[k])
    ensures s.rows == PaddedRows(rows, current, layout.steps) && s.pad == PadCount(|rows|, layout.steps)
  {
    StepRows(layout, PaddedRows(rows, current, layout.steps), PadCount(|rows|, layout.steps))
  }

  /** Stamping an hour keeps the dual-naming invariant. */
  lemma StampKeepsShape(row: Row, h: real)
    requires RowShape(row)
    ensures RowShape(row["hour" := h])
  {
  }

  lemma StepFeaturesInRow(per: nat, row: Row)
    requires RowShape(row)
    ensures forall c :: c in StepFeatures(per) ==> c in row
  {
    assert forall c :: c in MODEL_FEATURES_6 ==> c in ROW_KEYS;
  }

  /** The input of a model of at most six inputs (or of unknown size): the
      current row's frame. */
  function SingleStepInput(model: ModelInfo, state: Value, nowMin: Minute, meta: Meta): Result<ForecastInput> {
    var row :- BuildRowFromState(state, nowMin / 60);
    var x :- MakeXSingleStepFor(model, row, meta);
    Ok(SingleStep(x))
  }

  /** The sequence input as the source builds it: the shared padding row
      ends up with one hour for every padded step. */
  function ForecastInputAsWritten(model: ModelInfo, state: Value, nowMin: Minute, meta: Meta, telemetry: Value)
    : Result<ForecastInput>
  {
    if model.nFeatures.None? || model.nFeatures.value <= 6 then SingleStepInput(model, state, nowMin, meta)
    else
      var layout :- LayoutFor(model.nFeatures.value);
      var flat :- StepsInput(layout, state, nowMin, telemetry, true);
      Ok(Flat(flat))
  }

  /** The sequence input with every step stamped with its own hour. */
  function ForecastInputFor(model: ModelInfo, state: Value, nowMin: Minute, meta: Meta, telemetry: Value)
    : Result<ForecastInput>
  {
    if model.nFeatures.None? || model.nFeatures.value <= 6 then SingleStepInput(model, state, nowMin, meta)
    else
      var layout :- LayoutFor(model.nFeatures.value);
      var flat :- StepsInput(layout, state, nowMin, telemetry, false);
      Ok(Flat(flat))
  }

  /** The flat input of a multi-step layout: the telemetry window, padded
      with the current row. With `shared` the padding is one row object
      for all padded steps, as the source builds it; otherwise each padded
      step has its own copy. */
  function StepsInput(layout: Layout, state: Value, nowMin: Minute, telemetry: Value, shared: bool)
    : Result<seq<real>>
  {
    var pts :- ExtractPoints(telemetry);
    StepsFromPoints(layout, state, nowMin, pts, shared)
  }

  /** The step input once the telemetry points are read. */
  function StepsFromPoints(layout: Layout, state: Value, nowMin: Minute, pts: seq<seq<Entry>>, shared: bool)
    : Result<seq<real>>
  {
    var rows :- NormalizedRows(Window(pts, layout.steps), nowMin / 60);
    var current :- BuildRowFromState(state, nowMin / 60);
    Ok(PadInput(layout, rows, current, nowMin, shared))
  }

  /** The step rows padded, stamped and flattened, with shared or copied
      padding. */
  function PadInput(layout: Layout, rows: seq<Row>, current: Row, nowMin: Minute, shared: bool): seq<real>
    requires RowShape(current) && forall k :: 0 <= k < |rows| ==> RowShape(rows[k])
  {
    if shared then SharedPadInput(layout, rows, current, nowMin) else StepInput(layout, rows, current, nowMin)
  }

  /** The value of `StepsFromPoints` when both stages succeed. */
  lemma StepsFromPointsOk(layout: Layout, state: Value, nowMin: Minute, pts: seq<seq<Entry>>, shared: bool,
                          rows: seq<Row>, current: Row)
    requires NormalizedRows(Window(pts, layout.steps), nowMin / 60) == Ok(rows)
    requires BuildRowFromState(state, nowMin / 60) == Ok(current)
    ensures StepsFromPoints(layout, state, nowMin, pts, shared) == Ok(PadInput(layout, rows, current, nowMin, shared))
  {
  }

  /** The flat vector of rows that carry every row key. */
  function FlattenShaped(rs: seq<Row>, per: nat): seq<real> {
    if forall k :: 0 <= k < |rs| ==> RowShape(rs[k]) then
      assert forall k, c :: 0 <= k < |rs| && c in StepFeatures(per) ==> c in rs[k] by {
        forall k | 0 <= k < |rs| { StepFeaturesInRow(per, rs[k]); }
      }
      FlattenRows(rs, StepFeatures(per))
    else []
  }

  /** Whether `o` is among the first `n` references. */
  predicate InPrefix(rows: seq<RowRef>, o: RowRef, n: nat) {
    exists j :: 0 <= j < n && j < |rows| && rows[j] == o
  }

  /** The last of the first `n` positions holding `o`. */
  function LastBelow(rows: seq<RowRef>, o: RowRef, n: nat): (j: nat)
    requires n <= |rows| && InPrefix(rows, o, n)
    ensures j < n && rows[j] == o && forall m :: j < m < n ==> rows[m] != o
  {
    if rows[n - 1] == o then n - 1 else LastBelow(rows, o, n - 1)
  }

  function FieldsOf(rows: seq<RowRef>): (r: seq<Row>)
    reads set o | o in rows
    ensures |r| == |rows| && forall k :: 0 <= k < |rows| ==> r[k] == rows[k].fields
  {
    if rows == [] then [] else [rows[0].fields] + FieldsOf(rows[1..])
  }

  /** `rows[i]["hour"] = ...` for each step in turn. A row held at several
      positions is written once per position and keeps the last hour. */
  method SetHours(rows: seq<RowRef>, nowMin: Minute)
    modifies set o | o in rows
    ensures forall k :: 0 <= k < |rows| ==>
              rows[k].fields == old(rows[k].fields)["hour" := StepHour(nowMin, |rows|, LastBelow(rows, rows[k], |rows|)) as real]
  {
    for i := 0 to |rows|
      invariant forall k :: 0 <= k < |rows| ==>
                  rows[k].fields ==
                  if InPrefix(rows, rows[k], i)
                  then old(rows[k].fields)["hour" := StepHour(nowMin, |rows|, LastBelow(rows, rows[k], i)) as real]
                  else old(rows[k].fields)
    {
      rows[i].fields := rows[i].fields["hour" := StepHour(nowMin, |rows|, i) as real];
    }
  }

  /** A failing point fails every longer collection with the same error. */
  lemma {:induction false} NormalizedPrefixErr(pts: seq<seq<Entry>>, i: nat, hour: Hour)
    requires i <= |pts| && NormalizedRows(pts[..i], hour).Err?
    ensures NormalizedRows(pts, hour) == NormalizedRows(pts[..i], hour)
  {
    if i < |pts| {
      var q := pts[..|pts| - 1];
      assert q[..i] == pts[..i];
      NormalizedPrefixErr(q, i, hour);
    } else {
      assert pts[..i] == pts;
    }
  }

  lemma NormalizedRowsStep(pts: seq<seq<Entry>>, i: nat, hour: Hour)
    requires i < |pts| && NormalizedRows(pts[..i], hour).Ok? && NormalizePoint(pts[i], hour).Ok?
    ensures NormalizedRows(pts[..i + 1], hour)
            == Ok(NormalizedRows(pts[..i], hour).value
                  + match NormalizePoint(pts[i], hour).value case Some(row) => [row] case None => [])
  {
    assert pts[..i + 1][..i] == pts[..i];
  }

  predicate DistinctRefs(refs: seq<RowRef>) {
    forall a, b :: 0 <= a < b < |refs| ==> refs[a] != refs[b]
  }

  lemma DistinctSnoc(refs: seq<RowRef>, ref: RowRef)
    requires DistinctRefs(refs) && forall k :: 0 <= k < |refs| ==> refs[k] != ref
    ensures DistinctRefs(refs + [ref])
  {
  }

  /** One step of the loop: a point that normalises becomes a new row
      object at the end. */
  method AppendRow(refs: seq<RowRef>, ghost rows: seq<Row>, o: Option<Row>) returns (r: seq<RowRef>)
    requires |refs| == |rows| && forall k :: 0 <= k < |refs| ==> refs[k].fields == rows[k]
    requires DistinctRefs(refs)
    ensures var after := rows + match o case Some(row) => [row] case None => [];
            |r| == |after| && forall k :: 0 <= k < |r| ==> r[k].fields == after[k]
    ensures forall k :: 0 <= k < |r| ==> r[k] in refs || fresh(r[k])
    ensures DistinctRefs(r)
  {
    r := refs;
    if o.Some? {
      var ref := new RowRef(o.value);
      assert forall k :: 0 <= k < |refs| ==> refs[k] != ref;
      DistinctSnoc(refs, ref);
      r := refs + [ref];
    }
  }

  /** The loop over the window: each point that normalises becomes a new row
      object, in order. */
  method CollectRows(pts: seq<seq<Entry>>, hour: Hour) returns (r: Result<seq<RowRef>>)
    ensures r.Ok? <==> NormalizedRows(pts, hour).Ok?
    ensures r.Err? ==> r.error == NormalizedRows(pts, hour).error
    ensures r.Ok? ==> FieldsOf(r.value) == NormalizedRows(pts, hour).value
    ensures r.Ok? ==> forall k :: 0 <= k < |r.value| ==> fresh(r.value[k])
    ensures r.Ok? ==> DistinctRefs(r.value)
  {
    var refs: seq<RowRef> := [];
    for i := 0 to |pts|
      invariant NormalizedRows(pts[..i], hour).Ok?
      invariant |refs| == |NormalizedRows(pts[..i], hour).value|
      invariant forall k :: 0 <= k < |refs| ==> refs[k].fields == NormalizedRows(pts[..i], hour).value[k]
      invariant forall k :: 0 <= k < |refs| ==> fresh(refs[k])
      invariant DistinctRefs(refs)
    {
      var o := NormalizePoint(pts[i], hour);
      if o.Err? {
        assert pts[..i + 1][..i] == pts[..i];
        NormalizedPrefixErr(pts, i + 1, hour);
        return Err(o.error);
      }
      NormalizedRowsStep(pts, i, hour);
      refs := AppendRow(refs, NormalizedRows(pts[..i], hour).value, o.value);
    }
    assert pts[..|pts|] == pts;
    assert FieldsOf(refs) == NormalizedRows(pts, hour).value;
    return Ok(refs);
  }

  /** `for r in rows: for f in feats: flat.append(float(r[f]))`. */
  method FlattenSteps(rows: seq<RowRef>, feats: seq<string>) returns (flat: seq<real>)
    requires forall k, c :: 0 <= k < |rows| && c in feats ==> c in rows[k].fields
    ensures flat == FlattenRows(FieldsOf(rows), feats)
  {
    ghost var rs := FieldsOf(rows);
    flat := [];
    for i := 0 to |rows|
      invariant flat == FlattenRows(rs[..i], feats)
    {
      var r := rows[i].fields;
      assert r == rs[i];
      assert forall c :: c in feats ==> c in r;
      for j := 0 to |feats|
        invariant forall c :: c in feats[..j] ==> c in r
        invariant flat == FlattenRows(rs[..i], feats) + ValuesOf(feats[..j], r)
      {
        assert forall c :: c in feats[..j + 1] ==> c in feats;
        assert ValuesOf(feats[..j + 1], r) == ValuesOf(feats[..j], r) + [r[feats[j]]];
        flat := flat + [r[feats[j]]];
      }
      assert feats[..|feats|] == feats;
      assert rs[..i + 1][..i] == rs[..i];
    }
    assert rs[..|rows|] == rs;
  }

  /** A padded reference list holds the padded rows. */
  lemma PaddedFields(refs: seq<RowRef>, rows: seq<RowRef>, current: Row, steps: nat)
    requires |rows| == steps
    requires forall k :: 0 <= k < PadCount(|refs|, steps) ==> rows[k].fields == current
    requires forall k :: PadCount(|refs|, steps) <= k < steps ==> rows[k] == refs[|refs| - steps + k]
    ensures FieldsOf(rows) == PaddedRows(FieldsOf(refs), current, steps)
  {
    var a := FieldsOf(rows);
    var b := PaddedRows(FieldsOf(refs), current, steps);
    forall k | 0 <= k < steps ensures a[k] == b[k] {
      if k >= PadCount(|refs|, steps) {
        if |refs| < steps {
          assert b[k] == b[steps - |refs|..][k - (steps - |refs|)];
        }
      }
    }
  }

  /** `[current_row] * pad_needed + rows`, then `rows[-steps:]`: one row
      object fills every padded position. */
  method PadShared(refs: seq<RowRef>, current: Row, steps: nat) returns (rows: seq<RowRef>)
    requires DistinctRefs(refs)
    ensures |rows| == steps && FieldsOf(rows) == PaddedRows(FieldsOf(refs), current, steps)
    ensures SharedPadding(rows, PadCount(|refs|, steps))
    ensures forall k :: 0 <= k < |rows| ==> rows[k] in refs || fresh(rows[k])
  {
    var cur := new RowRef(current);
    assert forall j :: 0 <= j < |refs| ==> refs[j] != cur;
    if |refs| < steps {
      rows := seq(steps - |refs|, _ => cur) + refs;
    } else {
      rows := refs[|refs| - steps..];
    }
    PaddedFields(refs, rows, current, steps);
  }

  /** The padding with a copy of the current row per padded position. */
  method PadCopies(refs: seq<RowRef>, current: Row, steps: nat) returns (rows: seq<RowRef>)
    requires DistinctRefs(refs)
    ensures |rows| == steps && FieldsOf(rows) == PaddedRows(FieldsOf(refs), current, steps)
    ensures DistinctRefs(rows)
    ensures forall k :: 0 <= k < |rows| ==> rows[k] in refs || fresh(rows[k])
  {
    var pad: seq<RowRef> := [];
    while |refs| + |pad| < steps
      invariant |refs| + |pad| <= steps || pad == []
      invariant forall k :: 0 <= k < |pad| ==> fresh(pad[k]) && pad[k].fields == current
      invariant forall i, j :: 0 <= i < j < |pad| ==> pad[i] != pad[j]
      decreases steps - |refs| - |pad|
    {
      var copy := new RowRef(current);
      pad := pad + [copy];
    }
    if |refs| < steps {
      assert forall k, j :: 0 <= k < |pad| && 0 <= j < |refs| ==> pad[k] != refs[j];
      rows := pad + refs;
    } else {
      rows := refs[|refs| - steps..];
    }
    PaddedFields(refs, rows, current, steps);
  }

  /** The first `pad` positions hold one object; every later position holds
      an object found nowhere else. */
  predicate SharedPadding(rows: seq<RowRef>, pad: nat) {
    && pad <= |rows|
    && (forall a :: 0 <= a < pad ==> rows[a] == rows[0])
    && (forall a, b :: pad <= a < |rows| && 0 <= b < |rows| && a != b ==> rows[a] != rows[b])
  }

  /** In a list of distinct objects each position is the last of its object. */
  lemma LastBelowDistinct(rows: seq<RowRef>, k: nat)
    requires DistinctRefs(rows) && k < |rows|
    ensures InPrefix(rows, rows[k], |rows|) && LastBelow(rows, rows[k], |rows|) == k
  {
    assert InPrefix(rows, rows[k], |rows|);
  }

  /** With shared padding every padded position leads to the last padded one. */
  lemma LastBelowShared(rows: seq<RowRef>, pad: nat, k: nat)
    requires SharedPadding(rows, pad) && k < |rows|
    ensures InPrefix(rows, rows[k], |rows|)
    ensures LastBelow(rows, rows[k], |rows|) == if k < pad then pad - 1 else k
  {
    assert InPrefix(rows, rows[k], |rows|);
    if k < pad {
      assert rows[pad - 1] == rows[k];
    }
  }

  /** The flat rows of the shared-padding list, as the source leaves them. */
  function SharedPadInput(layout: Layout, rows: seq<Row>, current: Row, nowMin: Minute): seq<real>
    requires RowShape(current) && forall k :: 0 <= k < |rows| ==> RowShape(rows[k])
  {
    var sr := Padded(layout, rows, current);
    FlattenShaped(if layout.per == 6 then WithSharedPadHours(sr.rows, sr.pad, nowMin) else sr.rows, layout.per)
  }

  /** The flat rows with every step stamped with its own hour. */
  function StepInput(layout: Layout, rows: seq<Row>, current: Row, nowMin: Minute): seq<real>
    requires RowShape(current) && forall k :: 0 <= k < |rows| ==> RowShape(rows[k])
  {
    var sr := Padded(layout, rows, current);
    FlattenShaped(if layout.per == 6 then WithStepHours(sr.rows, nowMin) else sr.rows, layout.per)
  }

  lemma SameRows(a: seq<Row>, b: seq<Row>)
    requires |a| == |b| && forall k :: 0 <= k < |a| ==> a[k] == b[k]
    ensures a == b
  {
  }

  /** The hours `SetHours` leaves on shared padding. */
  lemma SharedHours(rows: seq<RowRef>, padded: seq<Row>, after: seq<Row>, pad: nat, nowMin: Minute)
    requires SharedPadding(rows, pad) && |padded| == |rows| && |after| == |rows|
    requires forall k :: 0 <= k < |rows| ==> RowShape(padded[k])
    requires forall k :: 0 <= k < |rows| ==>
               InPrefix(rows, rows[k], |rows|)
               && after[k] == padded[k]["hour" := StepHour(nowMin, |rows|, LastBelow(rows, rows[k], |rows|)) as real]
    ensures after == WithSharedPadHours(padded, pad, nowMin)
    ensures forall k :: 0 <= k < |after| ==> RowShape(after[k])
  {
    forall k | 0 <= k < |rows| ensures after[k] == WithSharedPadHours(padded, pad, nowMin)[k] {
      LastBelowShared(rows, pad, k);
    }
    SameRows(after, WithSharedPadHours(padded, pad, nowMin));
    forall k | 0 <= k < |rows| ensures RowShape(after[k]) {
      StampKeepsShape(padded[k], StepHour(nowMin, |rows|, if k < pad then pad - 1 else k) as real);
    }
  }

  /** The hours `SetHours` leaves on distinct rows. */
  lemma DistinctHours(rows: seq<RowRef>, padded: seq<Row>, after: seq<Row>, nowMin: Minute)
    requires DistinctRefs(rows) && |padded| == |rows| && |after| == |rows|
    requires forall k :: 0 <= k < |rows| ==> RowShape(padded[k])
    requires forall k :: 0 <= k < |rows| ==>
               InPrefix(rows, rows[k], |rows|)
               && after[k] == padded[k]["hour" := StepHour(nowMin, |rows|, LastBelow(rows, rows[k], |rows|)) as real]
    ensures after == WithStepHours(padded, nowMin)
    ensures forall k :: 0 <= k < |after| ==> RowShape(after[k])
  {
    forall k | 0 <= k < |rows| ensures after[k] == WithStepHours(padded, nowMin)[k] {
      LastBelowDistinct(rows, k);
    }
    SameRows(after, WithStepHours(padded, nowMin));
    forall k | 0 <= k < |rows| ensures RowShape(after[k]) {
      StampKeepsShape(padded[k], StepHour(nowMin, |rows|, k) as real);
    }
  }

  /** Stamping the hours on a list whose padding is one shared row. */
  method StampShared(rows: seq<RowRef>, ghost pad: nat, nowMin: Minute)
    requires SharedPadding(rows, pad)
    requires forall k :: 0 <= k < |rows| ==> RowShape(rows[k].fields)
    modifies set o | o in rows
    ensures FieldsOf(rows) == WithSharedPadHours(old(FieldsOf(rows)), pad, nowMin)
    ensures forall k :: 0 <= k < |rows| ==> RowShape(rows[k].fields)
  {
    ghost var padded := FieldsOf(rows);
    SetHours(rows, nowMin);
    forall k | 0 <= k < |rows| ensures InPrefix(rows, rows[k], |rows|) {
      LastBelowShared(rows, pad, k);
    }
    SharedHours(rows, padded, FieldsOf(rows), pad, nowMin);
  }

  /** Stamping the hours on a list of distinct rows. */
  method StampDistinct(rows: seq<RowRef>, nowMin: Minute)
    requires DistinctRefs(rows)
    requires forall k :: 0 <= k < |rows| ==> RowShape(rows[k].fields)
    modifies set o | o in rows
    ensures FieldsOf(rows) == WithStepHours(old(FieldsOf(rows)), nowMin)
    ensures forall k :: 0 <= k < |rows| ==> RowShape(rows[k].fields)
  {
    ghost var padded := FieldsOf(rows);
    SetHours(rows, nowMin);
    forall k | 0 <= k < |rows| ensures InPrefix(rows, rows[k], |rows|) {
      LastBelowDistinct(rows, k);
    }
    DistinctHours(rows, padded, FieldsOf(rows), nowMin);
  }

  /** Padding (one shared row object), stamping and flattening. */
  method StampSharedPadding(refs: seq<RowRef>, ghost before: seq<Row>, current: Row, layout: Layout, nowMin: Minute)
    returns (flat: seq<real>)
    requires DistinctRefs(refs) && FieldsOf(refs) == before
    requires RowShape(current) && forall k :: 0 <= k < |before| ==> RowShape(before[k])
    modifies set o | o in refs
    ensures flat == SharedPadInput(layout, before, current, nowMin)
  {
    ghost var sr := Padded(layout, before, current);
    var rows := PadShared(refs, current, layout.steps);
    if layout.per == 6 {
      StampShared(rows, sr.pad, nowMin);
    }
    flat := FlattenStepRows(rows, layout.per);
    SharedPadInputIs(layout, before, current, nowMin, FieldsOf(rows));
  }

  lemma SharedPadInputIs(layout: Layout, rows: seq<Row>, current: Row, nowMin: Minute, stamped: seq<Row>)
    requires RowShape(current) && forall k :: 0 <= k < |rows| ==> RowShape(rows[k])
    requires var sr := Padded(layout, rows, current);
             stamped == if layout.per == 6 then WithSharedPadHours(sr.rows, sr.pad, nowMin) else sr.rows
    ensures SharedPadInput(layout, rows, current, nowMin) == FlattenShaped(stamped, layout.per)
  {
  }

  /** Padding (a copy of the current row per padded step), stamping and
      flattening. */
  method StampCopiedPadding(refs: seq<RowRef>, ghost before: seq<Row>, current: Row, layout: Layout, nowMin: Minute)
    returns (flat: seq<real>)
    requires DistinctRefs(refs) && FieldsOf(refs) == before
    requires RowShape(current) && forall k :: 0 <= k < |before| ==> RowShape(before[k])
    modifies set o | o in refs
    ensures flat == StepInput(layout, before, current, nowMin)
  {
    var rows := PadCopies(refs, current, layout.steps);
    if layout.per == 6 {
      StampDistinct(rows, nowMin);
    }
    flat := FlattenStepRows(rows, layout.per);
    StepInputIs(layout, before, current, nowMin, FieldsOf(rows));
  }

  lemma StepInputIs(layout: Layout, rows: seq<Row>, current: Row, nowMin: Minute, stamped: seq<Row>)
    requires RowShape(current) && forall k :: 0 <= k < |rows| ==> RowShape(rows[k])
    requires var sr := Padded(layout, rows, current);
             stamped == if layout.per == 6 then WithStepHours(sr.rows, nowMin) else sr.rows
    ensures StepInput(layout, rows, current, nowMin) == FlattenShaped(stamped, layout.per)
  {
  }

  method BuildSingleStep(model: ModelInfo, state: Value, nowMin: Minute, meta: Meta) returns (r: Result<ForecastInput>)
    ensures r == SingleStepInput(model, state, nowMin, meta)
  {
    var row :- BuildRowFromState(state, nowMin / 60);
    var x :- MakeXSingleStepFor(model, row, meta);
    return Ok(SingleStep(x));
  }

  /** The multi-step part of the builder: collect the window's rows, build
      the current row, pad, stamp the hours and flatten. */
  method BuildSteps(layout: Layout, state: Value, nowMin: Minute, telemetry: Value, shared: bool)
    returns (r: Result<seq<real>>)
    ensures r == StepsInput(layout, state, nowMin, telemetry, shared)
  {
    var pts :- ExtractPoints(telemetry);
    r := BuildStepsFrom(layout, state, nowMin, pts, shared);
  }

  /** The step input from the telemetry points: the rows as fresh objects,
      the current row, then padding. */
  method BuildStepsFrom(layout: Layout, state: Value, nowMin: Minute, pts: seq<seq<Entry>>, shared: bool)
    returns (r: Result<seq<real>>)
    ensures r == StepsFromPoints(layout, state, nowMin, pts, shared)
  {
    var refs :- CollectRows(Window(pts, layout.steps), nowMin / 60);
    var current :- BuildRowFromState(state, nowMin / 60);
    ghost var before := FieldsOf(refs);
    var flat := StampPadding(refs, before, current, layout, nowMin, shared);
    StepsFromPointsOk(layout, state, nowMin, pts, shared, before, current);
    return Ok(flat);
  }

  /** Padding, stamping and flattening, with shared or copied padding. */
  method StampPadding(refs: seq<RowRef>, ghost before: seq<Row>, current: Row, layout: Layout, nowMin: Minute, shared: bool)
    returns (flat: seq<real>)
    requires DistinctRefs(refs) && FieldsOf(refs) == before
    requires RowShape(current) && forall k :: 0 <= k < |before| ==> RowShape(before[k])
    modifies set o | o in refs
    ensures flat == PadInput(layout, before, current, nowMin, shared)
  {
    if shared {
      flat := StampSharedPadding(refs, before, current, layout, nowMin);
    } else {
      flat := StampCopiedPadding(refs, before, current, layout, nowMin);
    }
  }

  /** The sequence input as the source builds it, padding with one shared
      row object. */
  method BuildXSequenceAsWritten(model: ModelInfo, state: Value, nowMin: Minute, meta: Meta, telemetry: Value)
    returns (r: Result<ForecastInput>)
    ensures r == ForecastInputAsWritten(model, state, nowMin, meta, telemetry)
  {
    if model.nFeatures.None? || model.nFeatures.value <= 6 {
      r := BuildSingleStep(model, state, nowMin, meta);
      return;
    }
    var layout :- LayoutFor(model.nFeatures.value);
    var flat :- BuildSteps(layout, state, nowMin, telemetry, true);
    return Ok(Flat(flat));
  }

  /** The sequence input with a separate copy of the current row for each
      padded step. */
  method BuildXSequenceForForecast(model: ModelInfo, state: Value, nowMin: Minute, meta: Meta, telemetry: Value)
    returns (r: Result<ForecastInput>)
    ensures r == ForecastInputFor(model, state, nowMin, meta, telemetry)
  {
    if model.nFeatures.None? || model.nFeatures.value <= 6 {
      r := BuildSingleStep(model, state, nowMin, meta);
      return;
    }
    var layout :- LayoutFor(model.nFeatures.value);
    var flat :- BuildSteps(layout, state, nowMin, telemetry, false);
    return Ok(Flat(flat));
  }

  /** Flattening rows that keep the dual-naming invariant. */
  method FlattenStepRows(rows: seq<RowRef>, per: nat) returns (flat: seq<real>)
    requires forall k :: 0 <= k < |rows| ==> RowShape(rows[k].fields)
    ensures flat == FlattenShaped(FieldsOf(rows), per)
  {
    forall k | 0 <= k < |rows| ensures forall c :: c in StepFeatures(per) ==> c in rows[k].fields {
      StepFeaturesInRow(per, rows[k].fields);
    }
    flat := FlattenSteps(rows, StepFeatures(per));
  }

  /** The sixth slot of each step of a flattened six-feature vector is that
      step's hour. */
  lemma HourSlots(rs: seq<Row>)
    requires forall k :: 0 <= k < |rs| ==> RowShape(rs[k])
    ensures |FlattenShaped(rs, 6)| == 6 * |rs|
    ensures forall k :: 0 <= k < |rs| ==> FlattenShaped(rs, 6)[k * 6 + 5] == rs[k]["hour"]
  {
    forall k | 0 <= k < |rs| { StepFeaturesInRow(6, rs[k]); }
    FlattenRowsLength(rs, MODEL_FEATURES_6);
    var flat := FlattenShaped(rs, 6);
    forall k | 0 <= k < |rs| ensures flat[k * 6 + 5] == rs[k]["hour"] {
      FlattenRowsLayout(rs, MODEL_FEATURES_6, k);
      assert flat[k * 6..(k + 1) * 6] == ValuesOf(MODEL_FEATURES_6, rs[k]);
      assert flat[k * 6 + 5] == flat[k * 6..(k + 1) * 6][5];
    }
  }

  /** In the corrected input every step carries its own hour in the sixth
      slot of that step, and the vector has one slot per model input. */
  lemma StepHoursInInput(layout: Layout, rows: seq<Row>, current: Row, nowMin: Minute)
    requires RowShape(current) && forall k :: 0 <= k < |rows| ==> RowShape(rows[k])
    requires layout.per == 6
    ensures |StepInput(layout, rows, current, nowMin)| == 6 * layout.steps
    ensures forall k :: 0 <= k < layout.steps ==>
              StepInput(layout, rows, current, nowMin)[k * 6 + 5] == StepHour(nowMin, layout.steps, k) as real
  {
    var sr := Padded(layout, rows, current);
    var stamped := WithStepHours(sr.rows, nowMin);
    forall k | 0 <= k < |stamped| ensures RowShape(stamped[k]) {
      StampKeepsShape(sr.rows[k], StepHour(nowMin, |sr.rows|, k) as real);
    }
    HourSlots(stamped);
  }

  /** As written, every padded step carries the hour of the last padded
      step. */
  lemma SharedPadHoursInInput(layout: Layout, rows: seq<Row>, current: Row, nowMin: Minute)
    requires RowShape(current) && forall k :: 0 <= k < |rows| ==> RowShape(rows[k])
    requires layout.per == 6 && |rows| < layout.steps
    ensures |SharedPadInput(layout, rows, current, nowMin)| == 6 * layout.steps
    ensures forall k :: 0 <= k < layout.steps - |rows| ==>
              SharedPadInput(layout, rows, current, nowMin)[k * 6 + 5]
              == StepHour(nowMin, layout.steps, layout.steps - |rows| - 1) as real
  {
    var sr := Padded(layout, rows, current);
    var stamped := WithSharedPadHours(sr.rows, sr.pad, nowMin);
    forall k | 0 <= k < |stamped| ensures RowShape(stamped[k]) {
      StampKeepsShape(sr.rows[k], StepHour(nowMin, |sr.rows|, if k < sr.pad then sr.pad - 1 else k) as real);
    }
    assert sr.pad == layout.steps - |rows|;
    HourSlots(stamped);
    var flat := SharedPadInput(layout, rows, current, nowMin);
    assert flat == FlattenShaped(stamped, 6);
    forall k | 0 <= k < sr.pad
      ensures flat[k * 6 + 5] == StepHour(nowMin, layout.steps, sr.pad - 1) as real
    {
      assert flat[k * 6 + 5] == stamped[k]["hour"];
      assert stamped[k] == sr.rows[k]["hour" := StepHour(nowMin, |sr.rows|, sr.pad - 1) as real];
    }
  }

  /** The last step of the input is always stamped with the current hour. */
  lemma LastStepIsNow(layout: Layout, rows: seq<Row>, current: Row, nowMin: Minute)
    requires RowShape(current) && forall k :: 0 <= k < |rows| ==> RowShape(rows[k])
    requires layout.per == 6 && layout.steps > 0
    ensures |StepInput(layout, rows, current, nowMin)| == 6 * layout.steps
    ensures StepInput(layout, rows, current, nowMin)[6 * layout.steps - 1] == (nowMin / 60) as real
  {
    StepHoursInInput(layout, rows, current, nowMin);
    assert (layout.steps - 1) * 6 + 5 == 6 * layout.steps - 1;
  }

  /** As written, too, the last step is stamped with the current hour. */
  lemma SharedPadLastStepIsNow(layout: Layout, rows: seq<Row>, current: Row, nowMin: Minute)
    requires RowShape(current) && forall k :: 0 <= k < |rows| ==> RowShape(rows[k])
    requires layout.per == 6 && layout.steps > 0
    ensures |SharedPadInput(layout, rows, current, nowMin)| == 6 * layout.steps
    ensures SharedPadInput(layout, rows, current, nowMin)[6 * layout.steps - 1] == (nowMin / 60) as real
  {
    var sr := Padded(layout, rows, current);
    var stamped := WithSharedPadHours(sr.rows, sr.pad, nowMin);
    forall k | 0 <= k < |stamped| ensures RowShape(stamped[k]) {
      StampKeepsShape(sr.rows[k], StepHour(nowMin, |sr.rows|, if k < sr.pad then sr.pad - 1 else k) as real);
    }
    HourSlots(stamped);
    var last := layout.steps - 1;
    assert last * 6 + 5 == 6 * layout.steps - 1;
    assert stamped[last]["hour"] == StepHour(nowMin, layout.steps, last) as real;
  }

  /** The shared padding row only goes wrong through the hour stamp: with
      five features per step the two builders give the same input. */
  lemma FivePerStepUnaffected(layout: Layout, rows: seq<Row>, current: Row, nowMin: Minute)
    requires RowShape(current) && forall k :: 0 <= k < |rows| ==> RowShape(rows[k])
    requires layout.per == 5
    ensures SharedPadInput(layout, rows, current, nowMin) == StepInput(layout, rows, current, nowMin)
  {
  }

  /** Two padded steps of six at 01:00: the first step should be stamped 0
      (00:50); as written it is stamped 1. */
  lemma TwoPaddedStepsAtOne(current: Row)
    requires RowShape(current)
    ensures |SharedPadInput(Layout(6, 2), [], current, 60)| == 12
    ensures SharedPadInput(Layout(6, 2), [], current, 60)[5] == 1.0
    ensures |StepInput(Layout(6, 2), [], current, 60)| == 12
    ensures StepInput(Layout(6, 2), [], current, 60)[5] == 0.0
  {
    assert StepHour(60, 2, 0) == 0;
    assert StepHour(60, 2, 1) == 1;
    FirstOfTwoPaddedSteps(Layout(6, 2), current, 60);
  }

  /** With no telemetry and two steps of six, the first step's hour slot
      holds, as written, the second step's hour and, corrected, its own. */
  lemma FirstOfTwoPaddedSteps(layout: Layout, current: Row, nowMin: Minute)
    requires RowShape(current)
    requires layout.per == 6 && layout.steps == 2
    ensures |SharedPadInput(layout, [], current, nowMin)| == 12
    ensures SharedPadInput(layout, [], current, nowMin)[5] == StepHour(nowMin, 2, 1) as real
    ensures |StepInput(layout, [], current, nowMin)| == 12
    ensures StepInput(layout, [], current, nowMin)[5] == StepHour(nowMin, 2, 0) as real
  {
    SharedPadHoursInInput(layout, [], current, nowMin);
    assert SharedPadInput(layout, [], current, nowMin)[0 * 6 + 5] == StepHour(nowMin, 2, 1) as real;
    StepHoursInInput(layout, [], current, nowMin);
    assert StepInput(layout, [], current, nowMin)[0 * 6 + 5] == StepHour(nowMin, 2, 0) as real;
  }

  /** The builders on a model of twelve inputs with no telemetry at 01:00. */
  lemma TwelveInputsNoTelemetry(state: Value)
    requires BuildRowFromState(state, 1).Ok?
    ensures ForecastInputAsWritten(ModelInfo(None, Some(12)), state, 60, map[], Null)
            == Ok(Flat(SharedPadInput(Layout(6, 2), [], BuildRowFromState(state, 1).value, 60)))
    ensures ForecastInputFor(ModelInfo(None, Some(12)), state, 60, map[], Null)
            == Ok(Flat(StepInput(Layout(6, 2), [], BuildRowFromState(state, 1).value, 60)))
  {
    assert LayoutFor(12) == Ok(Layout(6, 2));
    assert ExtractPoints(Null) == Ok([]);
    assert Window<seq<Entry>>([], 2) == [];
    assert NormalizedRows([], 1) == Ok([]);
  }

  /** A model of twelve inputs (two steps of six) and no telemetry, at 01:00:
      both steps are padding, and as written the first one is stamped 1
      instead of 0 (00:50). */
  lemma SharedPaddingHourExample(state: Value)
    requires BuildRowFromState(state, 1).Ok?
    ensures var r := ForecastInputAsWritten(ModelInfo(None, Some(12)), state, 60, map[], Null);
            r.Ok? && r.value.Flat? && |r.value.values| == 12 && r.value.values[5] == 1.0
    ensures var r := ForecastInputFor(ModelInfo(None, Some(12)), state, 60, map[], Null);
            r.Ok? && r.value.Flat? && |r.value.values| == 12 && r.value.values[5] == 0.0
  {
    TwelveInputsNoTelemetry(state);
    TwoPaddedStepsAtOne(BuildRowFromState(state, 1).value);
  }
}
