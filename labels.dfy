/** The rule-based labelers: fixed threshold bands for tomatoes grown
    indoors, the same bands the client application shows. */
module Labels {
  import opened Base

  /** A float as the labelers receive it; `NaN` stands for a missing reading
      (`float("nan")`), the only NaN the worker produces. */
  datatype Reading = NaN | Num(x: real)

  const SUHU_BANDS: seq<string> := ["Dingin", "Sejuk", "Optimal", "Hangat", "Panas", "Bahaya panas"]
  const RH_BANDS: seq<string> :=
    ["Terlalu kering", "Agak kering", "Optimal", "Terlalu lembap", "Sangat lembap (risiko jamur)"]
  const SOIL_BANDS: seq<string> :=
    ["Kering (butuh air)", "Agak kering", "Optimal", "Basah (kurangi air)", "Terlalu basah (risiko busuk akar)"]
  const LUX_BANDS: seq<string> := ["Rendah", "Sedang", "Tinggi", "Sangat tinggi"]
  const UV_BANDS: seq<string> := ["Rendah", "Sedang", "Tinggi", "Sangat tinggi", "Ekstrem"]

  /** Air temperature band (degrees Celsius). */
  function SuhuKet(t: Reading): (r: string)
    ensures r == "-" <==> t.NaN?
    ensures t.Num? ==> r in SUHU_BANDS
    ensures t.Num? ==> (r == "Dingin" <==> t.x < 13.0)
    ensures t.Num? ==> (r == "Sejuk" <==> 13.0 <= t.x < 18.0)
    ensures t.Num? ==> (r == "Optimal" <==> 18.0 <= t.x <= 27.0)
    ensures t.Num? ==> (r == "Hangat" <==> 27.0 < t.x <= 30.0)
    ensures t.Num? ==> (r == "Panas" <==> 30.0 < t.x <= 33.0)
    ensures t.Num? ==> (r == "Bahaya panas" <==> 33.0 < t.x)
  {
    match t
    case NaN => "-"
    case Num(x) =>
      if x < 13.0 then "Dingin"
      else if x < 18.0 then "Sejuk"
      else if x <= 27.0 then "Optimal"
      else if x <= 30.0 then "Hangat"
      else if x <= 33.0 then "Panas"
      else "Bahaya panas"
  }

  /** Relative air humidity band (percent). */
  function RhKet(rh: Reading): (r: string)
    ensures r == "-" <==> rh.NaN?
    ensures rh.Num? ==> r in RH_BANDS
    ensures rh.Num? ==> (r == "Terlalu kering" <==> rh.x < 40.0)
    ensures rh.Num? ==> (r == "Agak kering" <==> 40.0 <= rh.x < 55.0)
    ensures rh.Num? ==> (r == "Optimal" <==> 55.0 <= rh.x <= 75.0)
    ensures rh.Num? ==> (r == "Terlalu lembap" <==> 75.0 < rh.x <= 85.0)
    ensures rh.Num? ==> (r == "Sangat lembap (risiko jamur)" <==> 85.0 < rh.x)
  {
    match rh
    case NaN => "-"
    case Num(x) =>
      if x < 40.0 then "Terlalu kering"
      else if x < 55.0 then "Agak kering"
      else if x <= 75.0 then "Optimal"
      else if x <= 85.0 then "Terlalu lembap"
      else "Sangat lembap (risiko jamur)"
  }

  /** Soil moisture band (percent). */
  function SoilKet(sm: Reading): (r: string)
    ensures r == "-" <==> sm.NaN?
    ensures sm.Num? ==> r in SOIL_BANDS
    ensures sm.Num? ==> (r == "Kering (butuh air)" <==> sm.x < 30.0)
    ensures sm.Num? ==> (r == "Agak kering" <==> 30.0 <= sm.x < 40.0)
    ensures sm.Num? ==> (r == "Optimal" <==> 40.0 <= sm.x <= 70.0)
    ensures sm.Num? ==> (r == "Basah (kurangi air)" <==> 70.0 < sm.x <= 85.0)
    ensures sm.Num? ==> (r == "Terlalu basah (risiko busuk akar)" <==> 85.0 < sm.x)
  {
    match sm
    case NaN => "-"
    case Num(x) =>
      if x < 30.0 then "Kering (butuh air)"
      else if x < 40.0 then "Agak kering"
      else if x <= 70.0 then "Optimal"
      else if x <= 85.0 then "Basah (kurangi air)"
      else "Terlalu basah (risiko busuk akar)"
  }

  /** Illuminance band (lux). */
  function LuxKet(lux: Reading): (r: string)
    ensures r == "-" <==> lux.NaN?
    ensures lux.Num? ==> r in LUX_BANDS
    ensures lux.Num? ==> (r == "Rendah" <==> lux.x < 200.0)
    ensures lux.Num? ==> (r == "Sedang" <==> 200.0 <= lux.x < 600.0)
    ensures lux.Num? ==> (r == "Tinggi" <==> 600.0 <= lux.x < 900.0)
    ensures lux.Num? ==> (r == "Sangat tinggi" <==> 900.0 <= lux.x)
  {
    match lux
    case NaN => "-"
    case Num(x) =>
      if x < 200.0 then "Rendah"
      else if x < 600.0 then "Sedang"
      else if x < 900.0 then "Tinggi"
      else "Sangat tinggi"
  }

  /** UV index band. */
  function UvKet(uv: Reading): (r: string)
    ensures r == "-" <==> uv.NaN?
    ensures uv.Num? ==> r in UV_BANDS
    ensures uv.Num? ==> (r == "Rendah" <==> uv.x <= 2.0)
    ensures uv.Num? ==> (r == "Sedang" <==> 2.0 < uv.x <= 5.0)
    ensures uv.Num? ==> (r == "Tinggi" <==> 5.0 < uv.x <= 7.0)
    ensures uv.Num? ==> (r == "Sangat tinggi" <==> 7.0 < uv.x <= 10.0)
    ensures uv.Num? ==> (r == "Ekstrem" <==> 10.0 < uv.x)
  {
    match uv
    case NaN => "-"
    case Num(x) =>
      if x <= 2.0 then "Rendah"
      else if x <= 5.0 then "Sedang"
      else if x <= 7.0 then "Tinggi"
      else if x <= 10.0 then "Sangat tinggi"
      else "Ekstrem"
  }

  /** Position of a label in its band list (the list's length if absent). */
  function Rank(bands: seq<string>, name: string): (k: nat)
    ensures k <= |bands|
    ensures k < |bands| ==> bands[k] == name
    ensures forall j :: 0 <= j < k ==> bands[j] != name
  {
    if bands == [] then 0
    else if bands[0] == name then 0
    else 1 + Rank(bands[1..], name)
  }

  /** Band names within one labeler are distinct. */
  predicate Distinct(bands: seq<string>) {
    forall i, j :: 0 <= i < j < |bands| ==> bands[i] != bands[j]
  }

  lemma {:induction false} RankOfBand(bands: seq<string>, i: nat)
    requires Distinct(bands) && i < |bands|
    ensures Rank(bands, bands[i]) == i
  {
    if i > 0 {
      assert bands[1..][i - 1] == bands[i];
      RankOfBand(bands[1..], i - 1);
    }
  }

  lemma SuhuDistinct() ensures Distinct(SUHU_BANDS) {}
  lemma RhDistinct() ensures Distinct(RH_BANDS) {}
  lemma SoilDistinct() ensures Distinct(SOIL_BANDS) {}
  lemma LuxDistinct() ensures Distinct(LUX_BANDS) {}
  lemma UvDistinct() ensures Distinct(UV_BANDS) {}

  /** The bands of a labeler follow each other along the number line: a larger
      reading never gets an earlier band. */
  lemma SuhuMonotone(a: real, b: real)
    requires a <= b
    ensures Rank(SUHU_BANDS, SuhuKet(Num(a))) <= Rank(SUHU_BANDS, SuhuKet(Num(b)))
  {
    SuhuDistinct();
    RankOfBand(SUHU_BANDS, 0);
    RankOfBand(SUHU_BANDS, 1);
    RankOfBand(SUHU_BANDS, 2);
    RankOfBand(SUHU_BANDS, 3);
    RankOfBand(SUHU_BANDS, 4);
    RankOfBand(SUHU_BANDS, 5);
  }

  lemma RhMonotone(a: real, b: real)
    requires a <= b
    ensures Rank(RH_BANDS, RhKet(Num(a))) <= Rank(RH_BANDS, RhKet(Num(b)))
  {
    RhDistinct();
    RankOfBand(RH_BANDS, 0);
    RankOfBand(RH_BANDS, 1);
    RankOfBand(RH_BANDS, 2);
    RankOfBand(RH_BANDS, 3);
    RankOfBand(RH_BANDS, 4);
  }

  lemma SoilMonotone(a: real, b: real)
    requires a <= b
    ensures Rank(SOIL_BANDS, SoilKet(Num(a))) <= Rank(SOIL_BANDS, SoilKet(Num(b)))
  {
    SoilDistinct();
    RankOfBand(SOIL_BANDS, 0);
    RankOfBand(SOIL_BANDS, 1);
    RankOfBand(SOIL_BANDS, 2);
    RankOfBand(SOIL_BANDS, 3);
    RankOfBand(SOIL_BANDS, 4);
  }

  lemma LuxMonotone(a: real, b: real)
    requires a <= b
    ensures Rank(LUX_BANDS, LuxKet(Num(a))) <= Rank(LUX_BANDS, LuxKet(Num(b)))
  {
    LuxDistinct();
    RankOfBand(LUX_BANDS, 0);
    RankOfBand(LUX_BANDS, 1);
    RankOfBand(LUX_BANDS, 2);
    RankOfBand(LUX_BANDS, 3);
  }

  lemma UvMonotone(a: real, b: real)
    requires a <= b
    ensures Rank(UV_BANDS, UvKet(Num(a))) <= Rank(UV_BANDS, UvKet(Num(b)))
  {
    UvDistinct();
    RankOfBand(UV_BANDS, 0);
    RankOfBand(UV_BANDS, 1);
    RankOfBand(UV_BANDS, 2);
    RankOfBand(UV_BANDS, 3);
    RankOfBand(UV_BANDS, 4);
  }

  /** A reading of the row, NaN when the key is missing
      (`float(row.get(k, float("nan")))`). */
  function FieldReading(row: Row, k: string): Reading {
    if k in row then Num(row[k]) else NaN
  }

  /** The five rule labels of a feature row. */
  function RuleLabelsFromRow(row: Row): (labels: map<string, string>)
    ensures labels.Keys == {"label_suhu", "label_rh", "label_soil", "label_lux", "label_uv"}
    ensures labels["label_suhu"] == "-" <==> "tempC" !in row
    ensures labels["label_rh"] == "-" <==> "humRH" !in row
    ensures labels["label_soil"] == "-" <==> "soil_percent" !in row
    ensures labels["label_uv"] == "-" <==> "uv_uvi" !in row
    ensures labels["label_lux"] != "-"
    ensures "tempC" in row ==> labels["label_suhu"] == SuhuKet(Num(row["tempC"]))
    ensures "humRH" in row ==> labels["label_rh"] == RhKet(Num(row["humRH"]))
    ensures "soil_percent" in row ==> labels["label_soil"] == SoilKet(Num(row["soil_percent"]))
    ensures "uv_uvi" in row ==> labels["label_uv"] == UvKet(Num(row["uv_uvi"]))
    ensures "light_intensity_lux" in row ==>
              labels["label_lux"] == LuxKet(Num(row["light_intensity_lux"]))
    ensures "light_intensity_lux" !in row ==>
              labels["label_lux"] ==
              LuxKet(Num((if "light_percent" in row then row["light_percent"] else 0.0) * 10.0))
  {
    var lux :=
      if "light_intensity_lux" in row then row["light_intensity_lux"]
      else (if "light_percent" in row then row["light_percent"] else 0.0) * 10.0;
    map[
      "label_suhu" := SuhuKet(FieldReading(row, "tempC")),
      "label_rh" := RhKet(FieldReading(row, "humRH")),
      "label_soil" := SoilKet(FieldReading(row, "soil_percent")),
      "label_lux" := LuxKet(Num(lux)),
      "label_uv" := UvKet(FieldReading(row, "uv_uvi"))
    ]
  }
}
