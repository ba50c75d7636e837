/** The feature row: one reading of the device under both column naming
    schemes, built from the device state or from a telemetry point. */
module Rows {
  import opened Base
  import opened Config

  /** The physical quantities of one reading; the row is its flat view. */
  datatype Sample = Sample(soil: real, temp: real, hum: real, lightPercent: real, lux: real, uv: real, hour: int)

  /** Every key a feature row carries: the device names, `hour` and the training names. */
  const ROW_KEYS: set<string> := {
    "soil_percent", "tempC", "humRH", "light_percent", "uv_uvi", "hour",
    "soil_moisture_pct", "air_temperature_c", "air_humidity_pct", "light_intensity_lux", "uv_index"
  }

  /** The dual-naming invariant: every key of both schemes is present and the
      mirrored quantities agree (lux is the one quantity that is not mirrored:
      the device reports a percentage, the training data lux). */
  predicate RowShape(row: Row) {
    && ROW_KEYS <= row.Keys
    && row["soil_moisture_pct"] == row["soil_percent"]
    && row["air_temperature_c"] == row["tempC"]
    && row["air_humidity_pct"] == row["humRH"]
    && row["uv_index"] == row["uv_uvi"]
  }

  /** The row layout shared by the state builder and both point normalisers. */
  function RowOf(s: Sample): (row: Row)
    ensures RowShape(row) && row.Keys == ROW_KEYS
    ensures row["soil_percent"] == s.soil && row["tempC"] == s.temp && row["humRH"] == s.hum
    ensures row["light_percent"] == s.lightPercent && row["uv_uvi"] == s.uv
    ensures row["light_intensity_lux"] == s.lux && row["hour"] == s.hour as real
  {
    map[
      "soil_percent" := s.soil,
      "tempC" := s.temp,
      "humRH" := s.hum,
      "light_percent" := s.lightPercent,
      "uv_uvi" := s.uv,
      "hour" := s.hour as real,
      "soil_moisture_pct" := s.soil,
      "air_temperature_c" := s.temp,
      "air_humidity_pct" := s.hum,
      "light_intensity_lux" := s.lux,
      "uv_index" := s.uv
    ]
  }

  /** Reads the physical quantities back from a row (the hour rounded down). */
  function SampleOf(row: Row): Sample
    requires RowShape(row)
  {
    Sample(row["soil_percent"], row["tempC"], row["humRH"], row["light_percent"],
           row["light_intensity_lux"], row["uv_uvi"], row["hour"].Floor)
  }

  /** The flat row loses nothing: the sample is recovered from it. */
  lemma SampleRoundTrip(s: Sample)
    ensures SampleOf(RowOf(s)) == s
  {
  }

  /** `d.get(k, dflt)` on the entries of a dict. */
  function LookupOr(d: seq<(string, Value)>, k: string, dflt: Value): Value {
    match Lookup(d, k) case Some(v) => v case None => dflt
  }

  /** `v or {}`. */
  function OrEmpty(v: Value): Value {
    if Truthy(v) then v else Dict([])
  }

  /** The lux estimate from a light percentage (0-100 % to 0-1000 lux), or 0.0
      when the percentage is not a number. */
  function LuxFallback(lightPercent: Value): real {
    match ToFloat(lightPercent)
    case Ok(f) => f * 10.0
    case Err(_) => 0.0
  }

  /** The value at `state[group][key]`, or `dflt` wherever the path is absent
      or does not pass through dicts. */
  function LeafOr(state: Value, group: string, key: string, dflt: Value): Value {
    if state.Dict? then
      var g := OrEmpty(LookupOr(state.entries, group, Dict([])));
      if g.Dict? then LookupOr(g.entries, key, dflt) else dflt
    else dflt
  }

  /** Python's None at the end of a path (absent or stored as null). */
  function Leaf(state: Value, group: string, key: string): Value {
    LeafOr(state, group, key, Null)
  }

  /** The six raw readings of a state, as the builder looks them up. */
  datatype StateFields = StateFields(soil: Value, temp: Value, hum: Value, lightPercent: Value, lux: Value, uvi: Value)

  function ReadStateFields(state: Value): (r: Result<StateFields>)
    ensures r.Ok? ==>
              && r.value.soil == Leaf(state, "soil", "percent")
              && r.value.temp == Leaf(state, "env", "tempC")
              && r.value.hum == Leaf(state, "env", "humRH")
              && r.value.lightPercent == LeafOr(state, "light", "percent", Int(0))
              && r.value.lux == Leaf(state, "light", "lux")
              && r.value.uvi == LeafOr(state, "uv", "uvi", Float(0.0))
  {
    if !state.Dict? then Err(NotADict)
    else
      var d := state.entries;
      var soilObj := LookupOr(d, "soil", Dict([]));
      var envObj := LookupOr(d, "env", Dict([]));
      var lightObj := OrEmpty(LookupOr(d, "light", Dict([])));
      var uvObj := OrEmpty(LookupOr(d, "uv", Dict([])));
      if !soilObj.Dict? || !envObj.Dict? || !lightObj.Dict? || !uvObj.Dict? then Err(NotADict)
      else
        Ok(StateFields(
          LookupOr(soilObj.entries, "percent", Null),
          LookupOr(envObj.entries, "tempC", Null),
          LookupOr(envObj.entries, "humRH", Null),
          LookupOr(lightObj.entries, "percent", Int(0)),
          LookupOr(lightObj.entries, "lux", Null),
          LookupOr(uvObj.entries, "uvi", Float(0.0))))
  }

  /** The feature row of the device state at the given hour. */
  function BuildRowFromState(state: Value, hour: Hour): (r: Result<Row>)
    ensures r.Ok? ==> RowShape(r.value) && r.value["hour"] == hour as real
    ensures r.Ok? ==>
              Leaf(state, "soil", "percent") != Null && Leaf(state, "env", "tempC") != Null
              && Leaf(state, "env", "humRH") != Null
    ensures r.Ok? ==> ToFloat(Leaf(state, "soil", "percent")) == Ok(r.value["soil_percent"])
    ensures r.Ok? ==> ToFloat(Leaf(state, "env", "tempC")) == Ok(r.value["tempC"])
    ensures r.Ok? ==> ToFloat(Leaf(state, "env", "humRH")) == Ok(r.value["humRH"])
    ensures r.Ok? ==> ToFloat(LeafOr(state, "light", "percent", Int(0))) == Ok(r.value["light_percent"])
    ensures r.Ok? ==> ToFloat(LeafOr(state, "uv", "uvi", Float(0.0))) == Ok(r.value["uv_uvi"])
    ensures r.Ok? && Leaf(state, "light", "lux") == Null ==>
              r.value["light_intensity_lux"] == r.value["light_percent"] * 10.0
    ensures r.Ok? && Leaf(state, "light", "lux") != Null ==>
              ToFloat(Leaf(state, "light", "lux")) == Ok(r.value["light_intensity_lux"])
  {
    var f :- ReadStateFields(state);
    if f.soil == Null || f.temp == Null || f.hum == Null then Err(StateIncomplete)
    else
      var s :- ToFloat(f.soil);
      var t :- ToFloat(f.temp);
      var h :- ToFloat(f.hum);
      var lp :- ToFloat(f.lightPercent);
      var u :- ToFloat(f.uvi);
      var lx :- ToFloat(if f.lux == Null then Float(LuxFallback(f.lightPercent)) else f.lux);
      Ok(RowOf(Sample(s, t, h, lp, lx, u, hour)))
  }

  predicate Numeric(v: Value) {
    v.Bool? || v.Int? || v.Float?
  }

  /** A state whose groups are dicts and whose readings are numbers or null:
      the shape the device writes. */
  predicate WellFormedState(state: Value) {
    && state.Dict?
    && (HasKey(state.entries, "soil") ==> Lookup(state.entries, "soil").value.Dict?)
    && (HasKey(state.entries, "env") ==> Lookup(state.entries, "env").value.Dict?)
    && (HasKey(state.entries, "light") ==> Lookup(state.entries, "light").value.Dict?)
    && (HasKey(state.entries, "uv") ==> Lookup(state.entries, "uv").value.Dict?)
    && (Leaf(state, "soil", "percent") == Null || Numeric(Leaf(state, "soil", "percent")))
    && (Leaf(state, "env", "tempC") == Null || Numeric(Leaf(state, "env", "tempC")))
    && (Leaf(state, "env", "humRH") == Null || Numeric(Leaf(state, "env", "humRH")))
    && (Leaf(state, "light", "lux") == Null || Numeric(Leaf(state, "light", "lux")))
    && Numeric(LeafOr(state, "light", "percent", Int(0)))
    && Numeric(LeafOr(state, "uv", "uvi", Float(0.0)))
  }

  /** On a well-formed state the builder fails exactly when soil moisture,
      temperature or humidity is missing. */
  lemma BuildRowFailsIffIncomplete(state: Value, hour: Hour)
    requires WellFormedState(state)
    ensures BuildRowFromState(state, hour).Err? <==>
              (Leaf(state, "soil", "percent") == Null || Leaf(state, "env", "tempC") == Null
               || Leaf(state, "env", "humRH") == Null)
  {
  }

  /** The point carries every device name of `FEATURES_5`. */
  predicate DevicePoint(d: seq<(string, Value)>) {
    HasKey(d, "soil_percent") && HasKey(d, "tempC") && HasKey(d, "humRH")
    && HasKey(d, "light_percent") && HasKey(d, "uv_uvi")
  }

  /** The point carries every training name of `MODEL_FEATURES_5`. */
  predicate TrainingPoint(d: seq<(string, Value)>) {
    HasKey(d, "soil_moisture_pct") && HasKey(d, "air_temperature_c") && HasKey(d, "air_humidity_pct")
    && HasKey(d, "light_intensity_lux") && HasKey(d, "uv_index")
  }

  /** Every conversion the device reading makes succeeds. */
  predicate DeviceConvertible(p: seq<(string, Value)>, hour: Hour)
    requires DevicePoint(p)
  {
    && ToFloat(Lookup(p, "soil_percent").value).Ok? && ToFloat(Lookup(p, "tempC").value).Ok?
    && ToFloat(Lookup(p, "humRH").value).Ok? && ToFloat(Lookup(p, "light_percent").value).Ok?
    && ToFloat(Lookup(p, "uv_uvi").value).Ok? && ToInt(LookupOr(p, "hour", Int(hour))).Ok?
    && (HasKey(p, "light_intensity_lux") ==> ToFloat(Lookup(p, "light_intensity_lux").value).Ok?)
  }

  /** Every conversion the training reading makes succeeds. */
  predicate TrainingConvertible(p: seq<(string, Value)>, hour: Hour)
    requires TrainingPoint(p)
  {
    && ToFloat(Lookup(p, "soil_moisture_pct").value).Ok? && ToFloat(Lookup(p, "air_temperature_c").value).Ok?
    && ToFloat(Lookup(p, "air_humidity_pct").value).Ok? && ToFloat(Lookup(p, "light_intensity_lux").value).Ok?
    && ToFloat(Lookup(p, "uv_index").value).Ok? && ToInt(LookupOr(p, "hour", Int(hour))).Ok?
    && (HasKey(p, "light_percent") ==> ToFloat(Lookup(p, "light_percent").value).Ok?)
  }

  /** The row of a telemetry point stored under the device names. */
  function FromDevicePoint(p: seq<(string, Value)>, hour: Hour): (r: Result<Row>)
    requires DevicePoint(p)
    ensures r.Ok? <==> DeviceConvertible(p, hour)
    ensures r.Ok? ==> RowShape(r.value)
    ensures r.Ok? && HasKey(p, "light_intensity_lux") ==>
              ToFloat(Lookup(p, "light_intensity_lux").value) == Ok(r.value["light_intensity_lux"])
  {
    var soil :- ToFloat(Lookup(p, "soil_percent").value);
    var temp :- ToFloat(Lookup(p, "tempC").value);
    var hum :- ToFloat(Lookup(p, "humRH").value);
    var lp :- ToFloat(Lookup(p, "light_percent").value);
    var uv :- ToFloat(Lookup(p, "uv_uvi").value);
    var hr :- ToInt(LookupOr(p, "hour", Int(hour)));
    var lux :- if HasKey(p, "light_intensity_lux") then ToFloat(Lookup(p, "light_intensity_lux").value)
               else Ok(lp * 10.0);
    Ok(RowOf(Sample(soil, temp, hum, lp, lux, uv, hr)))
  }

  /** The row of a telemetry point stored under the training names. */
  function FromTrainingPoint(p: seq<(string, Value)>, hour: Hour): (r: Result<Row>)
    requires TrainingPoint(p)
    ensures r.Ok? <==> TrainingConvertible(p, hour)
    ensures r.Ok? ==> RowShape(r.value)
    ensures r.Ok? && HasKey(p, "light_percent") ==>
              ToFloat(Lookup(p, "light_percent").value) == Ok(r.value["light_percent"])
  {
    var soil :- ToFloat(Lookup(p, "soil_moisture_pct").value);
    var temp :- ToFloat(Lookup(p, "air_temperature_c").value);
    var hum :- ToFloat(Lookup(p, "air_humidity_pct").value);
    var lux :- ToFloat(Lookup(p, "light_intensity_lux").value);
    var uv :- ToFloat(Lookup(p, "uv_index").value);
    var hr :- ToInt(LookupOr(p, "hour", Int(hour)));
    var lp :- if HasKey(p, "light_percent") then ToFloat(Lookup(p, "light_percent").value)
              else Ok(lux / 10.0);
    Ok(RowOf(Sample(soil, temp, hum, lp, lux, uv, hr)))
  }

  /** A telemetry point as a feature row under both schemes. A point carrying
      all device names is read by them; otherwise one carrying all training
      names by those; otherwise it is read as a nested state, and skipped
      (None) when that fails. Only the first two readings can raise. */
  function NormalizePoint(p: seq<(string, Value)>, hour: Hour): (r: Result<Option<Row>>)
    ensures r.Ok? && r.value.Some? ==> RowShape(r.value.value)
    ensures r.Err? ==> DevicePoint(p) || TrainingPoint(p)
  {
    if DevicePoint(p) then
      var row :- FromDevicePoint(p, hour);
      Ok(Some(row))
    else if TrainingPoint(p) then
      var row :- FromTrainingPoint(p, hour);
      Ok(Some(row))
    else
      match BuildRowFromState(Dict(p), hour)
      case Ok(row) => Ok(Some(row))
      case Err(_) => Ok(None)
  }

  /** What each reading promises: a device or training point is read
      exactly when all its conversions succeed, into a row holding the
      converted values (the light value the point lacks derived from the one
      it has); a point of neither kind never raises and is read as a nested
      state when that reading succeeds. */
  lemma NormalizePointSpec(p: seq<(string, Value)>, hour: Hour)
    ensures var r := NormalizePoint(p, hour);
            DevicePoint(p) ==> (r.Ok? <==> DeviceConvertible(p, hour))
    ensures var r := NormalizePoint(p, hour);
            !DevicePoint(p) && TrainingPoint(p) ==> (r.Ok? <==> TrainingConvertible(p, hour))
    ensures var r := NormalizePoint(p, hour);
            DevicePoint(p) && r.Ok? ==>
              && r.value.Some?
              && ToFloat(Lookup(p, "soil_percent").value) == Ok(r.value.value["soil_percent"])
              && ToFloat(Lookup(p, "tempC").value) == Ok(r.value.value["tempC"])
              && ToFloat(Lookup(p, "humRH").value) == Ok(r.value.value["humRH"])
              && ToFloat(Lookup(p, "light_percent").value) == Ok(r.value.value["light_percent"])
              && ToFloat(Lookup(p, "uv_uvi").value) == Ok(r.value.value["uv_uvi"])
              && (!HasKey(p, "light_intensity_lux") ==>
                    r.value.value["light_intensity_lux"] == r.value.value["light_percent"] * 10.0)
              && (HasKey(p, "light_intensity_lux") ==>
                    ToFloat(Lookup(p, "light_intensity_lux").value) == Ok(r.value.value["light_intensity_lux"]))
    ensures var r := NormalizePoint(p, hour);
            !DevicePoint(p) && TrainingPoint(p) && r.Ok? ==>
              && r.value.Some?
              && ToFloat(Lookup(p, "soil_moisture_pct").value) == Ok(r.value.value["soil_moisture_pct"])
              && ToFloat(Lookup(p, "air_temperature_c").value) == Ok(r.value.value["air_temperature_c"])
              && ToFloat(Lookup(p, "air_humidity_pct").value) == Ok(r.value.value["air_humidity_pct"])
              && ToFloat(Lookup(p, "light_intensity_lux").value) == Ok(r.value.value["light_intensity_lux"])
              && ToFloat(Lookup(p, "uv_index").value) == Ok(r.value.value["uv_index"])
              && (!HasKey(p, "light_percent") ==>
                    r.value.value["light_percent"] == r.value.value["light_intensity_lux"] / 10.0)
              && (HasKey(p, "light_percent") ==>
                    ToFloat(Lookup(p, "light_percent").value) == Ok(r.value.value["light_percent"]))
    ensures var r := NormalizePoint(p, hour);
            (DevicePoint(p) || TrainingPoint(p)) && r.Ok? ==>
              ToInt(LookupOr(p, "hour", Int(hour))) == Ok(r.value.value["hour"].Floor)
    ensures var r := NormalizePoint(p, hour);
            !DevicePoint(p) && !TrainingPoint(p) ==>
              r.Ok? && (r.value.Some? <==> BuildRowFromState(Dict(p), hour).Ok?)
              && (r.value.Some? ==> r.value.value == BuildRowFromState(Dict(p), hour).value)
  {
  }

  /** The reference device state: soil 40 %, 25 degrees, 60 % humidity,
      light 50 %, UV index 3. */
  const SCENARIO_STATE: Value := Dict([
    ("soil", Dict([("percent", Int(40))])),
    ("env", Dict([("tempC", Int(25)), ("humRH", Int(60))])),
    ("light", Dict([("percent", Int(50))])),
    ("uv", Dict([("uvi", Int(3))]))])

  /** The reference state is complete, and its row reads 40 % soil moisture
      under both names and 500 lux from the light percentage. */
  lemma ScenarioRow(hour: Hour)
    ensures BuildRowFromState(SCENARIO_STATE, hour).Ok?
    ensures var row := BuildRowFromState(SCENARIO_STATE, hour).value;
            row["soil_percent"] == 40.0 && row["soil_moisture_pct"] == 40.0
            && row["light_intensity_lux"] == 500.0
  {
    ScenarioFields();
  }

  /** The six raw readings of the reference state; it reports no lux. */
  lemma ScenarioFields()
    ensures ReadStateFields(SCENARIO_STATE) == Ok(StateFields(Int(40), Int(25), Int(60), Int(50), Null, Int(3)))
  {
    ScenarioGroups();
  }

  /** The four groups of the reference state. */
  lemma ScenarioGroups()
    ensures LookupOr(SCENARIO_STATE.entries, "soil", Dict([])) == Dict([("percent", Int(40))])
    ensures LookupOr(SCENARIO_STATE.entries, "env", Dict([])) == Dict([("tempC", Int(25)), ("humRH", Int(60))])
    ensures LookupOr(SCENARIO_STATE.entries, "light", Dict([])) == Dict([("percent", Int(50))])
    ensures LookupOr(SCENARIO_STATE.entries, "uv", Dict([])) == Dict([("uvi", Int(3))])
  {
  }
}
