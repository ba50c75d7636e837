/** The worker's compile-time configuration: intervals, the irrigation
    threshold, the legacy label table and the two column naming schemes. */
module Config {

  /** Seconds between two forecast runs. */
  const FORECAST_INTERVAL_SEC: int := 10

  /** Minutes between two steps of a forecast trajectory. */
  const STEP_MINUTES: int := 10

  /** Soil moisture (percent) below which the soil needs water. */
  const SOIL_IRRIGATE_THRESHOLD: real := 60.0

  /** Legacy classifier labels and the pump command each stands for, in the
      order the decision interpreter tries them. */
  const LABEL_MAP: seq<(string, bool)> := [
    ("kurang_air", true),
    ("butuh_air", true),
    ("kering", true),
    ("aman", false),
    ("normal", false),
    ("cukup", false),
    ("basah", false)
  ]

  /** Column names as the device reports them. */
  const FEATURES_5: seq<string> := ["soil_percent", "tempC", "humRH", "light_percent", "uv_uvi"]
  const FEATURES_6: seq<string> := FEATURES_5 + ["hour"]

  /** Column names the models were trained with. */
  const MODEL_FEATURES_5: seq<string> :=
    ["soil_moisture_pct", "air_temperature_c", "air_humidity_pct", "light_intensity_lux", "uv_index"]
  const MODEL_FEATURES_6: seq<string> := MODEL_FEATURES_5 + ["hour"]

  /** Output names of the decision model when its metadata names none. */
  const DEFAULT_LABEL_COLS: seq<string> := ["label_suhu", "label_rh", "label_soil", "label_lux", "label_uv"]
}
