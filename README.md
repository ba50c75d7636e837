# Smart irrigation worker, modelled in Dafny

This project models the server-side worker of a tomato irrigation system (`sc_worker.py`).
Once a second the worker reads three nodes of a realtime database:

- the `controls` node, holding the mode and power;
- the `state` node, holding the device's latest soil, air, light and UV readings;
- when a forecast is due, the `telemetry` node.

From these it builds a feature row. The row carries every reading twice: under the names the ESP32 device uses (`soil_percent`, `tempC`, …) and under the names the models were trained with (`soil_moisture_pct`, `air_temperature_c`, …).
In automatic mode it feeds the row to a decision classifier and turns the classifier's output into a pump command. The command is written, with an `ai/now` record, only when it differs from the last one written.
At most every ten seconds it builds the forecast model's input: a single row, or a window of telemetry rows flattened step by step. It runs the forecast model and reads the predicted soil-moisture trajectory: when the soil first falls below 60 %, and a short text for the app. It writes `ai/forecast` and four forecast fields of `controls`.

The modules follow the source's sections:

| module | file | what it holds |
|---|---|---|
| `Base` | base.dfy | JSON-like values, the exceptions of one iteration, `dict.get`, `float()`/`int()`, `strip`/`lower`/`in` on strings |
| `Config` | config.dfy | the constants: intervals, threshold, the legacy label table, the two column naming schemes |
| `Labels` | labels.dfy | the five threshold labelers and `rule_labels_from_row` |
| `Rows` | rows.dfy | the feature row (`build_row_from_state`, `_normalize_point`) and its dual-naming invariant `RowShape` |
| `Columns` | columns.dfy | column resolution for a model (`make_X_single_step_for`) |
| `Decision` | decision.dfy | `decode_multioutput_prediction`, `interpret_decision_to_pump` |
| `Telemetry` | telemetry.dfy | `_extract_points_from_telemetry`, including the keyed sort in Python's order |
| `Sequence` | sequence.dfy | `build_X_sequence_for_forecast`, over row objects that are updated in place |
| `Forecast` | forecast.dfy | `interpret_forecast_output` |
| `Worker` | worker.dfy | the `while True` loop: one iteration `Tick`, the class `Loop` holding the two process variables and the write log, and the loop's properties |

The two models are functions handed in through `Worker.Models`, together with what the worker learns about each model by introspection (`feature_names_in_` and the input count). The database is a snapshot read per iteration (`Worker.Snapshot`) plus the sequence of writes the iteration issues (`Worker.Write`).

The forecast window holds the latest `3 × steps` points, oldest first (`Sequence.Window`, `Telemetry.ExtractPoints`); its last step is the current hour, in the builder as written (`Sequence.SharedPadLastStepIsNow`) and in the corrected one (`Sequence.LastStepIsNow`).

## Model

| member | source | states |
|---|---|---|
| Base.Get | sc_worker.py:230-232 | `v.get(k, dflt)` succeeds exactly on a dict; it gives the first entry under `k`, or `dflt` when there is none |
| Base.ToFloat | sc_worker.py:254-258 | `float()` succeeds exactly on booleans, integers and floats; it keeps a float and converts an integer exactly |
| Base.Trunc | sc_worker.py:401 | `int()` of a float truncates toward zero, from below for non-negative numbers and from above for negative ones |
| Base.ToInt | sc_worker.py:401 | `int()` succeeds exactly on booleans, integers and floats; it keeps an integer, truncates a float toward zero, and gives 1 for true and 0 for false |
| Base.StripLeft | sc_worker.py:345 | the result is a suffix of the input that starts with no whitespace, and everything dropped in front of it is whitespace |
| Base.StripRight | sc_worker.py:345 | the result is a prefix of the input that ends with no whitespace, and everything dropped after it is whitespace |
| Base.Lower | sc_worker.py:345 | same length; every character is lower-cased |
| Base.Contains | sc_worker.py:347 | `t in s` holds exactly when `t` occurs in `s` at some offset |
| Base.NatToString | sc_worker.py:518 | `str(n)` is a non-empty digit string with no leading zero, and denotes `n` |
| Labels.SuhuKet | sc_worker.py:134-147 | "-" exactly for a missing reading; otherwise each of the six temperature bands exactly on its interval (13, 18, 27, 30, 33, each bound inclusive or exclusive as in the source) |
| Labels.RhKet | sc_worker.py:149-160 | "-" exactly for a missing reading; each of the five humidity bands exactly on its interval (40, 55, 75, 85) |
| Labels.SoilKet | sc_worker.py:162-173 | "-" exactly for a missing reading; each of the five soil bands exactly on its interval (30, 40, 70, 85) |
| Labels.LuxKet | sc_worker.py:175-184 | "-" exactly for a missing reading; each of the four light bands exactly on its interval (200, 600, 900) |
| Labels.UvKet | sc_worker.py:186-197 | "-" exactly for a missing reading; each of the five UV bands exactly on its interval (2, 5, 7, 10) |
| Labels.Rank | sc_worker.py:134-197 | the position of a label in its band list: the first position holding it |
| Labels.RankOfBand | sc_worker.py:134-197 | in a list of distinct bands, the band at position `i` has rank `i` |
| Labels.SuhuMonotone | sc_worker.py:134-147 | a larger temperature never gets an earlier band |
| Labels.RhMonotone | sc_worker.py:149-160 | a larger humidity never gets an earlier band |
| Labels.SoilMonotone | sc_worker.py:162-173 | a larger soil moisture never gets an earlier band |
| Labels.LuxMonotone | sc_worker.py:175-184 | a larger illuminance never gets an earlier band |
| Labels.UvMonotone | sc_worker.py:186-197 | a larger UV index never gets an earlier band |
| Labels.RuleLabelsFromRow | sc_worker.py:199-212 | exactly the five label keys; a label is "-" exactly when its reading is missing from the row; each present reading's label is its labeler's band for that reading; lux is never "-", is labelled from the row's lux, and otherwise from ten times the light percentage (0 when absent) |
| Rows.RowOf | sc_worker.py:253-269 | the row has exactly the eleven keys of both schemes; the mirrored quantities agree, and each key holds its quantity |
| Rows.SampleRoundTrip | sc_worker.py:253-269 | the physical quantities are read back unchanged from the flat row |
| Rows.ReadStateFields | sc_worker.py:230-247 | the six raw readings are the values at their paths, with the source's defaults: percent 0 for light, uvi 0.0 for UV |
| Rows.BuildRowFromState | sc_worker.py:226-271 | a built row has the dual-naming invariant and the given hour; soil, temperature and humidity were present; each field is `float()` of its reading; lux comes from the device, or otherwise is ten times the light percentage |
| Rows.BuildRowFailsIffIncomplete | sc_worker.py:249-250 | on a state of the device's shape the builder fails exactly when soil, temperature or humidity is missing |
| Rows.FromDevicePoint | sc_worker.py:394-410 | succeeds exactly when every conversion succeeds (the five readings, the hour, and lux when present); the row has the dual-naming invariant and keeps a present lux |
| Rows.FromTrainingPoint | sc_worker.py:413-429 | succeeds exactly when every conversion succeeds (the five readings, the hour, and the light percentage when present); the row has the dual-naming invariant and keeps a present light percentage |
| Rows.NormalizePoint | sc_worker.py:389-435 | a row it returns has the dual-naming invariant; only a device-named or training-named point can raise |
| Rows.NormalizePointSpec | sc_worker.py:389-435 | a device-named point is read exactly when all its conversions succeed, into its converted readings, a present lux kept and a missing one ten times the light percentage. A training-named point (and not device-named) likewise, with a missing light percentage a tenth of the lux. The hour defaults to now. Any other point never raises; it is read as a nested state, and skipped exactly when that fails |
| Rows.ScenarioRow | sc_worker.py:226-271 | the reference state (soil 40, 25 °C, 60 %, light 50 %, UV 3) gives soil 40 under both names and 500 lux |
| Rows.ScenarioFields | sc_worker.py:230-247 | the reference state's raw readings, with no lux reported |
| Columns.MissingCols | sc_worker.py:284 | holds exactly the columns that are absent from the row; it is empty exactly when every column is present |
| Columns.SelectColumns | sc_worker.py:284-287 | succeeds exactly when every column is present, giving the columns in order with their values; otherwise the error names the missing ones |
| Columns.MetaColumns | sc_worker.py:290-291 | `sensor_cols` when non-empty, else `feature_cols` when non-empty, else none |
| Columns.FallbackColumns | sc_worker.py:299-308 | 5 columns exactly when the model takes 5 inputs, else 6; the training names exactly when the row has all of them, otherwise the device names |
| Columns.IndexColumns | sc_worker.py:309 | succeeds exactly when every column is present, with the values in order |
| Columns.MakeXSingleStepFor | sc_worker.py:273-309 | precedence: the model's declared names, then the metadata's names, then the fixed table. Each source succeeds exactly when all its columns are in the row, and the frame's columns are exactly that source's list, in its order. Every value is the row's value for its column |
| Columns.FallbackOnShapedRow | sc_worker.py:298-309 | a row with the dual-naming invariant always gets the training names and never fails the fixed table |
| Decision.LabelCols | sc_worker.py:316-320 | `target_label_cols`, else `label_cols`, else the five default names; never empty |
| Decision.ZipLabelsSpec | sc_worker.py:324-328 | every label column becomes a key, holding the entry of its last occurrence |
| Decision.DecodeMultioutputPrediction | sc_worker.py:311-335 | for an output of at least two entries, the keys are exactly the label columns cut to the output's length, each paired with its entry; otherwise the single key `label` holds the output's item. It raises exactly when the output has fewer than two entries and its `.item()` raises |
| Decision.AgakKeringIsKering | sc_worker.py:347 | the third dry keyword never decides alone: "agak kering" contains "kering" |
| Decision.SoilLabelDecision | sc_worker.py:344-350 | water exactly when a non-empty label set has a soil label containing "kering" or "butuh air"; no water exactly when it has neither but contains "basah" or "optimal" |
| Decision.FirstKeyIn | sc_worker.py:353-355 | none exactly when no table key occurs; otherwise the command of the first key that occurs |
| Decision.FirstKeyInAt | sc_worker.py:353-355 | the first table key that occurs decides |
| Decision.InterpretDecisionToPump | sc_worker.py:337-360 | precedence: the soil label's verdict, else the first legacy key in the rendered output, else soil below 60 (a missing soil reading counts as 100) |
| Decision.DrySoilLabelWins | sc_worker.py:344-348 | a soil label containing "kering" waters, whatever the legacy output or the soil reading |
| Forecast.SoilFuture | sc_worker.py:489-499 | a list output's values, in order; a scalar output becomes a one-step trajectory |
| Forecast.FirstBelow | sc_worker.py:501-505 | the first index whose value is below the threshold, every earlier value being at or above it; none exactly when no value is below |
| Forecast.FirstBelowUnique | sc_worker.py:501-505 | the two properties of the crossing index determine it |
| Forecast.HoursTenths | sc_worker.py:510-511 | the nearest tenth of an hour to the minutes, as `%.1f` rounds it |
| Forecast.MinutesOf | sc_worker.py:514 | a multiple of the step length, which divided by the step gives back the index |
| Forecast.InterpretForecastOutput | sc_worker.py:488-522 | the trajectory is the output's values. The minutes to irrigation are a multiple of 10 whose step is the first value below the threshold. They are absent exactly when every value is at or above it. The text is the one for that crossing |
| Forecast.ForecastTextCases | sc_worker.py:509-520 | "sekarang" exactly when the first value is already below; "N menit lagi" for a crossing within the hour; otherwise hours, "H.h jam lagi". With no crossing the text starts with ">" and names the horizon: the time of the last step for more than one value, one 10-minute step otherwise |
| Forecast.DecreasingTrajectoryExample | sc_worker.py:488-522 | [65, 62, 58, 50] against 60 gives that trajectory, "20 menit lagi" and 20 minutes |
| Forecast.SafeTrajectoryExample | sc_worker.py:488-511 | [70, 68, 66, 64] against 60 gives that trajectory, ">0.5 jam (masih aman)" and no minutes |
| Forecast.HalfHourText | sc_worker.py:510-511 | thirty minutes read as "0.5" hours |
| Forecast.ScalarOutputExample | sc_worker.py:488-511 | a scalar output 70 against 60 gives the one-step trajectory [70], ">0.2 jam (masih aman)" and no minutes |
| Forecast.TenMinuteText | sc_worker.py:510-511 | ten minutes read as "0.2" hours |
| Forecast.SeqMin | sc_worker.py:607 | `min` of a non-empty trajectory is one of its values and at most every value |
| Telemetry.ParseInt | sc_worker.py:379-382 | `int(str(k))` succeeds exactly when the stripped key is an optional sign followed by one or more digits, and gives the number they denote, negated after a minus |
| Telemetry.ParseIntOfString | sc_worker.py:379-382 | a key written as `str(i)` parses back to `i` |
| Telemetry.StrLeTotal | sc_worker.py:382-384 | Python's string order is total |
| Telemetry.StrLeTrans | sc_worker.py:382-384 | Python's string order is transitive |
| Telemetry.KeyLeTotal | sc_worker.py:377-384 | the sort order on keys is total |
| Telemetry.KeyLeTrans | sc_worker.py:377-384 | the sort order on keys is transitive |
| Telemetry.KeyedOf | sc_worker.py:375-382 | every item paired with the sort key of its key, in order |
| Telemetry.Insert | sc_worker.py:384 | inserting adds exactly the one entry |
| Telemetry.SortEntries | sc_worker.py:384 | the sort is a permutation of the items |
| Telemetry.SortEntriesSorted | sc_worker.py:384 | the sorted items are in key order |
| Telemetry.SortEntriesStable | sc_worker.py:384 | items with equal keys keep their original order |
| Telemetry.Values | sc_worker.py:385 | the values of the sorted items, in order |
| Telemetry.DictsOf | sc_worker.py:387 | exactly the dict points are kept, never more than there were |
| Telemetry.DictsOfAppend | sc_worker.py:387 | the filter keeps the order: the dicts of two runs are those of the first followed by those of the second |
| Telemetry.ExtractPoints | sc_worker.py:362-387 | it raises exactly on a keyed container that mixes integer-like keys with others. Null gives no points, and neither does a container that is neither a list nor a dict. A list gives its dict items in order. A dict gives its dict values sorted by key |
| Telemetry.ExtractPointsOrder | sc_worker.py:375-385 | the keyed sort is sorted, a permutation, and stable |
| Sequence.RowRef.constructor | sc_worker.py:463-465 | a new row object holds the given row |
| Sequence.LayoutFor | sc_worker.py:447-456 | it succeeds exactly when the count is a multiple of 5 or 6. Five per step exactly when 5 divides it, otherwise six. Per-step times steps is the count, with at least two steps. Otherwise the error names the count |
| Sequence.Window | sc_worker.py:462 | the last `3 × steps` points, or all when there are fewer |
| Sequence.Collected | sc_worker.py:461-465 | at most one row per point |
| Sequence.CollectedErr | sc_worker.py:461-465 | a collection raises exactly when the reader raises on one of its points |
| Sequence.CollectedOne | sc_worker.py:463-465 | one point gives its row, nothing when skipped, or its error |
| Sequence.CollectedAppend | sc_worker.py:461-465 | collecting two runs gives the rows of the first followed by those of the second |
| Sequence.CollectedShape | sc_worker.py:461-465 | when every row the reader makes is shaped, so is every collected row |
| Sequence.NormalizedRows | sc_worker.py:461-465 | at most one row per point, each with the dual-naming invariant |
| Sequence.NormalizedRowsErr | sc_worker.py:461-465 | the window's rows fail exactly when some point's reading raises |
| Sequence.NormalizedRowsOne | sc_worker.py:463-465 | one point gives its normalised row, nothing when it is skipped, or its error |
| Sequence.NormalizedRowsAppend | sc_worker.py:461-465 | the rows of two runs of points are those of the first followed by those of the second |
| Sequence.PaddedRows | sc_worker.py:468-472 | exactly `steps` rows: the latest rows, preceded by copies of the current row when there are fewer |
| Sequence.StepHour | sc_worker.py:476-479 | the last step is stamped with the current hour |
| Sequence.WithStepHours | sc_worker.py:475-479 | each step's hour is the hour of its own time, ten minutes per step back from now; every other field is kept |
| Sequence.WithSharedPadHours | sc_worker.py:470-479 | as written, each padded step carries the hour of the last padded step and every later step its own; every other field is kept |
| Sequence.FlattenRowsLength | sc_worker.py:481-484 | every step contributes one value per feature |
| Sequence.FlattenRowsLayout | sc_worker.py:481-484 | the flat vector is step-major: step `i` holds its features in order at `i × per` |
| Sequence.Padded | sc_worker.py:467-472 | the padded rows keep the dual-naming invariant, with `steps` rows and the number of padded ones |
| Sequence.StampKeepsShape | sc_worker.py:479 | stamping an hour keeps the dual-naming invariant |
| Sequence.SetHours | sc_worker.py:475-479 | after the in-place loop, each object keeps the hour of the last position that holds it |
| Sequence.CollectRows | sc_worker.py:461-465 | the loop over the window fails exactly when the row collection fails, with the same error; otherwise it gives fresh, distinct objects holding the collected rows |
| Sequence.AppendRow | sc_worker.py:463-465 | a point that normalises adds one fresh object at the end |
| Sequence.FlattenSteps | sc_worker.py:481-484 | the nested loop gives the flat vector of the rows |
| Sequence.PadShared | sc_worker.py:467-472 | `[current_row] * pad_needed + rows`: the padded rows, with one object at every padded position |
| Sequence.PadCopies | sc_worker.py:467-472 | the padded rows, with distinct objects |
| Sequence.StampShared | sc_worker.py:474-479 | stamping a list with shared padding leaves the shared-padding hours |
| Sequence.StampDistinct | sc_worker.py:474-479 | stamping a list of distinct objects gives each step its own hour |
| Sequence.StampSharedPadding | sc_worker.py:467-484 | padding, stamping and flattening in place give the source's flat vector |
| Sequence.StampCopiedPadding | sc_worker.py:467-484 | padding with copies, stamping and flattening give the corrected flat vector |
| Sequence.StampPadding | sc_worker.py:467-484 | the flat vector, with shared or copied padding |
| Sequence.BuildSingleStep | sc_worker.py:441-444 | a model of at most six inputs gets the current row's column frame |
| Sequence.BuildSteps | sc_worker.py:458-486 | the multi-step input from the stored telemetry |
| Sequence.BuildStepsFrom | sc_worker.py:461-486 | the multi-step input from the extracted points |
| Sequence.BuildXSequenceAsWritten | sc_worker.py:437-486 | the builder as written, with shared padding |
| Sequence.BuildXSequenceForForecast | sc_worker.py:437-486 | the corrected builder, with a copy per padded step |
| Sequence.FlattenStepRows | sc_worker.py:481-484 | flattening rows of the dual-naming invariant never misses a feature |
| Sequence.HourSlots | sc_worker.py:475-484 | a six-feature vector has six slots per step, the sixth being the step's hour |
| Sequence.StepHoursInInput | sc_worker.py:474-484 | in the corrected input every step's hour slot holds its own hour, and the vector has one value per model input |
| Sequence.SharedPadHoursInInput | sc_worker.py:470-479 | in the input as written, every padded step's hour slot holds the hour of the last padded step |
| Sequence.LastStepIsNow | sc_worker.py:476-479 | in the corrected input the final slot is the current hour |
| Sequence.SharedPadLastStepIsNow | sc_worker.py:470-479 | in the input as written, too, the final slot is the current hour |
| Sequence.FivePerStepUnaffected | sc_worker.py:470-484 | with five features per step the two builders agree |
| Sequence.TwoPaddedStepsAtOne | sc_worker.py:470-479 | two padded steps of six at 01:00: as written the first hour slot is 1, corrected it is 0 |
| Sequence.FirstOfTwoPaddedSteps | sc_worker.py:470-479 | with no telemetry and two steps of six, the first hour slot holds the second step's hour as written and its own hour when corrected |
| Sequence.TwelveInputsNoTelemetry | sc_worker.py:437-486 | a twelve-input model with no telemetry gets two padded steps of six |
| Sequence.SharedPaddingHourExample | sc_worker.py:468-479 | end to end, such a model at 01:00 gets 1 in the first hour slot as written and 0 corrected |
| Worker.ControlsOf | sc_worker.py:532 | `controls or {}` is readable exactly when it is a dict or falsy; a dict gives its entries, a falsy value none |
| Worker.DefaultControls | sc_worker.py:533-534 | controls with no mode and no power mean automatic mode with power on |
| Worker.HeadlineLabel | sc_worker.py:566 | the soil label when non-empty, otherwise the `label` entry when non-empty, otherwise ""; "" exactly when both are absent or empty |
| Worker.Decide | sc_worker.py:540-552 | succeeds exactly when the row can be built, the model's columns resolved and the prediction decoded; carries that row, the decoded labels of the model's prediction, their headline and the row's rule labels; with the power on the command is the interpreted prediction, with it off the command is off |
| Worker.ForecastWrites | sc_worker.py:592-608 | two writes. The `ai/forecast` record holds the trajectory, the threshold 60, the 10-minute step, the text, the minutes, the current row and the time; the controls get the same text. `forecast_next_min` is −1 exactly when there is no crossing, and otherwise the minutes. The current soil is the row's. The horizon minimum is the least value of a non-empty trajectory, and otherwise the current soil |
| Worker.Loop.constructor | sc_worker.py:527-528 | no pump command written yet, forecast time 0, no writes |
| Worker.Loop.Step | sc_worker.py:530-613 | one pass of the loop body, with the sequence builder as written: the new variables and the issued writes are those of one iteration on the same readings |
| Worker.Loop.DecisionStep | sc_worker.py:540-576 | the decision block: its writes and new state on success; on a failure it ends the iteration and changes nothing |
| Worker.Loop.RecordDecision | sc_worker.py:554-576 | the edge-triggered write of the command and its record |
| Worker.Loop.ForecastStep | sc_worker.py:579-611 | the forecast block, with the sequence builder as written: when due and successful it appends the forecast writes and moves the forecast time to now |
| Worker.DecideNow | sc_worker.py:541-552 | the decision half computes the verdict |
| Worker.ForecastNow | sc_worker.py:581-608 | the forecast half computes the forecast writes, from the sequence builder as written |
| Worker.ForecastStageShaped | sc_worker.py:592-608 | a forecast half that succeeds writes the forecast record, then the forecast controls |
| Worker.IteratePump | sc_worker.py:540-576 | the pump is written exactly when a command is reached that differs from the last written. The write comes first, followed by its record with the same command and power. The loop then remembers the command |
| Worker.IterateForecast | sc_worker.py:579-611 | a forecast is published exactly when the iteration gets past its decision half, the forecast is due and the forecast half succeeds; only then the forecast time moves to now |
| Worker.IterateForecastWrites | sc_worker.py:579-611 | a published forecast's two writes end the iteration; an iteration that decides but publishes nothing writes only its decision |
| Worker.PumpWrittenOnChange | sc_worker.py:540-576 | for a whole iteration: the pump is written exactly on a readable, automatic iteration whose decision succeeds with a new command; the write comes first; the loop remembers every command it reaches |
| Worker.PowerOffKeepsPumpOff | sc_worker.py:551-555 | with the power off the pump is only ever commanded off |
| Worker.RepeatedTickWritesPumpOnce | sc_worker.py:554-576 | repeating an iteration on the same readings writes the pump at most once |
| Worker.ForecastGate | sc_worker.py:579-611 | for a whole iteration: a forecast is published exactly when it is due, the controls are readable, the decision (in automatic mode) succeeds and the forecast half succeeds |
| Worker.ForecastsSpaced | sc_worker.py:579-611 | two published forecasts are at least ten seconds apart |
| Worker.IterateManual | sc_worker.py:540 | outside automatic mode an iteration writes neither the pump nor a decision record |
| Worker.ManualModeWritesNoDecision | sc_worker.py:540 | for a whole iteration in manual mode: the pump is left alone and no decision is recorded |
| Worker.ButuhAirWaters | sc_worker.py:352-355 | the rendered output "butuh_air" reads, through the legacy table, as water |
| Worker.ButuhAirKeyWaters | sc_worker.py:31-39 | "butuh_air" is the first legacy key found in "butuh_air", and it stands for water |
| Worker.ButuhAirOutputWaters | sc_worker.py:337-360 | with no soil label and the rendered output "butuh_air" the command is water, whatever the row |
| Worker.DecideButuhAir | sc_worker.py:540-552 | a decision model that only outputs "butuh_air" commands water whenever its input can be built |
| Worker.FirstCommandWritten | sc_worker.py:554-576 | from the initial state, the first command reached is written and remembered |
| Worker.FirstWateringWritten | sc_worker.py:554-576 | from the initial state, with power on and a decision to water, the pump is switched on |
| Worker.ScenarioControls | sc_worker.py:532-534 | controls `{mode: "auto", power: true}` are readable, automatic and powered |
| Worker.ScenarioDecision | sc_worker.py:540-552 | such a model without declared columns decides to water on any state whose row can be built |
| Worker.ScenarioPumpOn | sc_worker.py:530-576 | the reference scenario on any complete state: automatic mode, power on, legacy output "butuh_air"; the first iteration writes `pump_auto = true` |
| Worker.ScenarioSoilForty | sc_worker.py:530-576 | the reference scenario on the reference state (soil 40): the first iteration writes `pump_auto = true` |

## Left out

- Network and database I/O. Each iteration reads a snapshot of `controls`, `state` and `telemetry`, and its writes are a list of `Write` values. A write that fails is not modelled.
- The clock, the time zone and sleeping. The local time is a parameter, the minute of the day `nowMin`, and the Unix time is a parameter `nowTs`. The ISO timestamp fields are not modelled. The one-second and three-second sleeps are not modelled.
- The two readings of `time.time()` are one parameter. The source reads the clock again at line 579, after the `ai/now` record; the model uses one `nowTs` for both.
- Loading the models, `unwrap_joblib` and the startup checks (credentials, model files, `predict` present) are not modelled. A model is a total function from its input frame to its output: a `predict` that raises, or an empty output indexed by `pred[0]`/`yhat[0]` (lines 544-545, 584-585), is not modelled, so `Worker.ForecastGate` and the other "exactly when" properties of an iteration hold for models that always answer. `infer_n_features` becomes the `nFeatures` field of `Columns.ModelInfo`, and `feature_names_in_` becomes its `featureNames` field.
- Metadata is modelled as its name lists only (`Columns.Meta`).
- Base.ToFloat: does not parse numeric strings, because the database delivers numbers. In Python `float("40")` succeeds; here a string reading raises, like any other non-numeric value. The same holds for `Base.ToInt`.
- Base.Strip and Base.Lower: ASCII whitespace and ASCII letters only, because the labels and keywords involved are ASCII.
- `str()` of a numpy value or array is a given string. `Decision.Prediction` carries `str()` of each entry, of the whole output, and of the output's `.item()` (or the error it raises), as computed by the model function.
- NaN enters only as a missing reading (`Labels.Reading`). A NaN stored in the database is not modelled, because JSON does not carry NaN.
- Floating point is modelled with exact reals. Forecast.HoursText: `%.1f` is modelled as rounding to the nearest tenth. This rounding is exact for the multiples of ten minutes that reach it, since no tie arises.
- A forecast output that `float()` cannot convert is not modelled. The output is a list of numbers or one number (`Forecast.ForecastOutput`).
- The `print` calls are not modelled. The exception handler's log line is not modelled either; the iteration simply ends, as the loop's `except` does.
- The loop runs the sequence builder as written (`Sequence.ForecastInputAsWritten`), as line 582 does. The corrected builder (`Sequence.BuildXSequenceForForecast`) is kept beside it with its proofs, for the finding below.
- Telemetry.ParseInt: ASCII only. Python's `int()` also accepts underscores between digits (`"1_000"`), non-ASCII decimal digits and Unicode whitespace around the number; such keys sort as strings here.
- In the reference scenario the decision model's output is fixed to the legacy "butuh_air". What a trained model would output for that state is not modelled.
- An Android client and its Gradle build files ship with the repository. They are not part of the worker and are not modelled.

## Findings

| source | as written | input that shows it | evidently intended | confidence | as-written member | corrected member |
|---|---|---|---|---|---|---|
| sc_worker.py:468-479 | `[current_row] * pad_needed` puts one dict object at every padded position. The hour loop then writes that shared dict once per padded step. So every padded step ends with the hour of the last padded step | A forecast model of 12 inputs (two steps of six features), an empty telemetry node, local time 01:00. Both steps are padding. The first step's hour slot (index 5) comes out 1 instead of 0 (00:50) | each step stamped with the hour of its own time, ten minutes apart, as the loop at lines 475-479 sets out to do | not executed | Sequence.BuildXSequenceAsWritten, Sequence.SharedPaddingHourExample | Sequence.BuildXSequenceForForecast, Sequence.StepHoursInInput |
