/** The worker's control loop: each iteration reads the controls, the device
    state and the clock, decides the pump command (written only when it
    changes) and, at most every `FORECAST_INTERVAL_SEC` seconds, publishes a
    soil-moisture forecast. The database is modelled as the log of the writes
    the loop issues; the two models are functions handed in. */
module Worker {
  import opened Base
  import opened Config
  import opened Rows
  import opened Columns
  import opened Labels
  import opened Decision
  import opened Sequence
  import opened Forecast

  /** The two pre-trained models, what the worker learns about them by
      introspection, and their metadata. Each prediction is a function of
      the model's input frame. */
  datatype Models = Models(
    decision: ModelInfo, decMeta: Meta, decide: Frame -> Prediction,
    forecast: ModelInfo, forMeta: Meta, predict: ForecastInput -> ForecastOutput)

  /** What one iteration reads: the `controls` and `state` nodes, the minute
      of the day and the Unix time, and the `telemetry` node. */
  datatype Snapshot = Snapshot(controls: Value, state: Value, nowMin: Minute, nowTs: int, telemetry: Value)

  /** The record written to `ai/now` with each new pump command. */
  datatype AiNow = AiNow(
    pumpAuto: bool, mode: string, power: bool, row: Row,
    labels: map<string, string>, headline: string, ruleLabels: map<string, string>, ts: int)

  /** The record written to `ai/forecast` with each forecast. */
  datatype AiForecast = AiForecast(
    soilFuture: seq<real>, threshold: real, stepMinutes: int, text: string,
    nextMin: Option<nat>, rowNow: Row, ts: int)

  /** One database write, in the order the loop issues them. */
  datatype Write =
    | SetPumpAuto(pumpAuto: bool)   // `controls.update({"pump_auto": ...})`
    | SetAiNow(record: AiNow)
    | SetAiForecast(forecast: AiForecast)
    | SetForecastControls(text: string, nextMin: int, soilNow: real, soilMinHorizon: real)

  /** What the loop remembers between iterations. */
  datatype LoopState = LoopState(lastPump: Option<bool>, lastForecastTs: int)

  const INITIAL: LoopState := LoopState(None, 0)

  /** The state after an iteration and the writes it issued. */
  datatype Outcome = Outcome(state: LoopState, writes: seq<Write>)

  /** `ref_controls.get() or {}`, read as a dict: anything else that is
      truthy makes the `.get` calls raise. */
  function ControlsOf(v: Value): (r: Result<seq<(string, Value)>>)
    ensures r.Ok? <==> v.Dict? || !Truthy(v)
    ensures v.Dict? ==> r == Ok(v.entries)
    ensures r.Ok? && !v.Dict? ==> r.value == []
  {
    if v.Dict? then Ok(v.entries)
    else if !Truthy(v) then Ok([])
    else Err(NotADict)
  }

  /** `str(controls.get("mode", "auto")).lower() == "auto"`: no value other
      than a string renders as a word that lower-cases to "auto". */
  predicate AutoMode(controls: seq<(string, Value)>) {
    match LookupOr(controls, "mode", Str("auto"))
    case Str(s) => Lower(s) == "auto"
    case _ => false
  }

  /** `bool(controls.get("power", True))`. */
  predicate PowerOn(controls: seq<(string, Value)>) {
    Truthy(LookupOr(controls, "power", Bool(true)))
  }

  /** Controls without a mode or power entry mean automatic mode with power on. */
  lemma DefaultControls(controls: seq<(string, Value)>)
    requires forall i :: 0 <= i < |controls| ==> controls[i].0 != "mode" && controls[i].0 != "power"
    ensures AutoMode(controls) && PowerOn(controls)
  {
    assert Lower("auto") == "auto";
  }

  /** `labels.get("label_soil") or labels.get("label") or ""`. */
  function HeadlineLabel(labels: map<string, string>): (l: string)
    ensures "label_soil" in labels && labels["label_soil"] != "" ==> l == labels["label_soil"]
    ensures l != "" ==> ("label_soil" in labels && l == labels["label_soil"])
                        || ("label" in labels && l == labels["label"])
    ensures l == "" <==> ("label_soil" !in labels || labels["label_soil"] == "")
                         && ("label" !in labels || labels["label"] == "")
  {
    if "label_soil" in labels && labels["label_soil"] != "" then labels["label_soil"]
    else if "label" in labels && labels["label"] != "" then labels["label"]
    else ""
  }

  /** The decision of one iteration: the feature row, the decoded labels, the
      headline label, the threshold labels of the row and the pump command
      (forced off when the power is off). */
  datatype Verdict = Verdict(
    pump: bool, row: Row, labels: map<string, string>, headline: string, ruleLabels: map<string, string>)

  function Decide(m: Models, state: Value, hour: Hour, power: bool): (r: Result<Verdict>)
    ensures r.Ok? <==> BuildRowFromState(state, hour).Ok?
                       && MakeXSingleStepFor(m.decision, BuildRowFromState(state, hour).value, m.decMeta).Ok?
                       && DecodedLabels(m.decide(MakeXSingleStepFor(m.decision, BuildRowFromState(state, hour).value,
                                                                   m.decMeta).value), m.decMeta).Ok?
    ensures r.Ok? ==> r.value.row == BuildRowFromState(state, hour).value
    ensures r.Ok? && !power ==> !r.value.pump
    ensures r.Ok? ==>
              var row := r.value.row;
              var pred := m.decide(MakeXSingleStepFor(m.decision, row, m.decMeta).value);
              && Ok(r.value.labels) == DecodedLabels(pred, m.decMeta)
              && (power ==> r.value.pump == InterpretDecisionToPump(pred, row, r.value.labels))
              && r.value.headline == HeadlineLabel(r.value.labels)
              && r.value.ruleLabels == RuleLabelsFromRow(row)
  {
    var row :- BuildRowFromState(state, hour);
    var x :- MakeXSingleStepFor(m.decision, row, m.decMeta);
    var pred := m.decide(x);
    var labels :- DecodedLabels(pred, m.decMeta);
    Ok(Verdict(InterpretDecisionToPump(pred, row, labels) && power, row, labels,
               HeadlineLabel(labels), RuleLabelsFromRow(row)))
  }

  /** The decision half once the verdict is known: a new command is written,
      with its record, only when it differs from the last one written. */
  function DecisionWrites(s: LoopState, d: Verdict, power: bool, ts: int): Outcome {
    if s.lastPump.None? || d.pump != s.lastPump.value then
      var record := AiNow(d.pump, "auto", power, d.row, d.labels, d.headline, d.ruleLabels, ts);
      Outcome(s.(lastPump := Some(d.pump)), [SetPumpAuto(d.pump), SetAiNow(record)])
    else Outcome(s, [])
  }

  /** The two forecast writes for a reading of the trajectory. */
  function ForecastWrites(soilFuture: seq<real>, text: string, nextMin: Option<nat>, row: Row, ts: int)
    : (ws: seq<Write>)
    requires "soil_percent" in row
    ensures |ws| == 2 && ws[1].SetForecastControls?
    ensures ws[0] == SetAiForecast(AiForecast(soilFuture, SOIL_IRRIGATE_THRESHOLD, STEP_MINUTES, text, nextMin, row, ts))
    ensures ws[1].text == text
    ensures ws[1].nextMin == -1 <==> nextMin.None?
    ensures nextMin.Some? ==> ws[1].nextMin == nextMin.value
    ensures ws[1].soilNow == row["soil_percent"]
    ensures soilFuture != [] ==> ws[1].soilMinHorizon in soilFuture
                                 && forall j :: 0 <= j < |soilFuture| ==> ws[1].soilMinHorizon <= soilFuture[j]
    ensures soilFuture == [] ==> ws[1].soilMinHorizon == row["soil_percent"]
  {
    [SetAiForecast(AiForecast(soilFuture, SOIL_IRRIGATE_THRESHOLD, STEP_MINUTES, text, nextMin, row, ts)),
     SetForecastControls(
       text,
       match nextMin case None => -1 case Some(k) => k,
       row["soil_percent"],
       if soilFuture == [] then row["soil_percent"] else SeqMin(soilFuture))]
  }

  /** The forecast half: the current row, the forecast input, the model's
      trajectory and its reading. */
  function ForecastStage(m: Models, state: Value, nowMin: Minute, telemetry: Value, ts: int)
    : Result<seq<Write>>
  {
    var row :- BuildRowFromState(state, nowMin / 60);
    var x :- ForecastInputAsWritten(m.forecast, state, nowMin, m.forMeta, telemetry);
    var reading := Interpret(m.predict(x), SOIL_IRRIGATE_THRESHOLD);
    Ok(ForecastWrites(reading.soilFuture, reading.text, reading.nextMin, row, ts))
  }

  predicate ForecastDue(s: LoopState, nowTs: int) {
    nowTs - s.lastForecastTs >= FORECAST_INTERVAL_SEC
  }

  /** The control flow of one iteration over the results of its two halves
      (`readable`: the controls could be read). Any exception ends the
      iteration where it is raised: a failing decision skips the forecast, a
      failing forecast keeps the decision's writes and leaves the forecast
      time as it was. */
  function Iterate(s: LoopState, readable: bool, auto: bool, power: bool, dec: Result<Verdict>,
                   fc: Result<seq<Write>>, nowTs: int): Outcome
  {
    if !readable then Outcome(s, [])
    else
      match DecisionHalf(s, auto, power, dec, nowTs)
      case None => Outcome(s, [])
      case Some(o) => ForecastHalf(o, fc, nowTs)
  }

  /** The decision block: nothing outside automatic mode, the decision's
      writes when it succeeds, and none (the iteration ends) when it fails. */
  function DecisionHalf(s: LoopState, auto: bool, power: bool, dec: Result<Verdict>, nowTs: int): Option<Outcome> {
    if !auto then Some(Outcome(s, []))
    else if dec.Err? then None
    else Some(DecisionWrites(s, dec.value, power, nowTs))
  }

  /** The forecast block after the decision block's outcome `o`: when due and
      successful, its writes follow and the forecast time moves to now. */
  function ForecastHalf(o: Outcome, fc: Result<seq<Write>>, nowTs: int): Outcome {
    if ForecastDue(o.state, nowTs) && fc.Ok? then Outcome(o.state.(lastForecastTs := nowTs), o.writes + fc.value)
    else o
  }

  /** The controls as read, or none when they cannot be read. */
  function ControlEntries(v: Value): seq<(string, Value)> {
    match ControlsOf(v) case Ok(c) => c case Err(_) => []
  }

  /** One iteration on a snapshot of its inputs. */
  function Tick(s: LoopState, m: Models, snap: Snapshot): Outcome {
    var c := ControlEntries(snap.controls);
    var state := OrEmpty(snap.state);
    Iterate(s, ControlsOf(snap.controls).Ok?, AutoMode(c), PowerOn(c),
            Decide(m, state, snap.nowMin / 60, PowerOn(c)),
            ForecastStage(m, state, snap.nowMin, snap.telemetry, snap.nowTs), snap.nowTs)
  }

  /** The worker and its two pieces of memory; `log` holds every write it has
      issued so far. */
  class Loop {
    var lastPump: Option<bool>
    var lastForecastTs: int
    var log: seq<Write>

    constructor ()
      ensures lastPump == None && lastForecastTs == 0 && log == []
    {
      lastPump := None;
      lastForecastTs := 0;
      log := [];
    }

    function State(): LoopState
      reads this
    {
      LoopState(lastPump, lastForecastTs)
    }

    /** One pass of the `while True` body. */
    method Step(m: Models, snap: Snapshot)
      modifies this
      ensures State() == Tick(old(State()), m, snap).state
      ensures log == old(log) + Tick(old(State()), m, snap).writes
    {
      var controls := ControlsOf(snap.controls);
      if controls.Err? {
        return;
      }
      var c := controls.value;
      var power := PowerOn(c);
      var state := OrEmpty(snap.state);
      ghost var s0 := State();
      ghost var log0 := log;
      var ok := DecisionStep(m, state, snap.nowMin / 60, AutoMode(c), power, snap.nowTs);
      if !ok {
        return;
      }
      ghost var o := DecisionHalf(s0, AutoMode(c), power, Decide(m, state, snap.nowMin / 60, power), snap.nowTs).value;
      ForecastStep(m, state, snap, o, log0);
    }

    /** The decision block: in automatic mode, decide and write the command
        and its record when it differs from the last one. `ok` is false when
        the decision fails, which ends the iteration. */
    method DecisionStep(m: Models, state: Value, hour: Hour, auto: bool, power: bool, nowTs: int) returns (ok: bool)
      modifies this
      ensures var h := DecisionHalf(old(State()), auto, power, Decide(m, state, hour, power), nowTs);
              && ok == h.Some?
              && (ok ==> State() == h.value.state && log == old(log) + h.value.writes)
              && (!ok ==> State() == old(State()) && log == old(log))
    {
      ok := true;
      if auto {
        var d := DecideNow(m, state, hour, power);
        if d.Err? {
          return false;
        }
        RecordDecision(d.value, power, nowTs);
      }
    }

    /** The edge-triggered write: the command and its record, only when the
        command differs from the last one written. */
    method RecordDecision(d: Verdict, power: bool, nowTs: int)
      modifies this
      ensures State() == DecisionWrites(old(State()), d, power, nowTs).state
      ensures log == old(log) + DecisionWrites(old(State()), d, power, nowTs).writes
    {
      var pump := d.pump;
      if lastPump.None? || pump != lastPump.value {
        var record := AiNow(pump, "auto", power, d.row, d.labels, d.headline, d.ruleLabels, nowTs);
        log := log + [SetPumpAuto(pump), SetAiNow(record)];
        lastPump := Some(pump);
      }
    }

    /** The forecast block, after the decision block left outcome `o`. */
    method ForecastStep(m: Models, state: Value, snap: Snapshot, ghost o: Outcome, ghost log0: seq<Write>)
      requires State() == o.state && log == log0 + o.writes
      modifies this
      ensures var f := ForecastHalf(o, ForecastStage(m, state, snap.nowMin, snap.telemetry, snap.nowTs), snap.nowTs);
              State() == f.state && log == log0 + f.writes
    {
      if snap.nowTs - lastForecastTs >= FORECAST_INTERVAL_SEC {
        var f := ForecastNow(m, state, snap.nowMin, snap.telemetry, snap.nowTs);
        if f.Err? {
          return;
        }
        log := log + f.value;
        lastForecastTs := snap.nowTs;
        ConcatAssoc(log0, o.writes, f.value);
      }
    }
  }

  /** The decision half of an iteration: row, model input, prediction,
      labels, command. */
  method DecideNow(m: Models, state: Value, hour: Hour, power: bool) returns (r: Result<Verdict>)
    ensures r == Decide(m, state, hour, power)
  {
    var row := BuildRowFromState(state, hour);
    if row.Err? {
      return Err(row.error);
    }
    var x := MakeXSingleStepFor(m.decision, row.value, m.decMeta);
    if x.Err? {
      return Err(x.error);
    }
    var pred := m.decide(x.value);
    var labels := DecodeMultioutputPrediction(pred, m.decMeta);
    if labels.Err? {
      return Err(labels.error);
    }
    var ruleLabels := RuleLabelsFromRow(row.value);
    var pump := InterpretDecisionToPump(pred, row.value, labels.value);
    if !power {
      pump := false;
    }
    return Ok(Verdict(pump, row.value, labels.value, HeadlineLabel(labels.value), ruleLabels));
  }

  /** The forecast half of an iteration: row, sequence input, trajectory,
      reading, writes. */
  method ForecastNow(m: Models, state: Value, nowMin: Minute, telemetry: Value, ts: int)
    returns (r: Result<seq<Write>>)
    ensures r == ForecastStage(m, state, nowMin, telemetry, ts)
  {
    var row := BuildRowFromState(state, nowMin / 60);
    if row.Err? {
      return Err(row.error);
    }
    var x := BuildXSequenceAsWritten(m.forecast, state, nowMin, m.forMeta, telemetry);
    if x.Err? {
      return Err(x.error);
    }
    var soilFuture, text, nextMin := InterpretForecastOutput(m.predict(x.value), SOIL_IRRIGATE_THRESHOLD);
    return Ok(ForecastWrites(soilFuture, text, nextMin, row.value, ts));
  }

  /** The writes of an iteration that name the pump. */
  predicate WritesPump(ws: seq<Write>) {
    exists i :: 0 <= i < |ws| && ws[i].SetPumpAuto?
  }

  predicate WritesForecast(ws: seq<Write>) {
    exists i :: 0 <= i < |ws| && ws[i].SetAiForecast?
  }

  /** What the forecast half writes when it succeeds: the forecast record,
      then the forecast controls. */
  predicate ForecastShaped(fc: Result<seq<Write>>) {
    fc.Ok? ==> |fc.value| == 2 && fc.value[0].SetAiForecast? && fc.value[1].SetForecastControls?
  }

  lemma ForecastStageShaped(m: Models, state: Value, nowMin: Minute, telemetry: Value, ts: int)
    ensures ForecastShaped(ForecastStage(m, state, nowMin, telemetry, ts))
  {
  }

  /** Whether the decision half of an iteration reaches its command. */
  predicate Decided(readable: bool, auto: bool, dec: Result<Verdict>) {
    readable && auto && dec.Ok?
  }

  /** The pump is written exactly when a command is reached that differs from
      the last one written; the write comes first, followed by its record,
      and the loop then remembers the command. */
  lemma {:induction false} IteratePump(s: LoopState, readable: bool, auto: bool, power: bool, dec: Result<Verdict>,
                                       fc: Result<seq<Write>>, nowTs: int)
    requires ForecastShaped(fc)
    ensures var o := Iterate(s, readable, auto, power, dec, fc, nowTs);
            && (WritesPump(o.writes) <==>
                  Decided(readable, auto, dec) && (s.lastPump.None? || s.lastPump.value != dec.value.pump))
            && (WritesPump(o.writes) ==>
                  |o.writes| >= 2 && o.writes[0] == SetPumpAuto(dec.value.pump)
                  && o.writes[1].SetAiNow? && o.writes[1].record.pumpAuto == dec.value.pump
                  && o.writes[1].record.power == power)
            && o.state.lastPump == (if Decided(readable, auto, dec) then Some(dec.value.pump) else s.lastPump)
  {
    var o := Iterate(s, readable, auto, power, dec, fc, nowTs);
    if readable && !(auto && dec.Err?) {
      var d := if auto then DecisionWrites(s, dec.value, power, nowTs) else Outcome(s, []);
      if d.writes != [] {
        assert d.writes[0].SetPumpAuto?;
      }
      if ForecastDue(d.state, nowTs) && fc.Ok? {
        assert o.writes == d.writes + fc.value;
        if WritesPump(o.writes) {
          var i :| 0 <= i < |o.writes| && o.writes[i].SetPumpAuto?;
          assert i < |d.writes|;
        }
        if WritesPump(d.writes) {
          assert o.writes[0] == d.writes[0];
        }
      }
    }
  }

  /** A forecast is published exactly when the iteration gets past its
      decision half, the forecast is due by the clock and the forecast half
      succeeds; only then the forecast time moves, to now. Otherwise the
      iteration's writes are those of its decision half alone. */
  lemma {:induction false} IterateForecast(s: LoopState, readable: bool, auto: bool, power: bool,
                                           dec: Result<Verdict>, fc: Result<seq<Write>>, nowTs: int)
    requires ForecastShaped(fc)
    ensures var o := Iterate(s, readable, auto, power, dec, fc, nowTs);
            var published := readable && (auto ==> dec.Ok?) && ForecastDue(s, nowTs) && fc.Ok?;
            && (WritesForecast(o.writes) <==> published)
            && o.state.lastForecastTs == (if published then nowTs else s.lastForecastTs)
  {
    if readable && !(auto && dec.Err?) {
      var d := if auto then DecisionWrites(s, dec.value, power, nowTs) else Outcome(s, []);
      DecisionHalfQuiet(s, auto, dec, power, nowTs);
      if ForecastDue(d.state, nowTs) && fc.Ok? {
        assert Iterate(s, readable, auto, power, dec, fc, nowTs).writes[|d.writes|] == fc.value[0];
      }
    }
  }

  /** The decision half leaves the forecast time alone and writes no forecast. */
  lemma DecisionHalfQuiet(s: LoopState, auto: bool, dec: Result<Verdict>, power: bool, nowTs: int)
    requires auto ==> dec.Ok?
    ensures var d := if auto then DecisionWrites(s, dec.value, power, nowTs) else Outcome(s, []);
            d.state.lastForecastTs == s.lastForecastTs && !WritesForecast(d.writes)
  {
  }

  /** A published forecast's two writes end the iteration's writes; an
      iteration that decides but publishes nothing writes only its decision. */
  lemma {:induction false} IterateForecastWrites(s: LoopState, readable: bool, auto: bool, power: bool,
                                                 dec: Result<Verdict>, fc: Result<seq<Write>>, nowTs: int)
    requires ForecastShaped(fc)
    ensures var o := Iterate(s, readable, auto, power, dec, fc, nowTs);
            var published := readable && (auto ==> dec.Ok?) && ForecastDue(s, nowTs) && fc.Ok?;
            && (published ==> |o.writes| >= 2 && o.writes[|o.writes| - 2..] == fc.value)
            && (!published && Decided(readable, auto, dec) ==> o.writes == DecisionWrites(s, dec.value, power, nowTs).writes)
  {
    if readable && !(auto && dec.Err?) {
      var d := if auto then DecisionWrites(s, dec.value, power, nowTs) else Outcome(s, []);
      DecisionHalfQuiet(s, auto, dec, power, nowTs);
      if ForecastDue(d.state, nowTs) && fc.Ok? {
        var w := Iterate(s, readable, auto, power, dec, fc, nowTs).writes;
        assert w == d.writes + fc.value;
        assert w[|w| - 2..] == fc.value;
      }
    }
  }

  /** The pump is written exactly when the controls are readable, the mode is
      automatic, the decision succeeds and its command differs from the last
      one written. */
  lemma PumpWrittenOnChange(s: LoopState, m: Models, snap: Snapshot)
    ensures var o := Tick(s, m, snap);
            var c := ControlEntries(snap.controls);
            var d := Decide(m, OrEmpty(snap.state), snap.nowMin / 60, PowerOn(c));
            && (WritesPump(o.writes) <==>
                  ControlsOf(snap.controls).Ok? && AutoMode(c) && d.Ok?
                  && (s.lastPump.None? || s.lastPump.value != d.value.pump))
            && (WritesPump(o.writes) ==> d.Ok? && |o.writes| >= 2 && o.writes[0] == SetPumpAuto(d.value.pump))
            && o.state.lastPump == (if ControlsOf(snap.controls).Ok? && AutoMode(c) && d.Ok?
                                    then Some(d.value.pump) else s.lastPump)
  {
    var c := ControlEntries(snap.controls);
    var state := OrEmpty(snap.state);
    ForecastStageShaped(m, state, snap.nowMin, snap.telemetry, snap.nowTs);
    IteratePump(s, ControlsOf(snap.controls).Ok?, AutoMode(c), PowerOn(c),
                Decide(m, state, snap.nowMin / 60, PowerOn(c)),
                ForecastStage(m, state, snap.nowMin, snap.telemetry, snap.nowTs), snap.nowTs);
  }

  /** With the power off, the loop never commands the pump on. */
  lemma PowerOffKeepsPumpOff(s: LoopState, m: Models, snap: Snapshot)
    requires !PowerOn(ControlEntries(snap.controls))
    ensures var o := Tick(s, m, snap);
            (WritesPump(o.writes) ==> o.writes[0] == SetPumpAuto(false))
            && (o.state.lastPump != s.lastPump ==> o.state.lastPump == Some(false))
  {
    PumpWrittenOnChange(s, m, snap);
  }

  /** Repeating an iteration on the same readings writes the pump at most
      once: the second iteration finds its command already written. */
  lemma RepeatedTickWritesPumpOnce(s: LoopState, m: Models, snap: Snapshot)
    ensures !WritesPump(Tick(Tick(s, m, snap).state, m, snap).writes)
  {
    var c := ControlEntries(snap.controls);
    var state := OrEmpty(snap.state);
    var d := Decide(m, state, snap.nowMin / 60, PowerOn(c));
    var fc := ForecastStage(m, state, snap.nowMin, snap.telemetry, snap.nowTs);
    ForecastStageShaped(m, state, snap.nowMin, snap.telemetry, snap.nowTs);
    IteratePump(s, ControlsOf(snap.controls).Ok?, AutoMode(c), PowerOn(c), d, fc, snap.nowTs);
    var s1 := Tick(s, m, snap).state;
    IteratePump(s1, ControlsOf(snap.controls).Ok?, AutoMode(c), PowerOn(c), d, fc, snap.nowTs);
  }

  /** A forecast is published exactly when it is due by the clock, the
      controls are readable, the decision half (in automatic mode) succeeds
      and the forecast half succeeds; only then the forecast time moves, to
      now. */
  lemma ForecastGate(s: LoopState, m: Models, snap: Snapshot)
    ensures var o := Tick(s, m, snap);
            var c := ControlEntries(snap.controls);
            var state := OrEmpty(snap.state);
            var published :=
              && ControlsOf(snap.controls).Ok?
              && (AutoMode(c) ==> Decide(m, state, snap.nowMin / 60, PowerOn(c)).Ok?)
              && ForecastDue(s, snap.nowTs)
              && ForecastStage(m, state, snap.nowMin, snap.telemetry, snap.nowTs).Ok?;
            && (WritesForecast(o.writes) <==> published)
            && o.state.lastForecastTs == (if published then snap.nowTs else s.lastForecastTs)
  {
    var c := ControlEntries(snap.controls);
    var state := OrEmpty(snap.state);
    ForecastStageShaped(m, state, snap.nowMin, snap.telemetry, snap.nowTs);
    IterateForecast(s, ControlsOf(snap.controls).Ok?, AutoMode(c), PowerOn(c),
                    Decide(m, state, snap.nowMin / 60, PowerOn(c)),
                    ForecastStage(m, state, snap.nowMin, snap.telemetry, snap.nowTs), snap.nowTs);
  }

  /** Two forecasts are at least `FORECAST_INTERVAL_SEC` seconds apart: after
      an iteration publishes one, an iteration within the interval publishes
      none. */
  lemma ForecastsSpaced(s: LoopState, m: Models, snap: Snapshot, next: Snapshot)
    requires WritesForecast(Tick(s, m, snap).writes)
    requires next.nowTs < snap.nowTs + FORECAST_INTERVAL_SEC
    ensures !WritesForecast(Tick(Tick(s, m, snap).state, m, next).writes)
  {
    ForecastGate(s, m, snap);
    ForecastGate(Tick(s, m, snap).state, m, next);
  }

  /** Outside automatic mode an iteration writes at most the forecast. */
  lemma IterateManual(s: LoopState, readable: bool, power: bool, dec: Result<Verdict>,
                      fc: Result<seq<Write>>, nowTs: int)
    requires ForecastShaped(fc)
    ensures var o := Iterate(s, readable, false, power, dec, fc, nowTs);
            o.state.lastPump == s.lastPump
            && forall i :: 0 <= i < |o.writes| ==> !o.writes[i].SetPumpAuto? && !o.writes[i].SetAiNow?
  {
    var o := Iterate(s, readable, false, power, dec, fc, nowTs);
    assert o.writes == [] || o.writes == fc.value;
  }

  /** In manual mode the pump is left alone and no decision is recorded. */
  lemma ManualModeWritesNoDecision(s: LoopState, m: Models, snap: Snapshot)
    requires !AutoMode(ControlEntries(snap.controls))
    ensures var o := Tick(s, m, snap);
            o.state.lastPump == s.lastPump
            && forall i :: 0 <= i < |o.writes| ==> !o.writes[i].SetPumpAuto? && !o.writes[i].SetAiNow?
  {
    var c := ControlEntries(snap.controls);
    var state := OrEmpty(snap.state);
    ForecastStageShaped(m, state, snap.nowMin, snap.telemetry, snap.nowTs);
    IterateManual(s, ControlsOf(snap.controls).Ok?, PowerOn(c), Decide(m, state, snap.nowMin / 60, PowerOn(c)),
                  ForecastStage(m, state, snap.nowMin, snap.telemetry, snap.nowTs), snap.nowTs);
  }

  lemma ButuhAirNormalized()
    ensures Normalized("butuh_air") == "butuh_air"
  {
    var s := "butuh_air";
    assert !IsSpace(s[0]) && !IsSpace(s[|s| - 1]);
    assert StripLeft(s) == s;
    assert StripRight(s) == s;
    var l := Lower(s);
    assert forall i :: 0 <= i < |s| ==> l[i] == LowerChar(s[i]) == s[i];
    assert l == s;
  }

  /** The rendered output "butuh_air" reads as the legacy label of a dry soil. */
  lemma ButuhAirWaters()
    ensures LegacyDecision("butuh_air") == Some(true)
  {
    ButuhAirNormalized();
    ButuhAirKeyWaters();
  }

  /** "butuh_air" is the first legacy key found in "butuh_air". */
  lemma ButuhAirKeyWaters()
    ensures FirstKeyIn(LABEL_MAP, "butuh_air") == Some(true)
  {
    ButuhAirFirstKey();
    FirstKeyInAt(LABEL_MAP, "butuh_air", 1);
  }

  /** Of the legacy keys, "kurang_air" does not occur in "butuh_air" and
      "butuh_air" does. */
  lemma ButuhAirFirstKey()
    ensures !Contains("butuh_air", LABEL_MAP[0].0)
    ensures Contains("butuh_air", LABEL_MAP[1].0)
  {
    assert OccursAt("butuh_air", LABEL_MAP[1].0, 0);
  }

  /** With no soil label and the rendered output "butuh_air", the command is
      to water, whatever the row. */
  lemma ButuhAirOutputWaters(row: Row)
    ensures var pred := Prediction(None, "butuh_air", Ok("butuh_air"));
            DecodedLabels(pred, map[]).Ok? && InterpretDecisionToPump(pred, row, DecodedLabels(pred, map[]).value)
  {
    var pred := Prediction(None, "butuh_air", Ok("butuh_air"));
    var labels := DecodedLabels(pred, map[]).value;
    assert labels == map["label" := "butuh_air"];
    assert "label_soil" !in labels;
    assert SoilLabelDecision(labels).None?;
    ButuhAirWaters();
  }

  /** A decision model that only ever outputs "butuh_air" commands water for
      any state whose row it can be fed. */
  lemma DecideButuhAir(m: Models, state: Value, hour: Hour)
    requires m.decMeta == map[]
    requires forall x :: m.decide(x) == Prediction(None, "butuh_air", Ok("butuh_air"))
    requires Decide(m, state, hour, true).Ok?
    ensures Decide(m, state, hour, true).value.pump
  {
    var row := BuildRowFromState(state, hour).value;
    ButuhAirOutputWaters(row);
  }

  /** From the initial state, the first command reached is written. */
  lemma FirstCommandWritten(m: Models, snap: Snapshot)
    requires ControlsOf(snap.controls).Ok? && AutoMode(ControlEntries(snap.controls))
    requires Decide(m, OrEmpty(snap.state), snap.nowMin / 60, PowerOn(ControlEntries(snap.controls))).Ok?
    ensures var d := Decide(m, OrEmpty(snap.state), snap.nowMin / 60, PowerOn(ControlEntries(snap.controls))).value;
            var o := Tick(INITIAL, m, snap);
            |o.writes| >= 2 && o.writes[0] == SetPumpAuto(d.pump) && o.state.lastPump == Some(d.pump)
  {
    PumpWrittenOnChange(INITIAL, m, snap);
  }

  /** Reference scenario: in automatic mode with power on, a device state
      whose row can be built and a decision model without declared columns
      whose only output is "butuh_air", the first iteration switches the
      pump on. */
  lemma ScenarioPumpOn(m: Models, snap: Snapshot)
    requires m.decision.featureNames.None? && m.decMeta == map[]
    requires forall x :: m.decide(x) == Prediction(None, "butuh_air", Ok("butuh_air"))
    requires snap.controls == Dict([("mode", Str("auto")), ("power", Bool(true))])
    requires BuildRowFromState(OrEmpty(snap.state), snap.nowMin / 60).Ok?
    ensures var o := Tick(INITIAL, m, snap);
            |o.writes| >= 2 && o.writes[0] == SetPumpAuto(true) && o.state.lastPump == Some(true)
  {
    ScenarioControls();
    ScenarioDecision(m, OrEmpty(snap.state), snap.nowMin / 60);
    FirstWateringWritten(m, snap);
  }

  /** From the initial state, with power on and a decision to water, the
      first iteration switches the pump on. */
  lemma FirstWateringWritten(m: Models, snap: Snapshot)
    requires ControlsOf(snap.controls).Ok? && AutoMode(ControlEntries(snap.controls))
    requires PowerOn(ControlEntries(snap.controls))
    requires Decide(m, OrEmpty(snap.state), snap.nowMin / 60, true).Ok?
    requires Decide(m, OrEmpty(snap.state), snap.nowMin / 60, true).value.pump
    ensures var o := Tick(INITIAL, m, snap);
            |o.writes| >= 2 && o.writes[0] == SetPumpAuto(true) && o.state.lastPump == Some(true)
  {
    FirstCommandWritten(m, snap);
  }

  /** The scenario's controls: readable, automatic, power on. */
  lemma ScenarioControls()
    ensures var v := Dict([("mode", Str("auto")), ("power", Bool(true))]);
            ControlsOf(v).Ok? && AutoMode(ControlEntries(v)) && PowerOn(ControlEntries(v))
  {
    var controls := [("mode", Str("auto")), ("power", Bool(true))];
    assert Lower("auto") == "auto";
    assert ControlEntries(Dict(controls)) == controls;
  }

  /** The scenario's decision: reached, and to water. */
  lemma ScenarioDecision(m: Models, state: Value, hour: Hour)
    requires m.decision.featureNames.None? && m.decMeta == map[]
    requires forall x :: m.decide(x) == Prediction(None, "butuh_air", Ok("butuh_air"))
    requires BuildRowFromState(state, hour).Ok?
    ensures Decide(m, state, hour, true).Ok? && Decide(m, state, hour, true).value.pump
  {
    FallbackOnShapedRow(m.decision.nFeatures, BuildRowFromState(state, hour).value);
    DecideButuhAir(m, state, hour);
  }

  /** The reference scenario on the reference device state: from the initial
      state the first iteration switches the pump on. */
  lemma ScenarioSoilForty(m: Models, snap: Snapshot)
    requires m.decision.featureNames.None? && m.decMeta == map[]
    requires forall x :: m.decide(x) == Prediction(None, "butuh_air", Ok("butuh_air"))
    requires snap.controls == Dict([("mode", Str("auto")), ("power", Bool(true))])
    requires snap.state == SCENARIO_STATE
    ensures var o := Tick(INITIAL, m, snap);
            |o.writes| >= 2 && o.writes[0] == SetPumpAuto(true) && o.state.lastPump == Some(true)
  {
    ScenarioRow(snap.nowMin / 60);
    ScenarioPumpOn(m, snap);
  }
}
