/** Reading the forecast model's soil-moisture trajectory: when the soil
    first falls below the threshold, and the text the app shows for it. */
module Forecast {
  import opened Base
  import opened Config

  /** The first row of the forecast model's output: an array or list of
      predicted soil moisture values (flattened), or a single number. */
  datatype ForecastOutput = Values(xs: seq<real>) | Scalar(x: real)

  /** The predicted trajectory, one value per step. */
  function SoilFuture(y: ForecastOutput): (s: seq<real>)
    ensures y.Values? ==> s == y.xs
    ensures y.Scalar? ==> s == [y.x]
  {
    match y
    case Values(xs) => xs
    case Scalar(x) => [x]
  }

  /** The first step whose value is below the threshold. */
  function FirstBelow(s: seq<real>, threshold: real): (r: Option<nat>)
    ensures r.Some? ==> r.value < |s| && s[r.value] < threshold
                        && forall j :: 0 <= j < r.value ==> s[j] >= threshold
    ensures r.None? ==> forall j :: 0 <= j < |s| ==> s[j] >= threshold
  {
    if s == [] then None
    else if s[0] < threshold then Some(0)
    else
      match FirstBelow(s[1..], threshold)
      case None => None
      case Some(k) => Some(k + 1)
  }

  /** The two facts the ensures of `FirstBelow` state determine it. */
  lemma FirstBelowUnique(s: seq<real>, threshold: real, idx: Option<nat>)
    requires idx.None? ==> forall j :: 0 <= j < |s| ==> s[j] >= threshold
    requires idx.Some? ==> idx.value < |s| && s[idx.value] < threshold
                           && forall j :: 0 <= j < idx.value ==> s[j] >= threshold
    ensures idx == FirstBelow(s, threshold)
  {
    var r := FirstBelow(s, threshold);
    if r.Some? && idx.Some? {
      assert !(r.value < idx.value) && !(idx.value < r.value);
    }
  }

  /** Minutes covered by a trajectory of `n` steps (one step for a
      trajectory of one value or none). */
  function HorizonMinutes(n: nat): nat {
    if n > 1 then (n - 1) * STEP_MINUTES else STEP_MINUTES
  }

  /** `m / 60.0` rounded to tenths of an hour, as `%.1f` rounds it. */
  function HoursTenths(m: nat): (t: nat)
    ensures 6 * t - 3 <= m <= 6 * t + 2
  {
    (m + 3) / 6
  }

  /** `f"{m / 60.0:.1f}"`: whole hours, a point, one decimal. */
  function HoursText(m: nat): string {
    var t := HoursTenths(m);
    NatToString(t / 10) + "." + NatToString(t % 10)
  }

  function MinutesOf(idx: nat): (m: nat)
    ensures m % STEP_MINUTES == 0 && m / STEP_MINUTES == idx
  {
    idx * STEP_MINUTES
  }

  /** The text for a crossing index (or none) on a trajectory of `n` steps. */
  function ForecastText(idx: Option<nat>, n: nat): string {
    match idx
    case None => ">" + HoursText(HorizonMinutes(n)) + " jam (masih aman)"
    case Some(i) =>
      var m := MinutesOf(i);
      if m <= 0 then "sekarang"
      else if m < 60 then NatToString(m) + " menit lagi"
      else HoursText(m) + " jam lagi"
  }

  /** What the interpreter returns: the trajectory, its text and the minutes
      to the next irrigation, if any. */
  datatype ForecastReading = ForecastReading(soilFuture: seq<real>, text: string, nextMin: Option<nat>)

  function Interpret(y: ForecastOutput, threshold: real): ForecastReading {
    var s := SoilFuture(y);
    var idx := FirstBelow(s, threshold);
    ForecastReading(s, ForecastText(idx, |s|), match idx case None => None case Some(i) => Some(MinutesOf(i)))
  }

  /** The interpreter: scans the trajectory for the first value below the
      threshold and reports the minutes to it. */
  method InterpretForecastOutput(y: ForecastOutput, threshold: real)
    returns (soilFuture: seq<real>, text: string, nextMin: Option<nat>)
    ensures ForecastReading(soilFuture, text, nextMin) == Interpret(y, threshold)
    ensures soilFuture == SoilFuture(y)
    ensures nextMin.Some? ==>
              && nextMin.value % STEP_MINUTES == 0
              && var i := nextMin.value / STEP_MINUTES;
                 i < |soilFuture| && soilFuture[i] < threshold
                 && forall j :: 0 <= j < i ==> soilFuture[j] >= threshold
    ensures nextMin.None? <==> forall j :: 0 <= j < |soilFuture| ==> soilFuture[j] >= threshold
  {
    soilFuture := match y case Values(xs) => xs case Scalar(x) => [x];
    var idx: Option<nat> := None;
    var i := 0;
    while i < |soilFuture|
      invariant 0 <= i <= |soilFuture|
      invariant idx.None?
      invariant forall j :: 0 <= j < i ==> soilFuture[j] >= threshold
    {
      if soilFuture[i] < threshold {
        idx := Some(i);
        break;
      }
      i := i + 1;
    }
    FirstBelowUnique(soilFuture, threshold, idx);
    text := ForecastText(idx, |soilFuture|);
    nextMin := match idx case None => None case Some(k) => Some(MinutesOf(k));
  }

  /** The text tells the three situations apart: "sekarang" exactly when the
      first value is already below, a minute count when the crossing is
      within the hour, and otherwise hours. */
  lemma ForecastTextCases(idx: Option<nat>, n: nat)
    ensures ForecastText(idx, n) == "sekarang" <==> idx == Some(0)
    ensures idx.Some? && 0 < MinutesOf(idx.value) < 60 ==>
              ForecastText(idx, n) == NatToString(MinutesOf(idx.value)) + " menit lagi"
    ensures idx.None? ==> ForecastText(idx, n)[0] == '>'
    ensures idx.None? && n > 1 ==> ForecastText(idx, n) == ">" + HoursText(MinutesOf(n - 1)) + " jam (masih aman)"
    ensures idx.None? && n <= 1 ==> ForecastText(idx, n) == ">" + HoursText(STEP_MINUTES) + " jam (masih aman)"
    ensures idx.Some? && MinutesOf(idx.value) >= 60 ==>
              ForecastText(idx, n) == HoursText(MinutesOf(idx.value)) + " jam lagi"
  {
    var t := ForecastText(idx, n);
    if idx != Some(0) {
      assert t[0] != 's' by {
        match idx
        case None =>
        case Some(i) =>
          var m := MinutesOf(i);
          if m < 60 {
            assert t[0] == NatToString(m)[0];
          } else {
            assert t[0] == NatToString(HoursTenths(m) / 10)[0];
          }
      }
    }
  }

  /** A trajectory of [65, 62, 58, 50] crosses 60 at its third step, twenty
      minutes ahead. */
  lemma DecreasingTrajectoryExample()
    ensures Interpret(Values([65.0, 62.0, 58.0, 50.0]), SOIL_IRRIGATE_THRESHOLD)
            == ForecastReading([65.0, 62.0, 58.0, 50.0], "20 menit lagi", Some(20))
  {
    var s := [65.0, 62.0, 58.0, 50.0];
    assert FirstBelow(s, 60.0) == Some(2);
    assert NatToString(20) == "20" by {
      assert NatToString(2) == "2";
    }
  }

  /** A trajectory of [70, 68, 66, 64] stays above 60 over its thirty
      minutes: the text names half an hour and no irrigation is due. */
  lemma SafeTrajectoryExample()
    ensures Interpret(Values([70.0, 68.0, 66.0, 64.0]), SOIL_IRRIGATE_THRESHOLD)
            == ForecastReading([70.0, 68.0, 66.0, 64.0], ">0.5 jam (masih aman)", None)
  {
    var s := [70.0, 68.0, 66.0, 64.0];
    assert FirstBelow(s, 60.0) == None;
    assert HorizonMinutes(|s|) == 30;
    HalfHourText();
  }

  lemma HalfHourText()
    ensures HoursText(30) == "0.5"
  {
    assert HoursTenths(30) == 5;
    assert NatToString(0) == "0" && NatToString(5) == "5";
  }

  /** A scalar output of 70 is a one-step trajectory above 60: the text
      names the single step's ten minutes as a fifth of an hour. */
  lemma ScalarOutputExample()
    ensures Interpret(Scalar(70.0), SOIL_IRRIGATE_THRESHOLD) == ForecastReading([70.0], ">0.2 jam (masih aman)", None)
  {
    var s := SoilFuture(Scalar(70.0));
    assert s == [70.0];
    assert FirstBelow(s, 60.0) == None;
    TenMinuteText();
    assert ForecastText(None, 1) == ">0.2 jam (masih aman)";
  }

  lemma TenMinuteText()
    ensures HoursText(10) == "0.2"
  {
    assert HoursTenths(10) == 2;
    assert NatToString(0) == "0" && NatToString(2) == "2";
  }

  /** The lowest value of a non-empty trajectory (`min`). */
  function SeqMin(s: seq<real>): (m: real)
    requires s != []
    ensures m in s && forall j :: 0 <= j < |s| ==> m <= s[j]
  {
    if |s| == 1 then s[0]
    else
      var r := SeqMin(s[1..]);
      assert forall j :: 1 <= j < |s| ==> s[j] == s[1..][j - 1];
      if s[0] <= r then s[0] else r
  }
}
