/** The short-horizon rainfall risk classifier: the next two hours of an
    hourly forecast are reduced to their worst-case probability of
    precipitation and rainfall, which decide between a heavy alert, a
    moderate alert and none. The forecast request itself is not modelled;
    its hourly list is the input. */
module RainfallService {
  import opened Wrappers

  /** One hour of the forecast: `dt`, `pop` (a fraction, may be absent),
      `rain['1h']` (millimetres, absent when no rain is forecast), `temp`
      and `weather[0]?.description`. */
  datatype Hour = Hour(dt: int, pop: Option<real>, rain1h: Option<real>, temp: real, description: Option<string>)

  /** `alertLevel`: 'none', 'moderate' or 'heavy'. */
  datatype Level = NoAlert | Moderate | Heavy

  /** One entry of the returned `forecast` list. */
  datatype ForecastPoint = ForecastPoint(dt: int, popPercent: real, rainfallMm: real, temp: int, description: string)

  /** `message`: empty, or the headline followed by the two maxima. */
  datatype AlertMessage = NoMessage | RainfallExpected(headline: string, popPercent: real, rainfallMm: real)

  /** The returned object: `{hasAlert: false}` alone for an empty or
      missing list, otherwise the full analysis. */
  datatype Analysis =
    | NoForecast
    | Analysis(hasAlert: bool, alertLevel: Level, alertType: string, message: AlertMessage,
               maxPop: real, maxRainfall: real, forecast: seq<ForecastPoint>)

  /** `(hour.pop || 0) * 100`. */
  function PopPercent(h: Hour): real
  {
    h.pop.GetOr(0.0) * 100.0
  }

  /** `hour.rain?.['1h'] || 0`. */
  function RainfallMm(h: Hour): real
  {
    h.rain1h.GetOr(0.0)
  }

  /** `hourlyData.slice(0, 2)`. */
  function Window(hours: seq<Hour>): (w: seq<Hour>)
    ensures |w| == if |hours| < 2 then |hours| else 2
    ensures w <= hours
  {
    if |hours| <= 2 then hours else hours[..2]
  }

  /** The running maximum of the probability, started at 0. */
  function MaxPop(hours: seq<Hour>): (m: real)
    ensures m >= 0.0
    ensures forall k :: 0 <= k < |hours| ==> PopPercent(hours[k]) <= m
    ensures m == 0.0 || exists k :: 0 <= k < |hours| && PopPercent(hours[k]) == m
  {
    if hours == [] then 0.0
    else
      var prev := MaxPop(hours[..|hours| - 1]);
      var last := PopPercent(hours[|hours| - 1]);
      assert forall k :: 0 <= k < |hours| - 1 ==> hours[..|hours| - 1][k] == hours[k];
      if last > prev then last else prev
  }

  /** The running maximum of the rainfall, started at 0. */
  function MaxRainfall(hours: seq<Hour>): (m: real)
    ensures m >= 0.0
    ensures forall k :: 0 <= k < |hours| ==> RainfallMm(hours[k]) <= m
    ensures m == 0.0 || exists k :: 0 <= k < |hours| && RainfallMm(hours[k]) == m
  {
    if hours == [] then 0.0
    else
      var prev := MaxRainfall(hours[..|hours| - 1]);
      var last := RainfallMm(hours[|hours| - 1]);
      assert forall k :: 0 <= k < |hours| - 1 ==> hours[..|hours| - 1][k] == hours[k];
      if last > prev then last else prev
  }

  /** The thresholds, strict on both axes, heavy tested first. */
  function Classify(maxPop: real, maxRainfall: real): Level
  {
    if maxPop > 80.0 && maxRainfall > 2.0 then Heavy
    else if maxPop > 60.0 && maxRainfall > 0.5 then Moderate
    else NoAlert
  }

  function AlertType(level: Level): string
  {
    match level
    case Heavy => "Heavy Rainfall Alert"
    case Moderate => "Moderate Rainfall Alert"
    case NoAlert => ""
  }

  function Message(level: Level, maxPop: real, maxRainfall: real): AlertMessage
  {
    match level
    case Heavy => RainfallExpected("Heavy rainfall expected!", maxPop, maxRainfall)
    case Moderate => RainfallExpected("Moderate rainfall expected.", maxPop, maxRainfall)
    case NoAlert => NoMessage
  }

  /** `Math.round`: halves round up. */
  function Round(x: real): int
  {
    (x + 0.5).Floor
  }

  /** One entry of `forecast`: `hour.weather[0]?.description || 'N/A'`
      replaces a missing or empty description. */
  function Project(h: Hour): ForecastPoint
  {
    var description := if h.description.None? || h.description.value == "" then "N/A" else h.description.value;
    ForecastPoint(h.dt, PopPercent(h), RainfallMm(h), Round(h.temp), description)
  }

  /** The analysis of a forecast list, as a function. */
  function Analyze(hourlyData: Option<seq<Hour>>): Analysis
  {
    if hourlyData.None? || |hourlyData.value| == 0 then NoForecast
    else
      var w := Window(hourlyData.value);
      var p, r := MaxPop(w), MaxRainfall(w);
      var level := Classify(p, r);
      Analysis(level != NoAlert, level, AlertType(level), Message(level, p, r), p, r,
               seq(|w|, k requires 0 <= k < |w| => Project(w[k])))
  }

  /** `analyzeRainfallForecast`: the `forEach` over the first two hours
      keeps the two maxima, then the level and its texts are chosen. */
  method AnalyzeRainfallForecast(hourlyData: Option<seq<Hour>>) returns (a: Analysis)
    ensures hourlyData.None? || hourlyData.value == [] ==> a == NoForecast
    ensures hourlyData.Some? && hourlyData.value != [] ==>
              && a.Analysis?
              && a.maxPop == MaxPop(Window(hourlyData.value))
              && a.maxRainfall == MaxRainfall(Window(hourlyData.value))
              && (a.alertLevel == Heavy <==> a.maxPop > 80.0 && a.maxRainfall > 2.0)
              && (a.alertLevel == Moderate <==> !(a.maxPop > 80.0 && a.maxRainfall > 2.0) && a.maxPop > 60.0 && a.maxRainfall > 0.5)
              && (a.alertLevel == NoAlert ==> a.alertType == "" && a.message == NoMessage)
              && (a.hasAlert <==> a.alertLevel != NoAlert)
              && |a.forecast| == (if |hourlyData.value| < 2 then |hourlyData.value| else 2)
              && (forall k :: 0 <= k < |a.forecast| ==> a.forecast[k] == Project(hourlyData.value[k]))
    ensures a == Analyze(hourlyData)
  {
    if hourlyData.None? || |hourlyData.value| == 0 {
      return NoForecast;
    }
    var next2Hours := Window(hourlyData.value);
    var maxPop, maxRainfall := 0.0, 0.0;
    var i := 0;
    while i < |next2Hours|
      invariant 0 <= i <= |next2Hours|
      invariant maxPop == MaxPop(next2Hours[..i])
      invariant maxRainfall == MaxRainfall(next2Hours[..i])
    {
      assert next2Hours[..i + 1][..i] == next2Hours[..i];
      var pop := PopPercent(next2Hours[i]);
      var rainfall := RainfallMm(next2Hours[i]);
      if pop > maxPop { maxPop := pop; }
      if rainfall > maxRainfall { maxRainfall := rainfall; }
      i := i + 1;
    }
    assert next2Hours[..i] == next2Hours;
    var alertLevel := NoAlert;
    var alertType := "";
    var message := NoMessage;
    if maxPop > 80.0 && maxRainfall > 2.0 {
      alertLevel := Heavy;
      alertType := "Heavy Rainfall Alert";
      message := RainfallExpected("Heavy rainfall expected!", maxPop, maxRainfall);
    } else if maxPop > 60.0 && maxRainfall > 0.5 {
      alertLevel := Moderate;
      alertType := "Moderate Rainfall Alert";
      message := RainfallExpected("Moderate rainfall expected.", maxPop, maxRainfall);
    }
    var forecast := seq(|next2Hours|, k requires 0 <= k < |next2Hours| => Project(next2Hours[k]));
    a := Analysis(alertLevel != NoAlert, alertLevel, alertType, message, maxPop, maxRainfall, forecast);
    assert a == Analyze(hourlyData);
    AnalyzeMeaning(hourlyData.value);
  }

  /** What the analysis of a non-empty list says: the maxima of the first
      two hours, the level their thresholds select, and the projected hours. */
  lemma AnalyzeMeaning(hours: seq<Hour>)
    requires hours != []
    ensures var a := Analyze(Some(hours));
            && a.Analysis?
            && a.maxPop == MaxPop(Window(hours))
            && a.maxRainfall == MaxRainfall(Window(hours))
            && (a.alertLevel == Heavy <==> a.maxPop > 80.0 && a.maxRainfall > 2.0)
            && (a.alertLevel == Moderate <==> !(a.maxPop > 80.0 && a.maxRainfall > 2.0) && a.maxPop > 60.0 && a.maxRainfall > 0.5)
            && (a.alertLevel == NoAlert ==> a.alertType == "" && a.message == NoMessage)
            && (a.hasAlert <==> a.alertLevel != NoAlert)
            && |a.forecast| == (if |hours| < 2 then |hours| else 2)
            && (forall k :: 0 <= k < |a.forecast| ==> a.forecast[k] == Project(hours[k]))
  {
    var w := Window(hours);
    assert forall k :: 0 <= k < |w| ==> w[k] == hours[k];
  }

  // ---------------------------------------------------------------------
  // properties

  /** Only the first two hours count: lists that agree on them (and both
      have at least two) are analysed identically. */
  lemma WindowTruncation(xs: seq<Hour>, ys: seq<Hour>)
    requires |xs| >= 2 && |ys| >= 2 && xs[..2] == ys[..2]
    ensures Analyze(Some(xs)) == Analyze(Some(ys))
  {
    assert Window(xs) == Window(ys);
  }

  /** Appending hours to a list never changes its analysis once it has two. */
  lemma LaterHoursIgnored(xs: seq<Hour>, extra: seq<Hour>)
    requires |xs| >= 2
    ensures Analyze(Some(xs + extra)) == Analyze(Some(xs))
  {
    assert (xs + extra)[..2] == xs[..2];
  }

  /** The severity rank of a level. */
  function Severity(l: Level): nat
  {
    match l
    case NoAlert => 0
    case Moderate => 1
    case Heavy => 2
  }

  /** Raising either maximum never lowers the level. */
  lemma ClassifyMonotone(p: real, r: real, p2: real, r2: real)
    requires p <= p2 && r <= r2
    ensures Severity(Classify(p, r)) <= Severity(Classify(p2, r2))
  {
  }

  /** Every threshold is strict: a probability of exactly 80% or a
      rainfall of exactly 2 mm/h is never heavy, and a probability of
      exactly 60% or a rainfall of exactly 0.5 mm/h is never an alert,
      whatever the other maximum; just above 80% and 2 mm/h is heavy. */
  lemma StrictThresholds(pop: real, rain: real)
    ensures Classify(80.0, rain) != Heavy && Classify(pop, 2.0) != Heavy
    ensures Classify(60.0, rain) == NoAlert && Classify(pop, 0.5) == NoAlert
    ensures Classify(80.0, 2.0) == Moderate
    ensures Classify(80.01, 2.01) == Heavy
  {
  }

  /** The worst hour drives the alert: 85% with 3 mm/h followed by 50% with
      0.2 mm/h is a heavy alert with maxima 85 and 3. */
  lemma WorstHourDrives()
    ensures var a := Analyze(Some([Hour(0, Some(0.85), Some(3.0), 20.0, None),
                                   Hour(3600, Some(0.5), Some(0.2), 19.0, None)]));
            a.Analysis? && a.hasAlert && a.alertLevel == Heavy && a.maxPop == 85.0 && a.maxRainfall == 3.0
  {
    var h0 := Hour(0, Some(0.85), Some(3.0), 20.0, None);
    var h1 := Hour(3600, Some(0.5), Some(0.2), 19.0, None);
    assert [h0, h1][..1] == [h0];
    assert MaxPop([h0]) == 85.0;
    assert MaxRainfall([h0]) == 3.0;
  }

  /** A single hour at 65% and 0.6 mm/h is a moderate alert. */
  lemma SingleHourModerate()
    ensures Analyze(Some([Hour(0, Some(0.65), Some(0.6), 20.0, None)])).alertLevel == Moderate
  {
    var h := Hour(0, Some(0.65), Some(0.6), 20.0, None);
    assert [h][..0] == [];
  }
}
