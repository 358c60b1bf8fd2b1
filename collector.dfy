/** The Prometheus collector of collector.go: the state the WebSocket and REST
    paths write into, the five writers, and the metrics a scrape emits from a
    snapshot of that state. */
module Metrics {
  import opened Wrappers
  import opened Tempest

  /** The metric descriptors, in the order of collector.go's allDescs. */
  datatype MetricName =
    | DescWindLull | DescWindAvg | DescWindGust | DescWindDirection
    | DescStationPressure | DescAirTemperature | DescRelativeHumidity
    | DescIlluminance | DescUV | DescSolarRadiation | DescRainAccumulated
    | DescPrecipitationType | DescLightningStrikeAvgDist | DescLightningStrikeCount
    | DescBattery | DescDewPoint | DescFeelsLike | DescRainStartEpoch
    | DescUp | DescReconnects | DescLastObservation | DescScrapeErrors
  {
    /** The exposed metric name. */
    function Name(): string
    {
      match this
      case DescWindLull => "tempest_wind_lull_meters_per_second"
      case DescWindAvg => "tempest_wind_speed_meters_per_second"
      case DescWindGust => "tempest_wind_gust_meters_per_second"
      case DescWindDirection => "tempest_wind_direction_degrees"
      case DescStationPressure => "tempest_station_pressure_millibars"
      case DescAirTemperature => "tempest_air_temperature_celsius"
      case DescRelativeHumidity => "tempest_relative_humidity_percent"
      case DescIlluminance => "tempest_illuminance_lux"
      case DescUV => "tempest_uv_index"
      case DescSolarRadiation => "tempest_solar_radiation_watts"
      case DescRainAccumulated => "tempest_precipitation_millimeters"
      case DescPrecipitationType => "tempest_precipitation_type"
      case DescLightningStrikeAvgDist => "tempest_lightning_strike_distance_kilometers"
      case DescLightningStrikeCount => "tempest_lightning_strike_count"
      case DescBattery => "tempest_battery_volts"
      case DescDewPoint => "tempest_dew_point_celsius"
      case DescFeelsLike => "tempest_feels_like_temperature_celsius"
      case DescRainStartEpoch => "tempest_rain_start_epoch_seconds"
      case DescUp => "tempest_up"
      case DescReconnects => "tempest_websocket_reconnects_total"
      case DescLastObservation => "tempest_last_observation_timestamp_seconds"
      case DescScrapeErrors => "tempest_scrape_errors_total"
    }
  }

  /** Every descriptor Describe announces. */
  const AllDescs: seq<MetricName> := [
    DescWindLull, DescWindAvg, DescWindGust, DescWindDirection,
    DescStationPressure, DescAirTemperature,
    DescRelativeHumidity, DescIlluminance, DescUV, DescSolarRadiation,
    DescRainAccumulated, DescPrecipitationType, DescLightningStrikeAvgDist,
    DescLightningStrikeCount, DescBattery,
    DescDewPoint, DescFeelsLike, DescRainStartEpoch,
    DescUp, DescReconnects, DescLastObservation, DescScrapeErrors]

  datatype ValueType = Gauge | Counter

  /** One const metric: descriptor, value type, value and the two label values
      (station_id, station_name). */
  datatype Metric = Metric(name: MetricName, valueType: ValueType, value: Float, labels: seq<string>)

  /** What the collector holds under its lock. The two counters are float64 in
      the source and only ever incremented by one. */
  datatype State = State(
    obs: Observation,
    hasObs: bool,
    connected: bool,
    reconnects: nat,
    scrapeErrors: nat,
    rainStart: Float)

  /** NewCollector's state: Go's zero values. */
  const Initial: State := State(ZeroObservation, false, false, 0, 0, Finite(0.0))

  /** The five writers of the collector. */
  datatype Update =
    | UpdateObservation(o: Observation)
    | SetConnected(connected: bool)
    | IncrReconnects
    | SetRainStart(epoch: Float)
    | IncrScrapeErrors

  /** The state after one writer. */
  function Apply(s: State, u: Update): State
  {
    match u
    case UpdateObservation(o) => s.(obs := o, hasObs := true)
    case SetConnected(b) => s.(connected := b)
    case IncrReconnects => s.(reconnects := s.reconnects + 1)
    case SetRainStart(e) => s.(rainStart := e)
    case IncrScrapeErrors => s.(scrapeErrors := s.scrapeErrors + 1)
  }

  /** The state after a sequence of writers, in order. */
  function ApplyAll(s: State, us: seq<Update>): State
    decreases |us|
  {
    if us == [] then s else ApplyAll(Apply(s, us[0]), us[1..])
  }

  function CountReconnects(us: seq<Update>): nat
  {
    if us == [] then 0 else (if us[0].IncrReconnects? then 1 else 0) + CountReconnects(us[1..])
  }

  function CountScrapeErrors(us: seq<Update>): nat
  {
    if us == [] then 0 else (if us[0].IncrScrapeErrors? then 1 else 0) + CountScrapeErrors(us[1..])
  }

  /** Index of the last observation update in us, if any. */
  function LastObservationUpdate(us: seq<Update>): (k: int)
    ensures -1 <= k < |us|
    ensures k >= 0 ==> us[k].UpdateObservation?
    ensures forall j :: k < j < |us| ==> !us[j].UpdateObservation?
  {
    if us == [] then -1
    else if us[|us| - 1].UpdateObservation? then |us| - 1
    else LastObservationUpdate(us[..|us| - 1])
  }

  /** Applying a concatenation is applying one part after the other. */
  lemma {:induction false} ApplyAllAppend(s: State, us: seq<Update>, vs: seq<Update>)
    ensures ApplyAll(s, us + vs) == ApplyAll(ApplyAll(s, us), vs)
    decreases |us|
  {
    if us != [] {
      assert (us + vs)[0] == us[0];
      assert (us + vs)[1..] == us[1..] + vs;
      ApplyAllAppend(Apply(s, us[0]), us[1..], vs);
    } else {
      assert us + vs == vs;
    }
  }

  /** The two counters count their increments and nothing else moves them. */
  lemma {:induction false} CountersCountIncrements(s: State, us: seq<Update>)
    ensures ApplyAll(s, us).reconnects == s.reconnects + CountReconnects(us)
    ensures ApplyAll(s, us).scrapeErrors == s.scrapeErrors + CountScrapeErrors(us)
    decreases |us|
  {
    if us != [] {
      CountersCountIncrements(Apply(s, us[0]), us[1..]);
    }
  }

  /** Once an observation is stored it stays stored, and hasObs holds exactly
      when one was stored before or by us; the stored observation is the one
      of the last update. */
  lemma {:induction false} LastObservationWins(s: State, us: seq<Update>)
    ensures ApplyAll(s, us).hasObs <==> s.hasObs || LastObservationUpdate(us) >= 0
    ensures LastObservationUpdate(us) >= 0 ==> ApplyAll(s, us).obs == us[LastObservationUpdate(us)].o
    ensures LastObservationUpdate(us) < 0 ==> ApplyAll(s, us).obs == s.obs
    decreases |us|
  {
    if us != [] {
      var init := us[..|us| - 1];
      var last := us[|us| - 1];
      assert us == init + [last];
      ApplyAllAppend(s, init, [last]);
      LastObservationWins(s, init);
    }
  }

  /** The connection flag is the one the last SetConnected wrote. */
  lemma {:induction false} ConnectedIsLastWritten(s: State, us: seq<Update>, b: bool)
    requires us != [] && us[|us| - 1] == SetConnected(b)
    ensures ApplyAll(s, us).connected == b
  {
    var init := us[..|us| - 1];
    assert us == init + [SetConnected(b)];
    ApplyAllAppend(s, init, [SetConnected(b)]);
  }

  // ---------------------------------------------------------------------------
  // Scrape

  /** Describe announces every descriptor. */
  lemma AllDescsComplete(n: MetricName)
    ensures n in AllDescs
  {
    match n
    case DescWindLull => assert AllDescs[0] == n;
    case DescWindAvg => assert AllDescs[1] == n;
    case DescWindGust => assert AllDescs[2] == n;
    case DescWindDirection => assert AllDescs[3] == n;
    case DescStationPressure => assert AllDescs[4] == n;
    case DescAirTemperature => assert AllDescs[5] == n;
    case DescRelativeHumidity => assert AllDescs[6] == n;
    case DescIlluminance => assert AllDescs[7] == n;
    case DescUV => assert AllDescs[8] == n;
    case DescSolarRadiation => assert AllDescs[9] == n;
    case DescRainAccumulated => assert AllDescs[10] == n;
    case DescPrecipitationType => assert AllDescs[11] == n;
    case DescLightningStrikeAvgDist => assert AllDescs[12] == n;
    case DescLightningStrikeCount => assert AllDescs[13] == n;
    case DescBattery => assert AllDescs[14] == n;
    case DescDewPoint => assert AllDescs[15] == n;
    case DescFeelsLike => assert AllDescs[16] == n;
    case DescRainStartEpoch => assert AllDescs[17] == n;
    case DescUp => assert AllDescs[18] == n;
    case DescReconnects => assert AllDescs[19] == n;
    case DescLastObservation => assert AllDescs[20] == n;
    case DescScrapeErrors => assert AllDescs[21] == n;
  }

  /** A float64 as exposed: a counter or a whole number of seconds. */
  function NatValue(n: int): Float { Finite(n as real) }

  /** emitGauge: a gauge, unless its value is NaN. */
  function EmitGauge(name: MetricName, value: Float, labels: seq<string>): seq<Metric>
  {
    if value.IsNaN() then [] else [Metric(name, Gauge, value, labels)]
  }

  /** How many gauges an observation feeds. */
  const GaugeCount: nat := 17

  /** The k-th gauge an observation feeds, in the order Collect emits them. */
  function GaugeName(k: nat): MetricName
    requires k < GaugeCount
  {
    match k
    case 0 => DescWindLull
    case 1 => DescWindAvg
    case 2 => DescWindGust
    case 3 => DescWindDirection
    case 4 => DescStationPressure
    case 5 => DescAirTemperature
    case 6 => DescRelativeHumidity
    case 7 => DescIlluminance
    case 8 => DescUV
    case 9 => DescSolarRadiation
    case 10 => DescRainAccumulated
    case 11 => DescPrecipitationType
    case 12 => DescLightningStrikeAvgDist
    case 13 => DescLightningStrikeCount
    case 14 => DescBattery
    case 15 => DescDewPoint
    case _ => DescFeelsLike
  }

  /** Position of a descriptor among the observation gauges; -1 for the
      health, timestamp and rain start descriptors. */
  function GaugeIndex(name: MetricName): int
  {
    match name
    case DescWindLull => 0
    case DescWindAvg => 1
    case DescWindGust => 2
    case DescWindDirection => 3
    case DescStationPressure => 4
    case DescAirTemperature => 5
    case DescRelativeHumidity => 6
    case DescIlluminance => 7
    case DescUV => 8
    case DescSolarRadiation => 9
    case DescRainAccumulated => 10
    case DescPrecipitationType => 11
    case DescLightningStrikeAvgDist => 12
    case DescLightningStrikeCount => 13
    case DescBattery => 14
    case DescDewPoint => 15
    case DescFeelsLike => 16
    case _ => -1
  }

  predicate IsObservationGauge(name: MetricName) { GaugeIndex(name) >= 0 }

  lemma GaugeIndexInverse(k: nat, name: MetricName)
    requires k < GaugeCount
    ensures GaugeIndex(GaugeName(k)) == k
    ensures GaugeIndex(name) == -1 || (GaugeIndex(name) < GaugeCount && GaugeName(GaugeIndex(name)) == name)
  {
  }

  /** The value an observation gives an observation gauge. */
  function GaugeValue(o: Observation, f: Formulas, name: MetricName): Float
  {
    match name
    case DescWindLull => o.windLull
    case DescWindAvg => o.windAvg
    case DescWindGust => o.windGust
    case DescWindDirection => o.windDirection
    case DescStationPressure => o.stationPressure
    case DescAirTemperature => o.airTemperature
    case DescRelativeHumidity => o.relativeHumidity
    case DescIlluminance => o.illuminance
    case DescUV => o.uv
    case DescSolarRadiation => o.solarRadiation
    case DescRainAccumulated => o.rainAccumulated
    case DescPrecipitationType => o.precipitationType
    case DescLightningStrikeAvgDist => o.lightningStrikeAvgDist
    case DescLightningStrikeCount => o.lightningStrikeCount
    case DescBattery => o.battery
    case DescDewPoint => DewPoint(o.airTemperature, o.relativeHumidity, f)
    case DescFeelsLike => FeelsLike(o.airTemperature, o.relativeHumidity, o.windAvg, f)
    case _ => NaN
  }

  /** The first n observation gauges, each emitted unless unknown. */
  function Gauges(n: nat, o: Observation, f: Formulas, labels: seq<string>): seq<Metric>
    requires n <= GaugeCount
  {
    if n == 0 then []
    else Gauges(n - 1, o, f, labels) + EmitGauge(GaugeName(n - 1), GaugeValue(o, f, GaugeName(n - 1)), labels)
  }

  /** The three health metrics, always emitted. */
  function Health(s: State, labels: seq<string>): seq<Metric>
  {
    [Metric(DescUp, Gauge, if s.connected then Finite(1.0) else Finite(0.0), labels),
     Metric(DescReconnects, Counter, NatValue(s.reconnects), labels),
     Metric(DescScrapeErrors, Counter, NatValue(s.scrapeErrors), labels)]
  }

  /** What one scrape of state s emits: the health metrics, then, once an
      observation exists, its timestamp, its known gauges and the rain start
      epoch if one was recorded. */
  function Exposition(s: State, labels: seq<string>, f: Formulas): seq<Metric>
  {
    Health(s, labels) + ObservationMetrics(s, labels, f)
  }

  function ObservationMetrics(s: State, labels: seq<string>, f: Formulas): seq<Metric>
  {
    if !s.hasObs then []
    else [LastObservationMetric(s, labels)] + Gauges(GaugeCount, s.obs, f, labels) + RainStartMetrics(s, labels)
  }

  function LastObservationMetric(s: State, labels: seq<string>): Metric
  {
    Metric(DescLastObservation, Gauge, NatValue(s.obs.timestamp), labels)
  }

  /** The rain start gauge, only for a positive epoch. */
  function RainStartMetrics(s: State, labels: seq<string>): seq<Metric>
  {
    if s.rainStart.Above(0.0) then EmitGauge(DescRainStartEpoch, s.rainStart, labels) else []
  }

  /** The first metric named name, if any. */
  function Find(ms: seq<Metric>, name: MetricName): Option<Metric>
  {
    if ms == [] then None
    else if ms[0].name == name then Some(ms[0])
    else Find(ms[1..], name)
  }

  /** What a lookup finds is a metric of the scrape with that name, and it
      finds nothing only when no metric carries the name. */
  lemma {:induction false} FindSound(ms: seq<Metric>, name: MetricName)
    ensures var r := Find(ms, name);
      (r.Some? ==> r.value in ms && r.value.name == name) &&
      (r.None? <==> forall m :: m in ms ==> m.name != name)
  {
    if ms != [] && ms[0].name != name {
      FindSound(ms[1..], name);
      assert forall m :: m in ms ==> m == ms[0] || m in ms[1..];
    }
  }

  predicate DistinctNames(ms: seq<Metric>)
  {
    forall i, j :: 0 <= i < j < |ms| ==> ms[i].name != ms[j].name
  }

  lemma {:induction false} FindAppend(a: seq<Metric>, b: seq<Metric>, name: MetricName)
    ensures Find(a + b, name) == if Find(a, name).Some? then Find(a, name) else Find(b, name)
    decreases |a|
  {
    if a != [] {
      assert (a + b)[1..] == a[1..] + b;
      FindAppend(a[1..], b, name);
    } else {
      assert a + b == b;
    }
  }

  /** A gauge among the first n is found exactly when its name is one of
      them and its value is known, and then it carries that value. */
  lemma {:induction false} FindGauges(n: nat, o: Observation, f: Formulas, labels: seq<string>, name: MetricName)
    requires n <= GaugeCount
    ensures Find(Gauges(n, o, f, labels), name)
         == if 0 <= GaugeIndex(name) < n && !GaugeValue(o, f, name).IsNaN()
            then Some(Metric(name, Gauge, GaugeValue(o, f, name), labels)) else None
  {
    if n > 0 {
      FindGauges(n - 1, o, f, labels, name);
      FindGaugesAt(n, o, f, labels, name);
    }
  }

  lemma FindGaugesAt(n: nat, o: Observation, f: Formulas, labels: seq<string>, name: MetricName)
    requires 0 < n <= GaugeCount
    requires Find(Gauges(n - 1, o, f, labels), name)
         == if 0 <= GaugeIndex(name) < n - 1 && !GaugeValue(o, f, name).IsNaN()
            then Some(Metric(name, Gauge, GaugeValue(o, f, name), labels)) else None
    ensures Find(Gauges(n, o, f, labels), name)
         == if 0 <= GaugeIndex(name) < n && !GaugeValue(o, f, name).IsNaN()
            then Some(Metric(name, Gauge, GaugeValue(o, f, name), labels)) else None
  {
    var last := GaugeName(n - 1);
    GaugeNameMatch(n - 1, name);
    FindGaugesStep(Gauges(n - 1, o, f, labels), last, GaugeValue(o, f, last), labels, name,
      GaugeIndex(name), n, GaugeValue(o, f, name));
  }

  lemma GaugeNameMatch(k: nat, name: MetricName)
    requires k < GaugeCount
    ensures GaugeName(k) == name <==> GaugeIndex(name) == k
  {
    GaugeIndexInverse(k, name);
  }

  /** Gluing the search over the first n - 1 gauges to the one over the n-th. */
  lemma FindGaugesStep(front: seq<Metric>, last: MetricName, lastValue: Float, labels: seq<string>,
                       name: MetricName, index: int, n: nat, value: Float)
    requires n > 0
    requires Find(front, name) == if 0 <= index < n - 1 && !value.IsNaN() then Some(Metric(name, Gauge, value, labels)) else None
    requires last == name <==> index == n - 1
    requires last == name ==> lastValue == value
    ensures Find(front + EmitGauge(last, lastValue, labels), name)
         == if 0 <= index < n && !value.IsNaN() then Some(Metric(name, Gauge, value, labels)) else None
  {
    FindAppend(front, EmitGauge(last, lastValue, labels), name);
  }

  /** The first n gauges carry observation-gauge names below n, none twice. */
  lemma {:induction false} GaugesNames(n: nat, o: Observation, f: Formulas, labels: seq<string>)
    requires n <= GaugeCount
    ensures forall m :: m in Gauges(n, o, f, labels) ==> 0 <= GaugeIndex(m.name) < n
    ensures DistinctNames(Gauges(n, o, f, labels))
  {
    if n > 0 {
      var last := GaugeName(n - 1);
      var front: seq<Metric> := Gauges(n - 1, o, f, labels);
      var back: seq<Metric> := EmitGauge(last, GaugeValue(o, f, last), labels);
      GaugesNames(n - 1, o, f, labels);
      GaugeIndexInverse(n - 1, last);
      assert forall m :: m in front + back <==> m in front || m in back;
      forall i, j | 0 <= i < j < |front + back|
        ensures (front + back)[i].name != (front + back)[j].name
      {
        if j >= |front| {
          assert (front + back)[i] in front;
        }
      }
    }
  }

  /** The first n observation gauges emitted after acc. */
  function GaugesOnto(acc: seq<Metric>, n: nat, o: Observation, f: Formulas, labels: seq<string>): seq<Metric>
    requires n <= GaugeCount
  {
    if n == 0 then acc
    else GaugesOnto(acc, n - 1, o, f, labels) + EmitGauge(GaugeName(n - 1), GaugeValue(o, f, GaugeName(n - 1)), labels)
  }

  lemma {:induction false} GaugesOntoAppend(acc: seq<Metric>, n: nat, o: Observation, f: Formulas, labels: seq<string>)
    requires n <= GaugeCount
    ensures GaugesOnto(acc, n, o, f, labels) == acc + Gauges(n, o, f, labels)
  {
    if n > 0 {
      GaugesOntoAppend(acc, n - 1, o, f, labels);
    }
  }

  /** The observation gauges, one emitGauge call after another, in the order
      Collect makes them. */
  lemma GaugesInOrder(acc: seq<Metric>, o: Observation, f: Formulas, labels: seq<string>)
    ensures acc + Gauges(GaugeCount, o, f, labels)
         == acc + EmitGauge(DescWindLull, o.windLull, labels)
       + EmitGauge(DescWindAvg, o.windAvg, labels)
       + EmitGauge(DescWindGust, o.windGust, labels)
       + EmitGauge(DescWindDirection, o.windDirection, labels)
       + EmitGauge(DescStationPressure, o.stationPressure, labels)
       + EmitGauge(DescAirTemperature, o.airTemperature, labels)
       + EmitGauge(DescRelativeHumidity, o.relativeHumidity, labels)
       + EmitGauge(DescIlluminance, o.illuminance, labels)
       + EmitGauge(DescUV, o.uv, labels)
       + EmitGauge(DescSolarRadiation, o.solarRadiation, labels)
       + EmitGauge(DescRainAccumulated, o.rainAccumulated, labels)
       + EmitGauge(DescPrecipitationType, o.precipitationType, labels)
       + EmitGauge(DescLightningStrikeAvgDist, o.lightningStrikeAvgDist, labels)
       + EmitGauge(DescLightningStrikeCount, o.lightningStrikeCount, labels)
       + EmitGauge(DescBattery, o.battery, labels)
       + EmitGauge(DescDewPoint, DewPoint(o.airTemperature, o.relativeHumidity, f), labels)
       + EmitGauge(DescFeelsLike, FeelsLike(o.airTemperature, o.relativeHumidity, o.windAvg, f), labels)
  {
    GaugesOntoAppend(acc, GaugeCount, o, f, labels);
    GaugesChunk1(acc, o, f, labels);
    GaugesChunk2(acc, o, f, labels);
    GaugesChunk3(acc, o, f, labels);
    GaugesChunk4(acc, o, f, labels);
    GaugesChunk5(acc, o, f, labels);
    GaugesChunk6(acc, o, f, labels);
  }

  lemma GaugesChunk1(acc: seq<Metric>, o: Observation, f: Formulas, labels: seq<string>)
    ensures GaugesOnto(acc, 4, o, f, labels)
         == acc
       + EmitGauge(DescWindLull, o.windLull, labels)
       + EmitGauge(DescWindAvg, o.windAvg, labels)
       + EmitGauge(DescWindGust, o.windGust, labels)
       + EmitGauge(DescWindDirection, o.windDirection, labels)
  {
    assert GaugesOnto(acc, 1, o, f, labels) == GaugesOnto(acc, 0, o, f, labels) + EmitGauge(DescWindLull, o.windLull, labels);
    assert GaugesOnto(acc, 2, o, f, labels) == GaugesOnto(acc, 1, o, f, labels) + EmitGauge(DescWindAvg, o.windAvg, labels);
    assert GaugesOnto(acc, 3, o, f, labels) == GaugesOnto(acc, 2, o, f, labels) + EmitGauge(DescWindGust, o.windGust, labels);
    assert GaugesOnto(acc, 4, o, f, labels) == GaugesOnto(acc, 3, o, f, labels) + EmitGauge(DescWindDirection, o.windDirection, labels);
  }

  lemma GaugesChunk2(acc: seq<Metric>, o: Observation, f: Formulas, labels: seq<string>)
    ensures GaugesOnto(acc, 8, o, f, labels)
         == GaugesOnto(acc, 4, o, f, labels)
       + EmitGauge(DescStationPressure, o.stationPressure, labels)
       + EmitGauge(DescAirTemperature, o.airTemperature, labels)
       + EmitGauge(DescRelativeHumidity, o.relativeHumidity, labels)
       + EmitGauge(DescIlluminance, o.illuminance, labels)
  {
    assert GaugesOnto(acc, 5, o, f, labels) == GaugesOnto(acc, 4, o, f, labels) + EmitGauge(DescStationPressure, o.stationPressure, labels);
    assert GaugesOnto(acc, 6, o, f, labels) == GaugesOnto(acc, 5, o, f, labels) + EmitGauge(DescAirTemperature, o.airTemperature, labels);
    assert GaugesOnto(acc, 7, o, f, labels) == GaugesOnto(acc, 6, o, f, labels) + EmitGauge(DescRelativeHumidity, o.relativeHumidity, labels);
    assert GaugesOnto(acc, 8, o, f, labels) == GaugesOnto(acc, 7, o, f, labels) + EmitGauge(DescIlluminance, o.illuminance, labels);
  }

  lemma GaugesChunk3(acc: seq<Metric>, o: Observation, f: Formulas, labels: seq<string>)
    ensures GaugesOnto(acc, 11, o, f, labels)
         == GaugesOnto(acc, 8, o, f, labels)
       + EmitGauge(DescUV, o.uv, labels)
       + EmitGauge(DescSolarRadiation, o.solarRadiation, labels)
       + EmitGauge(DescRainAccumulated, o.rainAccumulated, labels)
  {
    assert GaugesOnto(acc, 9, o, f, labels) == GaugesOnto(acc, 8, o, f, labels) + EmitGauge(DescUV, o.uv, labels);
    assert GaugesOnto(acc, 10, o, f, labels) == GaugesOnto(acc, 9, o, f, labels) + EmitGauge(DescSolarRadiation, o.solarRadiation, labels);
    assert GaugesOnto(acc, 11, o, f, labels) == GaugesOnto(acc, 10, o, f, labels) + EmitGauge(DescRainAccumulated, o.rainAccumulated, labels);
  }

  lemma GaugesChunk4(acc: seq<Metric>, o: Observation, f: Formulas, labels: seq<string>)
    ensures GaugesOnto(acc, 14, o, f, labels)
         == GaugesOnto(acc, 11, o, f, labels)
       + EmitGauge(DescPrecipitationType, o.precipitationType, labels)
       + EmitGauge(DescLightningStrikeAvgDist, o.lightningStrikeAvgDist, labels)
       + EmitGauge(DescLightningStrikeCount, o.lightningStrikeCount, labels)
  {
    assert GaugesOnto(acc, 12, o, f, labels) == GaugesOnto(acc, 11, o, f, labels) + EmitGauge(DescPrecipitationType, o.precipitationType, labels);
    assert GaugesOnto(acc, 13, o, f, labels) == GaugesOnto(acc, 12, o, f, labels) + EmitGauge(DescLightningStrikeAvgDist, o.lightningStrikeAvgDist, labels);
    assert GaugesOnto(acc, 14, o, f, labels) == GaugesOnto(acc, 13, o, f, labels) + EmitGauge(DescLightningStrikeCount, o.lightningStrikeCount, labels);
  }

  lemma GaugesChunk5(acc: seq<Metric>, o: Observation, f: Formulas, labels: seq<string>)
    ensures GaugesOnto(acc, 16, o, f, labels)
         == GaugesOnto(acc, 14, o, f, labels)
       + EmitGauge(DescBattery, o.battery, labels)
       + EmitGauge(DescDewPoint, DewPoint(o.airTemperature, o.relativeHumidity, f), labels)
  {
    assert GaugesOnto(acc, 15, o, f, labels) == GaugesOnto(acc, 14, o, f, labels) + EmitGauge(DescBattery, o.battery, labels);
    assert GaugesOnto(acc, 16, o, f, labels) == GaugesOnto(acc, 15, o, f, labels) + EmitGauge(DescDewPoint, DewPoint(o.airTemperature, o.relativeHumidity, f), labels);
  }

  lemma GaugesChunk6(acc: seq<Metric>, o: Observation, f: Formulas, labels: seq<string>)
    ensures GaugesOnto(acc, 17, o, f, labels)
         == GaugesOnto(acc, 16, o, f, labels)
       + EmitGauge(DescFeelsLike, FeelsLike(o.airTemperature, o.relativeHumidity, o.windAvg, f), labels)
  {
    assert GaugesOnto(acc, 17, o, f, labels) == GaugesOnto(acc, 16, o, f, labels) + EmitGauge(DescFeelsLike, FeelsLike(o.airTemperature, o.relativeHumidity, o.windAvg, f), labels);
  }

  /** With an observation, a scrape is the health metrics, the timestamp,
      the gauges and the rain start epoch, one after another. */
  lemma ExpositionWithObservation(s: State, labels: seq<string>, f: Formulas)
    requires s.hasObs
    ensures Exposition(s, labels, f)
         == Health(s, labels) + [LastObservationMetric(s, labels)] + Gauges(GaugeCount, s.obs, f, labels) + RainStartMetrics(s, labels)
  {
    AppendAssoc(Health(s, labels), [LastObservationMetric(s, labels)], Gauges(GaugeCount, s.obs, f, labels), RainStartMetrics(s, labels));
  }

  lemma AppendAssoc(a: seq<Metric>, b: seq<Metric>, c: seq<Metric>, d: seq<Metric>)
    ensures a + (b + c + d) == a + b + c + d
  {
  }

  /** Without an observation a scrape emits only the three health metrics;
      they come first in every scrape, with up 1 exactly when connected and
      the two counters as they stand. */
  lemma ExpositionHealth(s: State, labels: seq<string>, f: Formulas)
    ensures |Exposition(s, labels, f)| >= 3
    ensures !s.hasObs ==> |Exposition(s, labels, f)| == 3
    ensures Exposition(s, labels, f)[0].name == DescUp
    ensures Exposition(s, labels, f)[0].value == Finite(1.0) <==> s.connected
    ensures Exposition(s, labels, f)[1] == Metric(DescReconnects, Counter, NatValue(s.reconnects), labels)
    ensures Exposition(s, labels, f)[2] == Metric(DescScrapeErrors, Counter, NatValue(s.scrapeErrors), labels)
  {
  }

  /** Where a name is first found in a scrape: past the health metrics,
      first the timestamp, then the gauges, then the rain start epoch. */
  lemma FindInExposition(s: State, labels: seq<string>, f: Formulas, name: MetricName)
    requires name != DescUp && name != DescReconnects && name != DescScrapeErrors
    ensures !s.hasObs ==> Find(Exposition(s, labels, f), name).None?
    ensures s.hasObs ==>
      Find(Exposition(s, labels, f), name) ==
        if name == DescLastObservation then Some(LastObservationMetric(s, labels))
        else if Find(Gauges(GaugeCount, s.obs, f, labels), name).Some?
        then Find(Gauges(GaugeCount, s.obs, f, labels), name)
        else Find(RainStartMetrics(s, labels), name)
  {
    FindAppend(Health(s, labels), ObservationMetrics(s, labels, f), name);
    FindSound(Health(s, labels), name);
    if s.hasObs {
      var gs := Gauges(GaugeCount, s.obs, f, labels);
      var last := [LastObservationMetric(s, labels)];
      FindAppend(last + gs, RainStartMetrics(s, labels), name);
      FindAppend(last, gs, name);
    }
  }

  /** An observation gauge is emitted exactly when an observation exists and
      its value is not NaN, and it carries the value of that field. */
  lemma ExpositionGauge(s: State, labels: seq<string>, f: Formulas, name: MetricName)
    requires IsObservationGauge(name)
    ensures Find(Exposition(s, labels, f), name)
         == if s.hasObs && !GaugeValue(s.obs, f, name).IsNaN()
            then Some(Metric(name, Gauge, GaugeValue(s.obs, f, name), labels)) else None
  {
    GaugeIsNotOther(name);
    FindInExposition(s, labels, f, name);
    FindGauges(GaugeCount, s.obs, f, labels, name);
    FindRainStart(s, labels, name);
  }

  /** An observation gauge is none of the other descriptors. */
  lemma GaugeIsNotOther(name: MetricName)
    requires IsObservationGauge(name)
    ensures name != DescUp && name != DescReconnects && name != DescScrapeErrors
    ensures name != DescLastObservation && name != DescRainStartEpoch
    ensures GaugeIndex(name) < GaugeCount
  {
  }

  lemma FindRainStart(s: State, labels: seq<string>, name: MetricName)
    requires name != DescRainStartEpoch
    ensures Find(RainStartMetrics(s, labels), name).None?
  {
  }

  /** The rain start gauge is emitted exactly when an observation exists and
      the recorded epoch is positive, with that epoch. */
  lemma ExpositionRainStart(s: State, labels: seq<string>, f: Formulas)
    ensures Find(Exposition(s, labels, f), DescRainStartEpoch)
         == if s.hasObs && s.rainStart.Above(0.0)
            then Some(Metric(DescRainStartEpoch, Gauge, s.rainStart, labels)) else None
  {
    FindInExposition(s, labels, f, DescRainStartEpoch);
    FindGauges(GaugeCount, s.obs, f, labels, DescRainStartEpoch);
    assert GaugeIndex(DescRainStartEpoch) == -1;
    assert Find(Gauges(GaugeCount, s.obs, f, labels), DescRainStartEpoch).None?;
    FindRainStartEpoch(s, labels);
  }

  lemma FindRainStartEpoch(s: State, labels: seq<string>)
    ensures Find(RainStartMetrics(s, labels), DescRainStartEpoch)
         == if s.rainStart.Above(0.0) then Some(Metric(DescRainStartEpoch, Gauge, s.rainStart, labels)) else None
  {
  }

  /** The last-observation timestamp is emitted exactly when an observation
      exists. */
  lemma ExpositionLastObservation(s: State, labels: seq<string>, f: Formulas)
    ensures Find(Exposition(s, labels, f), DescLastObservation)
         == if s.hasObs then Some(Metric(DescLastObservation, Gauge, NatValue(s.obs.timestamp), labels)) else None
  {
    FindInExposition(s, labels, f, DescLastObservation);
  }

  /** A scrape names each descriptor at most once, and only descriptors that
      Describe announces. */
  lemma ExpositionNames(s: State, labels: seq<string>, f: Formulas)
    ensures DistinctNames(Exposition(s, labels, f))
    ensures forall m :: m in Exposition(s, labels, f) ==> m.name in AllDescs
  {
    ExpositionDistinct(s, labels, f);
    forall m | m in Exposition(s, labels, f)
      ensures m.name in AllDescs
    {
      AllDescsComplete(m.name);
    }
  }

  lemma ExpositionDistinct(s: State, labels: seq<string>, f: Formulas)
    ensures DistinctNames(Exposition(s, labels, f))
  {
    HeadNames(s, labels);
    var head := Health(s, labels) + [LastObservationMetric(s, labels)];
    var gs := Gauges(GaugeCount, s.obs, f, labels);
    var rain := RainStartMetrics(s, labels);
    ExpositionSplit(s, labels, f, head, gs, rain);
    if s.hasObs {
      GaugesNames(GaugeCount, s.obs, f, labels);
      RainNames(s, labels);
      DistinctParts(head, gs, rain);
    }
  }

  /** The scrape as its three parts: health and timestamp, gauges, rain. */
  lemma ExpositionSplit(s: State, labels: seq<string>, f: Formulas, head: seq<Metric>, gs: seq<Metric>, rain: seq<Metric>)
    requires head == Health(s, labels) + [LastObservationMetric(s, labels)]
    requires gs == Gauges(GaugeCount, s.obs, f, labels) && rain == RainStartMetrics(s, labels)
    ensures s.hasObs ==> Exposition(s, labels, f) == head + gs + rain
    ensures !s.hasObs ==> Exposition(s, labels, f) == Health(s, labels)
  {
    if s.hasObs {
      AppendAssoc(Health(s, labels), [LastObservationMetric(s, labels)], gs, rain);
    } else {
      assert Health(s, labels) + [] == Health(s, labels);
    }
  }

  /** The rain start part holds at most the one rain start gauge. */
  lemma RainNames(s: State, labels: seq<string>)
    ensures DistinctNames(RainStartMetrics(s, labels))
    ensures forall m :: m in RainStartMetrics(s, labels) ==> m.name == DescRainStartEpoch
  {
  }

  /** The health metrics and the timestamp have names of their own, none of
      them an observation gauge or the rain start epoch. */
  lemma HeadNames(s: State, labels: seq<string>)
    ensures DistinctNames(Health(s, labels) + [LastObservationMetric(s, labels)])
    ensures DistinctNames(Health(s, labels))
    ensures forall m :: m in Health(s, labels) + [LastObservationMetric(s, labels)] ==>
      GaugeIndex(m.name) == -1 && m.name != DescRainStartEpoch
  {
    var head := Health(s, labels) + [LastObservationMetric(s, labels)];
    assert head[0].name == DescUp && head[1].name == DescReconnects;
    assert head[2].name == DescScrapeErrors && head[3].name == DescLastObservation;
    assert |head| == 4 && head[..3] == Health(s, labels);
    HeadNamesOf(head);
  }

  lemma HeadNamesOf(head: seq<Metric>)
    requires |head| == 4 && head[0].name == DescUp && head[1].name == DescReconnects
    requires head[2].name == DescScrapeErrors && head[3].name == DescLastObservation
    ensures DistinctNames(head) && DistinctNames(head[..3])
    ensures forall m :: m in head ==> GaugeIndex(m.name) == -1 && m.name != DescRainStartEpoch
  {
  }

  /** Three parts with names of their own: health and timestamp, observation
      gauges, and rain start. */
  lemma DistinctParts(head: seq<Metric>, gs: seq<Metric>, rain: seq<Metric>)
    requires DistinctNames(head) && DistinctNames(gs) && DistinctNames(rain)
    requires forall m :: m in head ==> GaugeIndex(m.name) == -1 && m.name != DescRainStartEpoch
    requires forall m :: m in gs ==> GaugeIndex(m.name) >= 0
    requires forall m :: m in rain ==> m.name == DescRainStartEpoch
    ensures DistinctNames(head + gs + rain)
  {
    var ms := head + gs + rain;
    forall i, j | 0 <= i < j < |ms|
      ensures ms[i].name != ms[j].name
    {
      if j < |head| {
        assert ms[i] == head[i] && ms[j] == head[j];
      } else if j < |head| + |gs| {
        assert ms[j] == gs[j - |head|];
        if i < |head| {
          assert ms[i] == head[i];
        } else {
          assert ms[i] == gs[i - |head|];
        }
      } else {
        assert ms[j] == rain[j - |head| - |gs|];
        if i < |head| {
          assert ms[i] == head[i];
        } else if i < |head| + |gs| {
          assert ms[i] == gs[i - |head|];
        } else {
          assert ms[i] == rain[i - |head| - |gs|];
        }
      }
    }
  }

  /** A scrape does not depend on the two interval fields of the observation. */
  lemma ExpositionIgnoresIntervals(s: State, labels: seq<string>, f: Formulas, wsi: Float, ri: Float)
    ensures Exposition(s.(obs := s.obs.(windSampleInterval := wsi, reportInterval := ri)), labels, f)
         == Exposition(s, labels, f)
  {
    var o := s.obs.(windSampleInterval := wsi, reportInterval := ri);
    GaugesAgree(GaugeCount, o, s.obs, f, labels);
  }

  lemma {:induction false} GaugesAgree(n: nat, o: Observation, p: Observation, f: Formulas, labels: seq<string>)
    requires n <= GaugeCount
    requires forall k :: 0 <= k < n ==> GaugeValue(o, f, GaugeName(k)) == GaugeValue(p, f, GaugeName(k))
    ensures Gauges(n, o, f, labels) == Gauges(n, p, f, labels)
  {
    if n > 0 {
      GaugesAgree(n - 1, o, p, f, labels);
    }
  }

  // ---------------------------------------------------------------------------
  // The collector object

  /** Collector: the mutex-guarded state and the two label values. The mutex
      is not modelled; every method runs as one atomic step. */
  class Collector {
    var obs: Observation
    var hasObs: bool
    var connected: bool
    var reconnects: nat
    var scrapeErrors: nat
    var rainStart: Float
    const stationId: string
    const stationName: string

    /** The collector's state as a value. */
    function Current(): State
      reads this
    {
      State(obs, hasObs, connected, reconnects, scrapeErrors, rainStart)
    }

    /** NewCollector: zero state, with the given labels. */
    constructor (stationId: string, stationName: string)
      ensures Current() == Initial
      ensures this.stationId == stationId && this.stationName == stationName
    {
      this.stationId := stationId;
      this.stationName := stationName;
      obs := ZeroObservation;
      hasObs := false;
      connected := false;
      reconnects := 0;
      scrapeErrors := 0;
      rainStart := Finite(0.0);
    }

    method UpdateObservation(o: Observation)
      modifies this
      ensures Current() == Apply(old(Current()), Update.UpdateObservation(o))
    {
      obs := o;
      hasObs := true;
    }

    method SetConnected(b: bool)
      modifies this
      ensures Current() == Apply(old(Current()), Update.SetConnected(b))
    {
      connected := b;
    }

    method IncrReconnects()
      modifies this
      ensures Current() == Apply(old(Current()), Update.IncrReconnects)
    {
      reconnects := reconnects + 1;
    }

    method SetRainStart(epoch: Float)
      modifies this
      ensures Current() == Apply(old(Current()), Update.SetRainStart(epoch))
    {
      rainStart := epoch;
    }

    method IncrScrapeErrors()
      modifies this
      ensures Current() == Apply(old(Current()), Update.IncrScrapeErrors)
    {
      scrapeErrors := scrapeErrors + 1;
    }

    /** Runs one writer; the WebSocket and REST paths report through this. */
    method Perform(u: Update)
      modifies this
      ensures Current() == Apply(old(Current()), u)
    {
      match u
      case UpdateObservation(o) => UpdateObservation(o);
      case SetConnected(b) => SetConnected(b);
      case IncrReconnects => IncrReconnects();
      case SetRainStart(e) => SetRainStart(e);
      case IncrScrapeErrors => IncrScrapeErrors();
    }

    /** HasObservation: whether any observation was stored. */
    method HasObservation() returns (b: bool)
      ensures b == Current().hasObs
    {
      b := hasObs;
    }

    /** The connection flag, as the REST fallback reads it. */
    method IsConnected() returns (b: bool)
      ensures b == Current().connected
    {
      b := connected;
    }

    /** Collect: the metrics one scrape emits, built in the source's order. */
    method Collect(f: Formulas) returns (ms: seq<Metric>)
      ensures ms == Exposition(Current(), [stationId, stationName], f)
    {
      var obs, hasObs, connected, reconnects, scrapeErrors, rainStart :=
        this.obs, this.hasObs, this.connected, this.reconnects, this.scrapeErrors, this.rainStart;
      var lv := [stationId, stationName];
      var connVal := Finite(0.0);
      if connected {
        connVal := Finite(1.0);
      }
      ms := [Metric(DescUp, Gauge, connVal, lv),
             Metric(DescReconnects, Counter, NatValue(reconnects), lv),
             Metric(DescScrapeErrors, Counter, NatValue(scrapeErrors), lv)];
      if hasObs {
        ms := ms + [Metric(DescLastObservation, Gauge, NatValue(obs.timestamp), lv)];
      }
      if !hasObs {
        return;
      }
      assert ms == Health(Current(), lv) + [LastObservationMetric(Current(), lv)];
      GaugesInOrder(ms, obs, f, lv);
      ms := ms + EmitGauge(DescWindLull, obs.windLull, lv);
      ms := ms + EmitGauge(DescWindAvg, obs.windAvg, lv);
      ms := ms + EmitGauge(DescWindGust, obs.windGust, lv);
      ms := ms + EmitGauge(DescWindDirection, obs.windDirection, lv);
      ms := ms + EmitGauge(DescStationPressure, obs.stationPressure, lv);
      ms := ms + EmitGauge(DescAirTemperature, obs.airTemperature, lv);
      ms := ms + EmitGauge(DescRelativeHumidity, obs.relativeHumidity, lv);
      ms := ms + EmitGauge(DescIlluminance, obs.illuminance, lv);
      ms := ms + EmitGauge(DescUV, obs.uv, lv);
      ms := ms + EmitGauge(DescSolarRadiation, obs.solarRadiation, lv);
      ms := ms + EmitGauge(DescRainAccumulated, obs.rainAccumulated, lv);
      ms := ms + EmitGauge(DescPrecipitationType, obs.precipitationType, lv);
      ms := ms + EmitGauge(DescLightningStrikeAvgDist, obs.lightningStrikeAvgDist, lv);
      ms := ms + EmitGauge(DescLightningStrikeCount, obs.lightningStrikeCount, lv);
      ms := ms + EmitGauge(DescBattery, obs.battery, lv);
      var dp := DewPoint(obs.airTemperature, obs.relativeHumidity, f);
      ms := ms + EmitGauge(DescDewPoint, dp, lv);
      var fl := FeelsLike(obs.airTemperature, obs.relativeHumidity, obs.windAvg, f);
      ms := ms + EmitGauge(DescFeelsLike, fl, lv);
      if rainStart.Above(0.0) {
        ms := ms + EmitGauge(DescRainStartEpoch, rainStart, lv);
      }
      ExpositionWithObservation(Current(), lv, f);
    }
  }
}
