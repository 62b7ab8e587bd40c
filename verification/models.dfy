/**
 * The normalised forecast records the cache, the database and the HTTP
 * handlers share, and the conversion of a decoded provider payload into
 * them (`HourlyWeather::convert`, `DailyWeather::convert`).
 */
module Models {
  import opened Results
  import opened Time
  import opened Payload
  import opened WeatherCodes
  import opened PrecipitationTypes
  import opened MoonPhases

  /** One forecast hour. `id` is assigned by the database (0 before that). */
  datatype HourlyWeather = HourlyWeather(
    id: int,
    createdAt: Instant,
    weatherTime: Instant,
    temp: F64,
    feelsLike: F64,
    weatherCode: WeatherCode,
    precipitationType: PrecipitationType,
    precipitationChance: F64,
    humidity: Option<F64>,
    dewPoint: Option<F64>)

  /** One forecast day. `id` is assigned by the database (0 before that). */
  datatype DailyWeather = DailyWeather(
    id: int,
    createdAt: Instant,
    weatherTime: Instant,
    high: F64,
    low: F64,
    weatherCode: WeatherCode,
    moonPhase: MoonPhase,
    sunriseTime: Option<Instant>,
    sunsetTime: Option<Instant>)

  /**
   * A date-time parser for the format of section 5.6 of RFC 3339:
   * `Some(instant)` for a valid string, `None` otherwise. Its internals are
   * not modelled; the conversions take it as a parameter.
   */
  type Rfc3339 = string -> Option<Instant>

  /**
   * The conversion indexes `timelines[0]` and unwraps every parsed time,
   * so it panics unless there is a first timeline and all its start times
   * parse.
   */
  predicate HourlyConvertible(root: HourlyRoot, parse: Rfc3339) {
    && |root.timelines| > 0
    && forall iv <- root.timelines[0].intervals :: parse(iv.startTime).Some?
  }

  /** As for hours, and the sunrise and sunset strings must parse too. */
  predicate DailyConvertible(root: DailyRoot, parse: Rfc3339) {
    && |root.timelines| > 0
    && forall iv <- root.timelines[0].intervals ::
         parse(iv.startTime).Some? && parse(iv.values.sunriseTime).Some? && parse(iv.values.sunsetTime).Some?
  }

  /** How a record relates to the interval it was made from, stamped with the clock reading `at`. */
  ghost predicate HourlyFrom(w: HourlyWeather, iv: HourlyInterval, at: Instant, parse: Rfc3339) {
    && w.id == 0
    && w.createdAt == at
    && parse(iv.startTime) == Some(w.weatherTime)
    && w.temp == iv.values.temperature
    && w.feelsLike == iv.values.temperatureApparent
    && w.weatherCode == iv.values.weatherCode
    && w.precipitationType == iv.values.precipitationType
    && w.precipitationChance == iv.values.precipitationProbability as real
    && w.humidity == iv.values.humidity
    && w.dewPoint == iv.values.dewPoint
  }

  /** How a record relates to the interval it was made from, stamped with the clock reading `at`. */
  ghost predicate DailyFrom(w: DailyWeather, iv: DailyInterval, at: Instant, parse: Rfc3339) {
    && w.id == 0
    && w.createdAt == at
    && parse(iv.startTime) == Some(w.weatherTime)
    && w.high == iv.values.temperatureMax
    && w.low == iv.values.temperatureMin
    && w.weatherCode == iv.values.weatherCode
    && w.moonPhase == iv.values.moonPhase
    && w.sunriseTime.Some? && parse(iv.values.sunriseTime) == w.sunriseTime
    && w.sunsetTime.Some? && parse(iv.values.sunsetTime) == w.sunsetTime
  }

  /**
   * `HourlyWeather::convert`: one record per interval of the first
   * timeline, in order; any later timeline is ignored. The clock is read
   * once per record: `clock(i)` is the reading taken for record `i`.
   */
  method ConvertHourly(root: HourlyRoot, clock: nat -> Instant, parse: Rfc3339) returns (records: seq<HourlyWeather>)
    requires HourlyConvertible(root, parse)
    ensures |records| == |root.timelines[0].intervals|
    ensures forall i :: 0 <= i < |records| ==> HourlyFrom(records[i], root.timelines[0].intervals[i], clock(i), parse)
  {
    var intervals := root.timelines[0].intervals;
    records := [];
    for i := 0 to |intervals|
      invariant |records| == i
      invariant forall k :: 0 <= k < i ==> HourlyFrom(records[k], intervals[k], clock(k), parse)
    {
      var iv := intervals[i];
      assert iv in intervals;
      var w := HourlyWeather(
        0, clock(i), parse(iv.startTime).value,
        iv.values.temperature, iv.values.temperatureApparent,
        iv.values.weatherCode, iv.values.precipitationType,
        iv.values.precipitationProbability as real,
        iv.values.humidity, iv.values.dewPoint);
      records := records + [w];
    }
  }

  /**
   * `DailyWeather::convert`: one record per interval of the first
   * timeline, in order, with the sunrise and sunset always present and
   * record `i` stamped with the clock reading `clock(i)`.
   */
  method ConvertDaily(root: DailyRoot, clock: nat -> Instant, parse: Rfc3339) returns (records: seq<DailyWeather>)
    requires DailyConvertible(root, parse)
    ensures |records| == |root.timelines[0].intervals|
    ensures forall i :: 0 <= i < |records| ==> DailyFrom(records[i], root.timelines[0].intervals[i], clock(i), parse)
  {
    var intervals := root.timelines[0].intervals;
    records := [];
    for i := 0 to |intervals|
      invariant |records| == i
      invariant forall k :: 0 <= k < i ==> DailyFrom(records[k], intervals[k], clock(k), parse)
    {
      var iv := intervals[i];
      assert iv in intervals;
      var w := DailyWeather(
        0, clock(i), parse(iv.startTime).value,
        iv.values.temperatureMax, iv.values.temperatureMin,
        iv.values.weatherCode, iv.values.moonPhase,
        parse(iv.values.sunriseTime), parse(iv.values.sunsetTime));
      records := records + [w];
    }
  }
}
