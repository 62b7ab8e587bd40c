/**
 * The forecast provider's JSON envelope, as decoded: a root holding a list
 * of timelines, each holding a list of intervals with their values. These
 * are data shapes only; `Models` normalises them into records.
 */
module Payload {
  import opened Results
  import opened WeatherCodes
  import opened PrecipitationTypes
  import opened MoonPhases

  /**
   * A 64-bit float. Temperatures, humidity and dew point are only ever
   * copied, so they are modelled as exact reals; the one conversion the
   * code performs (an `i64` cast to `f64`) is exact for the values involved.
   */
  type F64 = real

  /** The hourly fields of one interval (JSON names in camelCase). */
  datatype HourlyValues = HourlyValues(
    precipitationProbability: int,
    precipitationType: PrecipitationType,
    temperature: F64,
    temperatureApparent: F64,
    weatherCode: WeatherCode,
    humidity: Option<F64>,
    dewPoint: Option<F64>)

  datatype HourlyInterval = HourlyInterval(startTime: string, values: HourlyValues)

  datatype HourlyTimeline = HourlyTimeline(
    timestep: string, endTime: string, startTime: string, intervals: seq<HourlyInterval>)

  datatype HourlyRoot = HourlyRoot(timelines: seq<HourlyTimeline>)

  /** The daily fields of one interval; the sun times are RFC 3339 strings. */
  datatype DailyValues = DailyValues(
    moonPhase: MoonPhase,
    sunriseTime: string,
    sunsetTime: string,
    temperatureMax: F64,
    temperatureMin: F64,
    weatherCode: WeatherCode)

  datatype DailyInterval = DailyInterval(startTime: string, values: DailyValues)

  datatype DailyTimeline = DailyTimeline(
    timestep: string, endTime: string, startTime: string, intervals: seq<DailyInterval>)

  datatype DailyRoot = DailyRoot(timelines: seq<DailyTimeline>)
}
