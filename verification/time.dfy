/**
 * Instants and durations. An instant is a count of nanoseconds since
 * 1970-01-01T00:00:00Z, the resolution of chrono's `DateTime<Utc>`;
 * a duration is a difference of two instants in the same unit.
 * Integers are unbounded: chrono's `DateTime - DateTime` cannot overflow
 * for the values the program uses, so no wrap-around is modelled.
 */
module Time {

  type Instant = int

  const Second: int := 1_000_000_000
  const Minute: int := 60 * Second
  const Hour: int := 60 * Minute
  const Day: int := 24 * Hour

  /**
   * `DateTime::<Utc>::MIN_UTC`: the first instant of year -262144
   * (chrono 0.4's smallest representable date). Only its being far
   * below every clock reading matters to the model.
   */
  const MinUtc: Instant := -8_334_632_937_600 * Second
}
