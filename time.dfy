/** Instants and the day length used by the date-range code. */
module Time {

  /** A point in time, in milliseconds since the epoch. */
  type Instant = int

  /** One day as Luxon's `Duration.as("days")` counts it: 24 hours. */
  const DayMillis: int := 86_400_000
}
