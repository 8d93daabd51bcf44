/** `time.Time` as a count of ticks since Go's zero time (January 1, year 1, UTC). */
module GoTime {

  datatype Time = Time(ticks: int) {
    /** `Time.IsZero`. */
    predicate IsZero() {
      ticks == 0
    }
  }

  const ZeroTime := Time(0)
}
