/**
 * The dashboard's one entity: an hourly reading of CO2 and CH4 at one location,
 * and a series of such readings (one fetched data frame with the columns
 * Waktu, CO2_ppm and CH4_ppb).
 */
module Readings {

  /**
   * A naive date-time (no time zone attached), in microseconds (the resolution of a
   * Python datetime) since 1970-01-01 00:00, itself naive. The epoch is a midnight, so `Date`
   * is the calendar date that `.dt.date` gives. The `time` texts of the air-quality response are
   * naive GMT times; a clock reading or a chosen date compared with them must be read
   * in that same time zone.
   */
  type Timestamp = int

  const MicrosPerDay: int := 86_400_000_000

  /** The calendar date of a timestamp, as a day number; `/` rounds down, also before 1970. */
  function Date(t: Timestamp): (day: int)
    ensures day * MicrosPerDay <= t < (day + 1) * MicrosPerDay
  {
    t / MicrosPerDay
  }

  /** One row of the data frame: Waktu, CO2_ppm, CH4_ppb. */
  datatype Reading = Reading(time: Timestamp, co2: real, ch4: real)

  type Series = seq<Reading>

  /** Timestamps never decrease along the series, as the upstream source delivers them. */
  ghost predicate Sorted(rows: Series)
  {
    forall i, j :: 0 <= i <= j < |rows| ==> rows[i].time <= rows[j].time
  }
}
