/**
 * The two types of the `time` crate that cross the plugin boundary, reduced to
 * what the core relies on: a `Date` is identified by its Julian day number
 * within the crate's default year range (-9999 to 9999), and a `Time` is an
 * hour, minute, second and nanosecond within their ranges.
 */
module TimeTypes {
  import opened StdInt

  /** Julian day of -9999-01-01, `Date::MIN.to_julian_day()`. */
  const MIN_JULIAN_DAY: int := -1930999
  /** Julian day of 9999-12-31, `Date::MAX.to_julian_day()`. */
  const MAX_JULIAN_DAY: int := 5373484

  /** A calendar date, by its Julian day number. */
  type Date = d: int | MIN_JULIAN_DAY <= d <= MAX_JULIAN_DAY

  /** `Date::from_julian_day` succeeds exactly inside the supported range. */
  predicate InDateRange(day: int) {
    MIN_JULIAN_DAY <= day <= MAX_JULIAN_DAY
  }

  /** A clock time; the crate enforces the ranges on construction. */
  datatype Time = Time(hour: u8, minute: u8, second: u8, nanosecond: u32)
  {
    predicate Valid() {
      hour < 24 && minute < 60 && second < 60 && nanosecond < 1_000_000_000
    }
  }

  type ValidTime = t: Time | t.Valid() witness Time(0, 0, 0, 0)

  /** `Time`'s own order: hour, minute, second, then nanosecond. */
  predicate TimeLess(a: ValidTime, b: ValidTime) {
    || a.hour < b.hour
    || (a.hour == b.hour && a.minute < b.minute)
    || (a.hour == b.hour && a.minute == b.minute && a.second < b.second)
    || (a.hour == b.hour && a.minute == b.minute && a.second == b.second && a.nanosecond < b.nanosecond)
  }
}
