/** Shared value types: optional values, results, identifiers and calendar values. */
module Common {

  /** A Java reference that may be null (or an Optional that may be empty). */
  datatype Option<T> = None | Some(value: T)
  {
    /** The value, or `fallback` when absent (the source's `x != null ? x : fallback`). */
    function GetOr(fallback: T): T
    {
      if Some? then value else fallback
    }
  }

  /** Outcome of a service call: the value it returns, or the exception it throws. */
  datatype Result<T, E> = Ok(value: T) | Err(error: E)

  /** Identifier of a persisted row (a UUID in the source). */
  type Id = nat

  type Year = y: int | 1 <= y <= 9999 witness 1
  type Month = m: int | 1 <= m <= 12 witness 1
  type Day = d: int | 1 <= d <= 31 witness 1
  type Hour = h: int | 0 <= h <= 23
  type Minute = m: int | 0 <= m <= 59
  type Second = s: int | 0 <= s <= 59

  /** A calendar date (`LocalDate`), within the years that format as four digits. */
  datatype Date = Date(year: Year, month: Month, day: Day)

  /** A local date and time (`LocalDateTime`), to the second. */
  datatype DateTime = DateTime(date: Date, hour: Hour, minute: Minute, second: Second)

  /** `LocalDate.atStartOfDay()`. */
  function StartOfDay(d: Date): DateTime
  {
    DateTime(d, 0, 0, 0)
  }

  function Abs(x: int): int
  {
    if x < 0 then -x else x
  }
}
