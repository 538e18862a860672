/** Records shared by the three computations of the medication overview:
    the rows of the medications table and of the administers table, and
    the weekday lookup both the supply projection and today's reminders use. */
module Records {

  datatype Option<T> = None | Some(value: T)

  datatype Result<T, E> = Ok(value: T) | Err(error: E)

  /** A calendar date, carried through unchanged (the expiration column). */
  datatype Date = Date(year: int, month: int, day: int)

  /** One row of the medications table. */
  datatype Medication = Medication(name: string, startQuantity: int, currentQuantity: int, expiration: Date)

  /** One row of the administers table: `repeat` is meant to be "daily" or a
      lower-case weekday name, `time` one of "any", "morning", "mid-day",
      "night"; nothing checks that when a row is made. */
  datatype Administer = Administer(name: string, repeat: string, time: string)

  /** A weekday as Python's `date.weekday()` numbers it: Monday is 0, Sunday 6. */
  type Weekday = w: nat | w < 7

  /** The weekday names in the order of the tuple the dashboard indexes into. */
  const Weekdays: seq<string> := ["monday", "tuesday", "wednesday", "thursday", "friday", "saturday", "sunday"]

  /** The weekday a repeat names: its position in `Weekdays`, or None where
      Python's `.index` raises ValueError. */
  function DayIndex(repeat: string): Option<Weekday>
  {
    if repeat == "monday" then Some(0)
    else if repeat == "tuesday" then Some(1)
    else if repeat == "wednesday" then Some(2)
    else if repeat == "thursday" then Some(3)
    else if repeat == "friday" then Some(4)
    else if repeat == "saturday" then Some(5)
    else if repeat == "sunday" then Some(6)
    else None
  }

  /** `DayIndex` is the lookup of `repeat` in the weekday tuple. */
  lemma DayIndexIsPosition(repeat: string)
    ensures DayIndex(repeat).None? <==> repeat !in Weekdays
    ensures DayIndex(repeat).Some? ==> Weekdays[DayIndex(repeat).value] == repeat
  {
  }
}
