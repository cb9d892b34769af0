/** Calendar days as plain day numbers.

    A day is the number of days since 1970-01-01, which was a Thursday.
    Weekdays follow the convention of Python's `date.weekday()`:
    0 is Monday and 6 is Sunday. Dafny's `%` is Euclidean, so days before
    the epoch get the same weekday as Python's floored `%` would give them.
 */
module Calendar {

  type Day = int

  /** Weekday of 1970-01-01 (a Thursday). */
  const EpochWeekday: nat := 3

  const Sunday: nat := 6

  function Weekday(d: Day): (w: nat)
    ensures w < 7
  {
    (d + EpochWeekday) % 7
  }

  /** The weekday advances by one every day and wraps from Sunday to Monday. */
  lemma WeekdayNext(d: Day)
    ensures Weekday(d + 1) == if Weekday(d) == Sunday then 0 else Weekday(d) + 1
  {
  }

  /** Days one week apart fall on the same weekday. */
  lemma WeekdayWeekLater(d: Day, weeks: int)
    ensures Weekday(d + 7 * weeks) == Weekday(d)
  {
  }

  /** The Monday that starts the week of `d`. */
  function MondayOf(d: Day): (m: Day)
    ensures m <= d < m + 7
    ensures Weekday(m) == 0
  {
    d - Weekday(d)
  }

  /** First day of a trailing window of `numDays` days that ends on `today`
      (`date.today() - timedelta(days=(NUM_DAYS_TO_SHOW - 1))`). */
  function StartDate(today: Day, numDays: nat): (start: Day)
    ensures numDays > 0 ==> start + numDays - 1 == today
  {
    today - (numDays - 1)
  }
}
