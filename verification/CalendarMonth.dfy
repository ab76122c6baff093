/** `_previous_calendar_month`: the lower end of the selection window. */
module CalendarMonth {
  import opened Wrappers

  datatype Date = Date(year: int, month: int, day: int)

  predicate Leap(year: int) {
    year % 4 == 0 && (year % 100 != 0 || year % 400 == 0)
  }

  function DaysIn(year: int, month: int): int {
    if month == 2 then (if Leap(year) then 29 else 28)
    else if month in {4, 6, 9, 11} then 30
    else 31
  }

  /** The Gregorian months: February has its 29th day every fourth year, but of the full centuries only every
      fourth. */
  lemma MonthLengths(year: int)
    ensures forall month :: month in {1, 3, 5, 7, 8, 10, 12} ==> DaysIn(year, month) == 31
    ensures forall month :: month in {4, 6, 9, 11} ==> DaysIn(year, month) == 30
    ensures DaysIn(year, 2) == (if year % 400 == 0 then 29 else if year % 100 == 0 then 28 else if year % 4 == 0 then 29 else 28)
  {
    Centuries(year);
  }

  lemma Centuries(year: int)
    ensures year % 100 == 0 ==> year % 4 == 0
    ensures year % 400 == 0 ==> year % 100 == 0
  {
    if year % 100 == 0 {
      Multiple(year / 100, 25);
      assert year == 4 * (25 * (year / 100));
    }
    if year % 400 == 0 {
      Hundreds(year / 400);
      assert year == 100 * (4 * (year / 400));
    }
  }

  lemma Multiple(q: int, n: int)
    ensures (4 * (n * q)) % 4 == 0
  {
  }

  lemma Hundreds(q: int)
    ensures (100 * (4 * q)) % 100 == 0
  {
  }

  /** The dates the host language's calendar has. */
  predicate Valid(d: Date) {
    1 <= d.year <= 9999 && 1 <= d.month <= 12 && 1 <= d.day <= DaysIn(d.year, d.month)
  }

  /** The search for a day the shorter month has comes out at the same day, clamped to the length of
      the previous month. It fails for exactly one month, the first of the calendar. */
  method PreviousCalendarMonth(moment: Date) returns (r: Option<Date>)
    requires Valid(moment)
    ensures r.None? <==> moment.year == 1 && moment.month == 1
    ensures r.Some? ==>
              && Valid(r.value)
              && r.value.year * 12 + r.value.month == moment.year * 12 + moment.month - 1
              && r.value.day == if moment.day <= DaysIn(r.value.year, r.value.month) then moment.day
                                else DaysIn(r.value.year, r.value.month)
  {
    var year, month := moment.year, moment.month - 1;
    if month == 0 {
      year, month := year - 1, 12;
    }
    var day := moment.day;
    while true
      invariant 1 <= day <= moment.day
      invariant day < moment.day ==> !Valid(Date(year, month, day + 1))
      decreases day
    {
      if Valid(Date(year, month, day)) {
        return Some(Date(year, month, day));
      }
      if day == 1 {
        return None;  // the day before the first is no date: the error leaves the handler
      }
      day := day - 1;
    }
  }
}
