/** The end of the first billing period of a subscription, derived from its
    start and the plan's interval. */
module EndDate {
  import opened Wrappers
  import opened Calendar
  import PlanInterval

  const DaysInWeek: int := 7
  const DaysInDay: int := 1

  /** `endDateMapper.Map`: one calendar month, one calendar year, seven days
      or one day after the start; nil for any other interval code. The end
      always lies after the start, at the same time of day. */
  function Map(startDate: Time, planInterval: PlanInterval.PlanIntervalEnum): (r: Option<Time>)
    ensures r.Some? <==> planInterval.String() in PlanInterval.AllowedValues
    ensures r.Some? ==> After(r.value, startDate) && r.value.second == startDate.second
  {
    var interval := planInterval.String();
    if interval == PlanInterval.Month then
      AddMonth(startDate);
      AddMonthForward(startDate);
      Some(AddDate(startDate, 0, 1, 0))
    else if interval == PlanInterval.Year then
      AddYear(startDate);
      Some(AddDate(startDate, 1, 0, 0))
    else if interval == PlanInterval.Week then
      AddDays(startDate, DaysInWeek);
      Some(AddDate(startDate, 0, 0, DaysInWeek))
    else if interval == PlanInterval.Day then
      AddDays(startDate, DaysInDay);
      Some(AddDate(startDate, 0, 0, DaysInDay))
    else
      None
  }

  /** How far each interval reaches: the length of the start month, 365 or
      366 days, seven days, one day. */
  lemma MapAdvance(startDate: Time, planInterval: PlanInterval.PlanIntervalEnum)
    ensures planInterval.String() == PlanInterval.Month ==>
              var d := CivilFromDays(startDate.day);
              Map(startDate, planInterval) == Some(Time(startDate.day + DaysIn(d.year, d.month), startDate.second))
    ensures planInterval.String() == PlanInterval.Year ==>
              var r := Map(startDate, planInterval);
              r.Some? && 365 <= r.value.day - startDate.day <= 366
    ensures planInterval.String() == PlanInterval.Week ==>
              Map(startDate, planInterval) == Some(Time(startDate.day + 7, startDate.second))
    ensures planInterval.String() == PlanInterval.Day ==>
              Map(startDate, planInterval) == Some(Time(startDate.day + 1, startDate.second))
  {
    AddMonth(startDate);
    AddYear(startDate);
    AddDays(startDate, DaysInWeek);
    AddDays(startDate, DaysInDay);
  }

  /** A month after a civil date: the same day number in the next month,
      normalised by `Instant` when that month is shorter. */
  lemma MonthAfterDate(y: int, m: int, d: int, s: Second)
    requires ValidDate(Date(y, m, d))
    ensures Map(Instant(y, m, d, s), PlanInterval.PlanIntervalEnum(PlanInterval.Month))
            == Some(Instant(y + m / 12, m % 12 + 1, d, s))
  {
    AddMonthToDate(y, m, d, s);
  }

  /** A year after a civil date: the same month and day of the next year. */
  lemma YearAfterDate(y: int, m: int, d: int, s: Second)
    requires ValidDate(Date(y, m, d))
    ensures Map(Instant(y, m, d, s), PlanInterval.PlanIntervalEnum(PlanInterval.Year))
            == Some(Instant(y + 1, m, d, s))
  {
    AddYearToDate(y, m, d, s);
  }

  /** A week after a civil date: seven day numbers on in the same month,
      normalised by `Instant` past its end. */
  lemma WeekAfterDate(y: int, m: int, d: int, s: Second)
    requires ValidDate(Date(y, m, d))
    ensures Map(Instant(y, m, d, s), PlanInterval.PlanIntervalEnum(PlanInterval.Week))
            == Some(Instant(y, m, d + 7, s))
  {
    AddDaysToDate(y, m, d, s, DaysInWeek);
  }

  /** A day after a civil date: the next day number of the same month,
      normalised by `Instant` past its end. */
  lemma DayAfterDate(y: int, m: int, d: int, s: Second)
    requires ValidDate(Date(y, m, d))
    ensures Map(Instant(y, m, d, s), PlanInterval.PlanIntervalEnum(PlanInterval.Day))
            == Some(Instant(y, m, d + 1, s))
  {
    AddDaysToDate(y, m, d, s, DaysInDay);
  }

  /** In a leap year a month after January 31 is March 2: the day of the
      month is carried over and normalised, not clamped to the end of
      February. */
  lemma MonthAfterJanuaryEnd(y: int, s: Second)
    requires IsLeap(y)
    ensures Map(Instant(y, 1, 31, s), PlanInterval.PlanIntervalEnum(PlanInterval.Month)) == Some(Instant(y, 3, 2, s))
  {
    MonthAfterDate(y, 1, 31, s);
    LeapFebruaryOverflow(y, s);
  }

  /** In a leap year a month after January 29 is February 29. */
  lemma MonthAfterJanuary29(y: int, s: Second)
    requires IsLeap(y)
    ensures Map(Instant(y, 1, 29, s), PlanInterval.PlanIntervalEnum(PlanInterval.Month)) == Some(Instant(y, 2, 29, s))
  {
    MonthAfterDate(y, 1, 29, s);
  }

  /** February 31 of a leap year runs on to March 2. */
  lemma LeapFebruaryOverflow(y: int, s: Second)
    requires IsLeap(y)
    ensures Instant(y, 2, 31, s) == Instant(y, 3, 2, s)
  {
  }

  /** A year after February 29 is March 1 of the next year. */
  lemma YearAfterLeapDay(y: int, s: Second)
    requires IsLeap(y)
    ensures Map(Instant(y, 2, 29, s), PlanInterval.PlanIntervalEnum(PlanInterval.Year)) == Some(Instant(y + 1, 3, 1, s))
  {
    NextYearCommon(y);
    NoLeapDay(y + 1, s);
    YearAfterDate(y, 2, 29, s);
  }

  /** The year after a leap year is a common year. */
  lemma NextYearCommon(y: int)
    requires IsLeap(y)
    ensures !IsLeap(y + 1)
  {
  }

  /** In a common year February 29 runs on to March 1. */
  lemma NoLeapDay(y: int, s: Second)
    requires !IsLeap(y)
    ensures Instant(y, 2, 29, s) == Instant(y, 3, 1, s)
  {
  }

  /** A week after April 28 is May 5. */
  lemma WeekIntoMay(y: int, s: Second)
    ensures Map(Instant(y, 4, 28, s), PlanInterval.PlanIntervalEnum(PlanInterval.Week)) == Some(Instant(y, 5, 5, s))
  {
    WeekAfterDate(y, 4, 28, s);
  }

  /** A day after December 31 is January 1 of the next year, at the same
      time of day. */
  lemma DayAfterYearEnd(y: int, s: Second)
    ensures Map(Instant(y, 12, 31, s), PlanInterval.PlanIntervalEnum(PlanInterval.Day)) == Some(Instant(y + 1, 1, 1, s))
  {
    DayAfterDate(y, 12, 31, s);
    YearStep(y);
  }

  /** The zero time plus a month is February 1 of year 1. */
  lemma ZeroPlusMonth(t: Time)
    requires IsZero(t)
    ensures Map(t, PlanInterval.PlanIntervalEnum(PlanInterval.Month)) == Some(Instant(1, 2, 1, 0))
  {
    assert Instant(1, 1, 1, 0) == t;
    MonthAfterDate(1, 1, 1, 0);
  }

  /** An interval code outside the enumeration, such as a lifetime plan's,
      has no end date. */
  lemma UnknownIntervalHasNoEnd(startDate: Time)
    ensures Map(startDate, PlanInterval.PlanIntervalEnum("Lifetime")) == None
    ensures Map(startDate, PlanInterval.ZeroValue) == None
  {
  }
}
