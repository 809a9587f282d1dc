/** Instants and the proleptic Gregorian calendar arithmetic of Go's `time`
    package, restricted to UTC and whole seconds.

    An instant is a day number counted from Go's zero time,
    0001-01-01T00:00:00Z, and a second within that day, so the zero
    `time.Time{}` is `Zero` and `t.IsZero()` is `t == Zero`. Days before the
    zero time are negative; Go can represent them too. */
module Calendar {

  const SecondsPerDay: int := 86400

  /** A time of day in whole seconds. */
  type Second = s: int | 0 <= s < 86400

  datatype Time = Time(day: int, second: Second)

  const Zero: Time := Time(0, 0)

  /** Seconds since the zero time; orders instants. */
  function Seconds(t: Time): int {
    t.day * SecondsPerDay + t.second
  }

  /** `t.IsZero()`: the only instant zero seconds from the zero time. */
  predicate IsZero(t: Time): (b: bool)
    ensures b <==> Seconds(t) == 0
  {
    t == Zero
  }

  /** `t.Before(u)`: strictly earlier, so never an instant before itself. */
  predicate Before(t: Time, u: Time): (b: bool)
    ensures b ==> t != u
  {
    t.day < u.day || (t.day == u.day && t.second < u.second)
  }

  /** `t.After(u)`. */
  predicate After(t: Time, u: Time) {
    Before(u, t)
  }

  /** Instants are ordered as the seconds since the zero time. */
  lemma BeforeIsSeconds(t: Time, u: Time)
    ensures Before(t, u) <==> Seconds(t) < Seconds(u)
  {
    if t.day < u.day {
      assert (u.day - t.day) * SecondsPerDay >= SecondsPerDay;
    } else if t.day > u.day {
      assert (t.day - u.day) * SecondsPerDay >= SecondsPerDay;
    }
  }

  // ---------------------------------------------------------------------
  // Civil dates
  // ---------------------------------------------------------------------

  datatype Date = Date(year: int, month: int, day: int)

  predicate IsLeap(y: int) {
    y % 4 == 0 && (y % 100 != 0 || y % 400 == 0)
  }

  function YearLength(y: int): int {
    if IsLeap(y) then 366 else 365
  }

  /** Days from 0001-01-01 to January 1 of year `y`. */
  function DaysBeforeYear(y: int): int {
    var p := y - 1;
    365 * p + p / 4 - p / 100 + p / 400
  }

  /** Days from January 1 to the first day of month `m`; month 13 stands for
      the first of January of the next year. */
  function DaysBeforeMonth(y: int, m: int): int
    requires 1 <= m <= 13
  {
    var common :=
      if m == 1 then 0 else if m == 2 then 31 else if m == 3 then 59
      else if m == 4 then 90 else if m == 5 then 120 else if m == 6 then 151
      else if m == 7 then 181 else if m == 8 then 212 else if m == 9 then 243
      else if m == 10 then 273 else if m == 11 then 304 else if m == 12 then 334
      else 365;
    common + (if m > 2 && IsLeap(y) then 1 else 0)
  }

  function DaysIn(y: int, m: int): int
    requires 1 <= m <= 12
  {
    DaysBeforeMonth(y, m + 1) - DaysBeforeMonth(y, m)
  }

  predicate ValidDate(d: Date) {
    1 <= d.month <= 12 && 1 <= d.day <= DaysIn(d.year, d.month)
  }

  /** The day number that Go's `time.Date` computes for a year, a month in
      1..12 and ANY day of the month: a day past the end of the month runs on
      into the next ones, as Go normalises it. */
  function DaysFromCivil(y: int, m: int, d: int): int
    requires 1 <= m <= 12
  {
    DaysBeforeYear(y) + DaysBeforeMonth(y, m) + d - 1
  }

  lemma MonthLengths(y: int, m: int)
    requires 1 <= m <= 12
    ensures 28 <= DaysIn(y, m) <= 31
    ensures DaysBeforeMonth(y, 13) == YearLength(y)
  {
  }

  /** Consecutive years are a year's length apart. */
  lemma YearStep(y: int)
    ensures DaysBeforeYear(y + 1) == DaysBeforeYear(y) + YearLength(y)
  {
    StepQuotient(y, 4);
    StepQuotient(y, 100);
    StepQuotient(y, 400);
  }

  /** Moving from `y - 1` to `y` raises the quotient by `k` exactly when `y`
      is a multiple of `k`. */
  lemma StepQuotient(y: int, k: int)
    requires k == 4 || k == 100 || k == 400
    ensures y / k - (y - 1) / k == (if y % k == 0 then 1 else 0)
  {
    var q, r := (y - 1) / k, (y - 1) % k;
    assert y == k * q + r + 1;
    if r == k - 1 {
      assert y == k * (q + 1) + 0;
    } else {
      assert y == k * q + (r + 1) && 0 <= r + 1 < k;
    }
  }

  lemma {:induction false} DaysBeforeYearMonotone(a: int, b: int)
    requires a <= b
    ensures DaysBeforeYear(a) <= DaysBeforeYear(b)
    decreases b - a
  {
    if a < b {
      YearStep(a);
      DaysBeforeYearMonotone(a + 1, b);
    }
  }

  /** A later year starts no earlier than the end of an earlier one. */
  lemma YearsOrdered(a: int, b: int)
    ensures a < b ==> DaysBeforeYear(a + 1) <= DaysBeforeYear(b)
  {
    if a < b {
      DaysBeforeYearMonotone(a + 1, b);
    }
  }

  /** The day count of a year given as 400-, 100-, 4- and 1-year blocks. */
  lemma DaysBeforeBlocks(q: int, c: int, f: int, e: int)
    requires 0 <= c <= 3 && 0 <= f <= 24 && 0 <= e <= 3
    ensures DaysBeforeYear(1 + 400 * q + 100 * c + 4 * f + e)
         == 146097 * q + 36524 * c + 1461 * f + 365 * e
  {
    var x := 100 * c + 4 * f + e;
    var p := 400 * q + x;
    assert p / 4 == 100 * q + 25 * c + f;
    assert p / 100 == 4 * q + c;
    assert p / 400 == q;
  }

  /** Day `n` split as Go's `absDate` does: `q` whole 400-year cycles, then
      `c` centuries, `f` four-year blocks and `e` years, leaving day `doy` of
      the year reached. Only the last day of a leap year has `doy == 365`. */
  datatype Blocks = Blocks(q: int, c: int, f: int, e: int, doy: int)

  function BlocksOf(n: int): (b: Blocks)
    ensures 0 <= b.c <= 3 && 0 <= b.f <= 24 && 0 <= b.e <= 3
    ensures n == 146097 * b.q + 36524 * b.c + 1461 * b.f + 365 * b.e + b.doy
    ensures 0 <= b.doy <= 365
    ensures b.doy == 365 ==> b.e == 3 && (b.f < 24 || b.c == 3)
  {
    var q := n / 146097;
    var r := n % 146097;
    // The fourth century of a cycle is one day longer than the others.
    var c := if r / 36524 == 4 then 3 else r / 36524;
    var r1 := r - 36524 * c;
    assert 0 <= r1 <= 36524;
    assert r1 == 36524 ==> c == 3;
    var f := r1 / 1461;
    var r2 := r1 % 1461;
    assert r1 == 1461 * f + r2;
    assert 0 <= f <= 24;
    assert r2 == 1460 && f == 24 ==> r1 == 36524;
    // So is the fourth year of a four-year block.
    var e := if r2 / 365 == 4 then 3 else r2 / 365;
    var doy := r2 - 365 * e;
    assert doy == 365 ==> r2 == 1460;
    Blocks(q, c, f, e, doy)
  }

  /** The year that ends a four-year block is a leap year unless it ends a
      century other than the fourth of a 400-year cycle. */
  lemma BlockEndIsLeap(q: int, c: int, f: int)
    requires 0 <= c <= 3 && 0 <= f <= 24
    requires f < 24 || c == 3
    ensures IsLeap(1 + 400 * q + 100 * c + 4 * f + 3)
  {
    var y := 1 + 400 * q + 100 * c + 4 * f + 3;
    if f < 24 {
      assert y == 100 * (4 * q + c) + 4 * (f + 1);
      assert y % 100 == 4 * (f + 1);
      assert y == 4 * (100 * q + 25 * c + f + 1);
    } else {
      assert y == 400 * (q + 1);
    }
  }

  /** The year holding day number `n`. */
  function YearOf(n: int): (y: int)
    ensures DaysBeforeYear(y) <= n < DaysBeforeYear(y) + YearLength(y)
  {
    var b := BlocksOf(n);
    DaysBeforeBlocks(b.q, b.c, b.f, b.e);
    if b.doy == 365 then
      BlockEndIsLeap(b.q, b.c, b.f);
      1 + 400 * b.q + 100 * b.c + 4 * b.f + b.e
    else
      1 + 400 * b.q + 100 * b.c + 4 * b.f + b.e
  }

  /** The month of a year holding day `doy` of that year, searching upwards
      from month `m`. */
  function MonthOf(y: int, doy: int, m: int): (r: int)
    requires 1 <= m <= 12
    requires DaysBeforeMonth(y, m) <= doy < DaysBeforeMonth(y, 13)
    ensures m <= r <= 12
    ensures DaysBeforeMonth(y, r) <= doy < DaysBeforeMonth(y, r + 1)
    decreases 12 - m
  {
    if m == 12 || doy < DaysBeforeMonth(y, m + 1) then m else MonthOf(y, doy, m + 1)
  }

  /** The civil date of day number `n`; Go's `Time.Date`. */
  function CivilFromDays(n: int): (d: Date)
    ensures ValidDate(d)
    ensures DaysFromCivil(d.year, d.month, d.day) == n
  {
    var y := YearOf(n);
    MonthLengths(y, 1);
    var doy := n - DaysBeforeYear(y);
    var m := MonthOf(y, doy, 1);
    Date(y, m, doy - DaysBeforeMonth(y, m) + 1)
  }

  /** A day lying within year `y` is placed in year `y`. */
  lemma YearOfUnique(y: int, n: int)
    requires DaysBeforeYear(y) <= n < DaysBeforeYear(y) + YearLength(y)
    ensures YearOf(n) == y
  {
    var z := YearOf(n);
    YearStep(y);
    YearStep(z);
    YearsOrdered(z, y);
    YearsOrdered(y, z);
  }

  lemma DaysBeforeMonthMonotone(y: int, a: int, b: int)
    requires 1 <= a <= b <= 13
    ensures DaysBeforeMonth(y, a) <= DaysBeforeMonth(y, b)
  {
  }

  /** Searching upwards from month `k` finds the month `m` holding `doy`. */
  lemma {:induction false} MonthOfUnique(y: int, doy: int, k: int, m: int)
    requires 1 <= k <= m <= 12
    requires DaysBeforeMonth(y, k) <= doy < DaysBeforeMonth(y, 13)
    requires DaysBeforeMonth(y, m) <= doy < DaysBeforeMonth(y, m + 1)
    ensures MonthOf(y, doy, k) == m
    decreases m - k
  {
    if k < m {
      DaysBeforeMonthMonotone(y, k + 1, m);
      MonthOfUnique(y, doy, k + 1, m);
    }
  }

  /** The day number of a valid date is mapped back to that date: civil
      dates and day numbers are in one-to-one correspondence. */
  lemma CivilRoundTrip(d: Date)
    requires ValidDate(d)
    ensures CivilFromDays(DaysFromCivil(d.year, d.month, d.day)) == d
  {
    var n := DaysFromCivil(d.year, d.month, d.day);
    MonthLengths(d.year, d.month);
    DaysBeforeMonthMonotone(d.year, d.month + 1, 13);
    YearOfUnique(d.year, n);
    var doy := n - DaysBeforeYear(d.year);
    MonthOfUnique(d.year, doy, 1, d.month);
  }

  // ---------------------------------------------------------------------
  // Time.AddDate
  // ---------------------------------------------------------------------

  /** `time.Date(y, m, d, h, mi, s, 0, time.UTC)` for a valid month and a
      time of day given in seconds. */
  function Instant(y: int, m: int, d: int, secondOfDay: Second): Time
    requires 1 <= m <= 12
  {
    Time(DaysFromCivil(y, m, d), secondOfDay)
  }

  /** `t.AddDate(years, months, days)`: add to the civil year, month and day
      fields, carry the month into the year, and let a day past the end of
      the month overflow into the next month, as `time.Date` normalises it
      (January 31 plus one month is March 2 or 3). The time of day is kept. */
  function AddDate(t: Time, years: int, months: int, days: int): (r: Time)
    ensures r.second == t.second
    ensures years == 0 && months == 0 && days == 0 ==> r == t
  {
    var d := CivilFromDays(t.day);
    MonthIndex(d.month);
    var m0 := d.month - 1 + months;
    var y := d.year + years + m0 / 12;
    var m := m0 % 12 + 1;
    Instant(y, m, d.day + days, t.second)
  }

  /** Adding whole days moves the day number and keeps the time of day. */
  lemma AddDays(t: Time, days: int)
    ensures AddDate(t, 0, 0, days) == Time(t.day + days, t.second)
  {
    var d := CivilFromDays(t.day);
    AddDaysToDate(d.year, d.month, d.day, t.second, days);
  }

  /** Adding a month moves the instant forward by the length of the start
      month and keeps the time of day. */
  lemma AddMonth(t: Time)
    ensures var d := CivilFromDays(t.day);
            AddDate(t, 0, 1, 0) == Time(t.day + DaysIn(d.year, d.month), t.second)
  {
    var d := CivilFromDays(t.day);
    MonthStep(d.year, d.month, d.day, t.second);
    assert AddDate(t, 0, 1, 0) == Instant(d.year + d.month / 12, d.month % 12 + 1, d.day, t.second);
  }

  /** Adding a month always moves an instant forward. */
  lemma AddMonthForward(t: Time)
    ensures After(AddDate(t, 0, 1, 0), t)
  {
    AddMonth(t);
    var d := CivilFromDays(t.day);
    MonthLengths(d.year, d.month);
  }

  /** The day number a month after a day of month `m`, carrying December
      into January of the next year. */
  lemma MonthStep(y: int, m: int, day: int, s: Second)
    requires 1 <= m <= 12
    ensures Instant(y + m / 12, m % 12 + 1, day, s) == Time(DaysFromCivil(y, m, day) + DaysIn(y, m), s)
  {
    if m == 12 {
      YearStep(y);
    }
  }

  /** Adding a year moves the instant forward by 365 or 366 days and keeps
      the time of day. */
  lemma AddYear(t: Time)
    ensures 365 <= AddDate(t, 1, 0, 0).day - t.day <= 366
    ensures AddDate(t, 1, 0, 0).second == t.second
  {
    var d := CivilFromDays(t.day);
    assert t == Instant(d.year, d.month, d.day, t.second);
    AddYearToDate(d.year, d.month, d.day, t.second);
    YearShift(d.year, d.month, d.day);
  }

  /** The same month and day of the next year lie a year's length on. */
  lemma YearShift(y: int, m: int, day: int)
    requires 1 <= m <= 12
    ensures 365 <= DaysFromCivil(y + 1, m, day) - DaysFromCivil(y, m, day) <= 366
  {
    YearStep(y);
  }

  /** A month after a valid date: the same day number in the next month,
      normalised past the end of a shorter month, never clamped. */
  lemma AddMonthToDate(y: int, m: int, d: int, s: Second)
    requires ValidDate(Date(y, m, d))
    ensures AddDate(Instant(y, m, d, s), 0, 1, 0) == Instant(y + m / 12, m % 12 + 1, d, s)
  {
    CivilRoundTrip(Date(y, m, d));
  }

  /** A year after a valid date: the same month and day of the next year,
      normalised when that day does not exist. */
  lemma AddYearToDate(y: int, m: int, d: int, s: Second)
    requires ValidDate(Date(y, m, d))
    ensures AddDate(Instant(y, m, d, s), 1, 0, 0) == Instant(y + 1, m, d, s)
  {
    MonthIndex(m);
    CivilRoundTrip(Date(y, m, d));
  }

  /** Days after a valid date: the day of the month moves on and is
      normalised past the end of the month. */
  lemma AddDaysToDate(y: int, m: int, d: int, s: Second, days: int)
    requires ValidDate(Date(y, m, d))
    ensures AddDate(Instant(y, m, d, s), 0, 0, days) == Instant(y, m, d + days, s)
  {
    MonthIndex(m);
    CivilRoundTrip(Date(y, m, d));
  }

  /** Adding no months leaves a month index in place. */
  lemma MonthIndex(m: int)
    requires 1 <= m <= 12
    ensures (m - 1 + 0) / 12 == 0 && (m - 1 + 0) % 12 + 1 == m
  {
  }
}
