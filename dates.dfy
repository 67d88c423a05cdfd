/**
 * Calendar dates and the years component of java.time.Period.between,
 * which both SurveyResponse.getAge and SurveyService.calculateAge use.
 */
module Dates {

  datatype CalendarDate = CalendarDate(year: int, month: int, day: int)

  /** The proleptic Gregorian leap-year rule of the ISO calendar. */
  predicate IsLeapYear(y: int) {
    y % 4 == 0 && (y % 100 != 0 || y % 400 == 0)
  }

  function DaysInMonth(y: int, m: int): (days: int)
    requires 1 <= m <= 12
    ensures 28 <= days <= 31
    ensures days == 29 <==> m == 2 && IsLeapYear(y)
  {
    if m == 2 then (if IsLeapYear(y) then 29 else 28)
    else if m == 4 || m == 6 || m == 9 || m == 11 then 30
    else 31
  }

  predicate IsValidDate(d: CalendarDate) {
    1 <= d.month <= 12 && 1 <= d.day <= DaysInMonth(d.year, d.month)
  }

  /** A LocalDate: only real calendar days exist. */
  type Date = d: CalendarDate | IsValidDate(d) witness CalendarDate(1970, 1, 1)

  /** Month and day of `a` come strictly earlier in the year than those of `b`. */
  predicate MonthDayBefore(a: Date, b: Date) {
    a.month < b.month || (a.month == b.month && a.day < b.day)
  }

  /** Chronological order of dates. */
  predicate Before(a: Date, b: Date) {
    a.year < b.year || (a.year == b.year && MonthDayBefore(a, b))
  }

  predicate OnOrBefore(a: Date, b: Date) {
    !Before(b, a)
  }

  /** Java's `long / 12`, which truncates toward zero. */
  function WholeYears(months: int): (years: int)
    ensures months >= 0 ==> 0 <= months - 12 * years < 12
    ensures months < 0 ==> -12 < months - 12 * years <= 0
  {
    if months >= 0 then months / 12 else -((-months) / 12)
  }

  /**
   * The years component of Period.between(start, end), following the
   * JDK's LocalDate.until: the difference of proleptic months, moved one
   * month toward zero when the day of month has not been reached, and
   * truncated to whole years.
   */
  function PeriodYears(start: Date, end: Date): int {
    var totalMonths := (12 * end.year + end.month - 1) - (12 * start.year + start.month - 1);
    var days := end.day - start.day;
    var adjusted :=
      if totalMonths > 0 && days < 0 then totalMonths - 1
      else if totalMonths < 0 && days > 0 then totalMonths + 1
      else totalMonths;
    WholeYears(adjusted)
  }

  /**
   * Reference definition of an age: the difference of the years, less one
   * while this year's birthday has not come yet.
   */
  function FullYears(dob: Date, today: Date): int {
    today.year - dob.year - (if MonthDayBefore(today, dob) then 1 else 0)
  }

  /** For a date of birth on or before today, Period.between counts full years. */
  lemma PeriodYearsIsFullYears(dob: Date, today: Date)
    requires OnOrBefore(dob, today)
    ensures PeriodYears(dob, today) == FullYears(dob, today)
  {
    var y := today.year - dob.year;
    var m := today.month - dob.month;
    var totalMonths := 12 * y + m;
    assert totalMonths == (12 * today.year + today.month - 1) - (12 * dob.year + dob.month - 1);
    assert totalMonths >= 0;
    if m > 0 {
      assert 12 * y <= totalMonths - 1 < 12 * y + 12;
    } else if m == 0 {
      if today.day < dob.day {
        assert y > 0;
        assert 12 * (y - 1) <= totalMonths - 1 < 12 * y;
      }
    } else {
      assert y > 0;
      assert 12 * (y - 1) <= totalMonths - 1 < totalMonths < 12 * y;
    }
  }

  /** A date of birth after today never yields a positive age. */
  lemma PeriodYearsOfFutureDate(dob: Date, today: Date)
    requires Before(today, dob)
    ensures PeriodYears(dob, today) <= 0
  {
    var totalMonths := (12 * today.year + today.month - 1) - (12 * dob.year + dob.month - 1);
    assert totalMonths <= 0;
  }

  /** Both cases of a date of birth: on or before today, and after it. */
  lemma PeriodYearsCases(dob: Date, today: Date)
    ensures OnOrBefore(dob, today) ==> PeriodYears(dob, today) == FullYears(dob, today)
    ensures Before(today, dob) ==> PeriodYears(dob, today) <= 0
  {
    if OnOrBefore(dob, today) {
      PeriodYearsIsFullYears(dob, today);
    } else {
      PeriodYearsOfFutureDate(dob, today);
    }
  }

  /** An age never decreases as time goes on. */
  lemma PeriodYearsMonotone(dob: Date, t1: Date, t2: Date)
    requires OnOrBefore(dob, t1) && OnOrBefore(t1, t2)
    ensures PeriodYears(dob, t1) <= PeriodYears(dob, t2)
  {
    PeriodYearsIsFullYears(dob, t1);
    PeriodYearsIsFullYears(dob, t2);
  }

  /**
   * Between two days of the same year the age grows by exactly one if the
   * birthday falls in between (on the later day at the latest), and not at
   * all otherwise. A 29 February birthday is reached on 1 March in a common year.
   */
  lemma PeriodYearsWithinYear(dob: Date, t1: Date, t2: Date)
    requires OnOrBefore(dob, t1) && t1.year == t2.year && OnOrBefore(t1, t2)
    ensures PeriodYears(dob, t2) ==
              PeriodYears(dob, t1) + (if MonthDayBefore(t1, dob) && !MonthDayBefore(t2, dob) then 1 else 0)
  {
    PeriodYearsIsFullYears(dob, t1);
    PeriodYearsIsFullYears(dob, t2);
  }

  /** The calendar day before `d`. */
  function PreviousDay(d: Date): (p: Date)
    ensures Before(p, d)
    ensures d.day > 1 ==> p.year == d.year && p.month == d.month && p.day == d.day - 1
  {
    if d.day > 1 then CalendarDate(d.year, d.month, d.day - 1)
    else if d.month > 1 then CalendarDate(d.year, d.month - 1, DaysInMonth(d.year, d.month - 1))
    else CalendarDate(d.year - 1, 12, 31)
  }

  /**
   * The age steps up by exactly one on every birthday after the date of
   * birth, a 1 January birthday (whose day before is in the previous year)
   * included.
   */
  lemma PeriodYearsBirthdayStep(dob: Date, birthday: Date)
    requires dob.year < birthday.year && birthday.month == dob.month && birthday.day == dob.day
    ensures PeriodYears(dob, birthday) == PeriodYears(dob, PreviousDay(birthday)) + 1
  {
    var eve := PreviousDay(birthday);
    assert OnOrBefore(dob, eve);
    PeriodYearsIsFullYears(dob, birthday);
    PeriodYearsIsFullYears(dob, eve);
    if eve.year == birthday.year {
      assert MonthDayBefore(eve, dob);
    } else {
      assert eve.month == 12 && eve.day == 31 && birthday.month == 1 && birthday.day == 1;
    }
  }

  /** On a birthday the age is exactly the difference of the years. */
  lemma PeriodYearsOnBirthday(dob: Date, today: Date)
    requires dob.year <= today.year && today.month == dob.month && today.day == dob.day
    ensures PeriodYears(dob, today) == today.year - dob.year
  {
    PeriodYearsIsFullYears(dob, today);
  }
}
