/**
 * Calendar months over UTC time values: `subtractUtcCalendarMonths` of src/services/retentionPolicy.ts and
 * the month branch of `parseDateInput` in src/dates.ts, over the Gregorian day arithmetic of
 * section 21.4.1 of ECMA-262.
 */
module UtcCalendar {

  const MS_PER_DAY := 86_400_000

  // ----- day arithmetic -----

  /** `Day(t)` and `TimeWithinDay(t)`; division rounds down. */
  function Day(t: int): int { t / MS_PER_DAY }
  function TimeWithinDay(t: int): int { t % MS_PER_DAY }

  predicate IsLeap(year: int) {
    year % 4 == 0 && (year % 100 != 0 || year % 400 == 0)
  }

  /** The day number of 1 January. */
  function DayFromYear(year: int): int {
    365 * (year - 1970) + (year - 1969) / 4 - (year - 1901) / 100 + (year - 1601) / 400
  }

  function DaysInMonth(year: int, month: int): (n: int)
    ensures 28 <= n <= 31
  {
    if month == 1 then (if IsLeap(year) then 29 else 28)
    else if month == 3 || month == 5 || month == 8 || month == 10 then 30
    else 31
  }

  /** The days of a year before the first of a month. */
  function DaysBefore(year: int, month: int): int
    requires 0 <= month <= 12
  {
    if month == 0 then 0 else DaysBefore(year, month - 1) + DaysInMonth(year, month - 1)
  }

  lemma YearLength(year: int)
    ensures DayFromYear(year + 1) == DayFromYear(year) + DaysBefore(year, 12)
  {
    var february := DaysInMonth(year, 1);
    assert DaysBefore(year, 1) == 31;
    assert DaysBefore(year, 2) == 31 + february;
    assert DaysBefore(year, 4) == 31 + february + 61;
    assert DaysBefore(year, 6) == 31 + february + 122;
    assert DaysBefore(year, 8) == 31 + february + 184;
    assert DaysBefore(year, 10) == 31 + february + 245;
    assert DaysBefore(year, 12) == 31 + february + 306;
    LeapStep(year);
  }

  lemma LeapStep(year: int)
    ensures DayFromYear(year + 1) - DayFromYear(year) == if IsLeap(year) then 366 else 365
  {
    assert (year - 1968) / 4 - (year - 1969) / 4 == if year % 4 == 0 then 1 else 0;
    assert (year - 1900) / 100 - (year - 1901) / 100 == if year % 100 == 0 then 1 else 0;
    assert (year - 1600) / 400 - (year - 1601) / 400 == if year % 400 == 0 then 1 else 0;
    assert year % 400 == 0 ==> year % 100 == 0;
    assert year % 100 == 0 ==> year % 4 == 0;
  }

  /** Thirty days have April, June, September and November. */
  lemma MonthLengths(year: int, month: int)
    ensures month == 1 ==> DaysInMonth(year, month) == if IsLeap(year) then 29 else 28
    ensures month in {3, 5, 8, 10} ==> DaysInMonth(year, month) == 30
    ensures month in {0, 2, 4, 6, 7, 9, 11} ==> DaysInMonth(year, month) == 31
  {
    hide IsLeap;
  }

  // ----- months counted from year 0 -----

  /** The day number of the first of a month, and its length. */
  function MonthStart(k: int): int { DayFromYear(k / 12) + DaysBefore(k / 12, k % 12) }
  function MonthLength(k: int): (n: int)
    ensures 28 <= n <= 31
  {
    DaysInMonth(k / 12, k % 12)
  }

  lemma MonthsAdjoin(k: int)
    ensures MonthStart(k + 1) == MonthStart(k) + MonthLength(k)
  {
    hide DayFromYear, DaysInMonth;
    if k % 12 == 11 {
      YearLength(k / 12);
      assert (k + 1) / 12 == k / 12 + 1 && (k + 1) % 12 == 0;
    } else {
      assert (k + 1) / 12 == k / 12 && (k + 1) % 12 == k % 12 + 1;
    }
  }

  lemma {:induction false} MonthsOrdered(j: int, k: int)
    requires j < k
    ensures MonthStart(j) + MonthLength(j) <= MonthStart(k)
    decreases k - j
  {
    hide MonthStart, MonthLength;
    MonthsAdjoin(j);
    if j + 1 < k {
      MonthsOrdered(j + 1, k);
    }
  }

  /** A date: the month counted from January of year 0, and the day of the month. */
  datatype Civil = Civil(month: int, day: int)

  predicate Valid(c: Civil) { 1 <= c.day <= MonthLength(c.month) }

  function DayNumber(c: Civil): int { MonthStart(c.month) + c.day - 1 }

  /** The month that holds a day, looked for from month `k`. */
  function MonthOf(day: int, k: int): (m: int)
    ensures MonthStart(m) <= day < MonthStart(m) + MonthLength(m)
    decreases if day < MonthStart(k) then 1 else 0, if day < MonthStart(k) then MonthStart(k) - day else day - MonthStart(k)
  {
    hide MonthStart, MonthLength;
    MonthsAdjoin(k);
    MonthsAdjoin(k - 1);
    if day < MonthStart(k) then MonthOf(day, k - 1)
    else if day >= MonthStart(k + 1) then MonthOf(day, k + 1)
    else k
  }

  /** The date of a day number: what the `getUTC` accessors read. */
  function CivilOf(day: int): (c: Civil)
    ensures Valid(c) && DayNumber(c) == day
  {
    hide MonthStart, MonthLength;
    var m := MonthOf(day, 1970 * 12);
    Civil(m, day - MonthStart(m) + 1)
  }

  /** Earlier dates have smaller day numbers, and no two dates share one. */
  lemma DatesOrdered(a: Civil, b: Civil)
    requires Valid(a) && Valid(b)
    ensures DayNumber(a) <= DayNumber(b) <==> a.month < b.month || (a.month == b.month && a.day <= b.day)
  {
    hide MonthStart, MonthLength;
    if a.month < b.month {
      MonthsOrdered(a.month, b.month);
    } else if b.month < a.month {
      MonthsOrdered(b.month, a.month);
    }
  }

  lemma CivilOfSound(day: int)
    ensures Valid(CivilOf(day)) && DayNumber(CivilOf(day)) == day
  {
  }

  lemma CivilOfDay(c: Civil)
    requires Valid(c)
    ensures CivilOf(DayNumber(c)) == c
  {
    hide MonthStart, MonthLength, CivilOf;
    DatesOrdered(c, CivilOf(DayNumber(c)));
    DatesOrdered(CivilOf(DayNumber(c)), c);
  }

  /** Day 0 is 1 January 1970, and day 11,016 the leap day of the year 2000; a day has 86,400,000 milliseconds. */
  lemma Epoch()
    ensures DayNumber(Civil(12 * 1970, 1)) == 0 && DayNumber(Civil(12 * 2000 + 1, 29)) == 11_016
    ensures Valid(Civil(12 * 2000 + 1, 29)) && !Valid(Civil(12 * 1900 + 1, 29))
    ensures forall t :: Day(t) == t / 86_400_000 && TimeWithinDay(t) == t - 86_400_000 * Day(t)
  {
    assert 12 * 1970 / 12 == 1970 && 12 * 1970 % 12 == 0;
    assert (12 * 2000 + 1) / 12 == 2000 && (12 * 2000 + 1) % 12 == 1 && DaysBefore(2000, 1) == 31;
    assert (12 * 1900 + 1) / 12 == 1900 && (12 * 1900 + 1) % 12 == 1;
  }

  // ----- Date -----

  function YearOf(t: int): int { CivilOf(Day(t)).month / 12 }
  function MonthInYear(t: int): int { CivilOf(Day(t)).month % 12 }
  function DateOf(t: int): int { CivilOf(Day(t)).day }

  /** `MakeDay`: month and day may be out of range and carry over. */
  function MakeDay(year: int, month: int, date: int): int {
    MonthStart(12 * year + month) + date - 1
  }

  function MakeDate(day: int, time: int): int { day * MS_PER_DAY + time }

  /** `Date.UTC`: a year from 0 to 99 means 1900 to 1999. */
  function FullYear(year: int): int { if 0 <= year <= 99 then 1900 + year else year }
  function Utc(year: int, month: int, date: int, time: int): int {
    MakeDate(MakeDay(FullYear(year), month, date), time)
  }

  lemma SplitTime(day: int, time: int)
    requires 0 <= time < MS_PER_DAY
    ensures Day(MakeDate(day, time)) == day && TimeWithinDay(MakeDate(day, time)) == time
  {
  }

  /** The remainder of ECMAScript, with the sign of the dividend. */
  function Remainder(x: int, y: int): int
    requires y > 0
  {
    if x >= 0 then x % y else -((-x) % y)
  }

  // ----- the two subtractions -----

  function Min(a: int, b: int): int { if a <= b then a else b }

  function TargetYear(t: int, months: int): int {
    YearOf(t) + (MonthInYear(t) - months) / 12
  }

  function TargetMonth(t: int, months: int): int {
    (Remainder(MonthInYear(t) - months, 12) + 12) % 12
  }

  /** `subtractUtcCalendarMonths`. */
  function Subtract(t: int, months: int): int {
    var lastTargetDay := DateOf(Utc(TargetYear(t, months), TargetMonth(t, months) + 1, 0, 0));
    Utc(TargetYear(t, months), TargetMonth(t, months), Min(DateOf(t), lastTargetDay), TimeWithinDay(t))
  }

  /** The `-Nm` branch of `parseDateInput`: `setUTCMonth` carries over. */
  function ParseMonths(t: int, months: int): int {
    MakeDate(MakeDay(YearOf(t), MonthInYear(t) - months, DateOf(t)), TimeWithinDay(t))
  }

  // ----- what they compute -----

  /** The month a subtraction should land in. */
  function Wanted(t: int, months: int): int { CivilOf(Day(t)).month - months }

  /** `Date.UTC` leaves the target year alone. */
  predicate PlainYear(t: int, months: int) {
    TargetYear(t, months) < 0 || TargetYear(t, months) > 99
  }

  lemma TargetIsWanted(t: int, months: int)
    ensures 0 <= TargetMonth(t, months) < 12
    ensures 12 * TargetYear(t, months) + TargetMonth(t, months) == Wanted(t, months)
  {
    hide CivilOf;
    var k := CivilOf(Day(t)).month;
    var x := k % 12 - months;
    assert TargetMonth(t, months) == x % 12 by { RemainderIsModulo(x); }
    assert k == 12 * (k / 12) + k % 12 && x == 12 * (x / 12) + x % 12;
  }

  lemma RemainderIsModulo(x: int)
    ensures (Remainder(x, 12) + 12) % 12 == x % 12
  {
  }

  /** Day 0 of the next month is the last day of this one. */
  lemma LastDay(year: int, month: int)
    ensures DateOf(Utc(year, month + 1, 0, 0)) == MonthLength(12 * FullYear(year) + month)
  {
    hide CivilOf, MonthStart, MonthLength;
    var k := 12 * FullYear(year) + month;
    MonthsAdjoin(k);
    var last := Civil(k, MonthLength(k));
    CivilOfDay(last);
    SplitTime(DayNumber(last), 0);
    assert MakeDay(FullYear(year), month + 1, 0) == DayNumber(last);
  }

  /** Where the subtraction lands in any case: in the month `Date.UTC` makes of the target, on the clamped day. */
  lemma SubtractLands(t: int, months: int)
    ensures var landed := Wanted(t, months) + if PlainYear(t, months) then 0 else 12 * 1900;
            && CivilOf(Day(Subtract(t, months))) == Civil(landed, Min(DateOf(t), MonthLength(landed)))
            && TimeWithinDay(Subtract(t, months)) == TimeWithinDay(t)
  {
    hide CivilOf, MonthStart, MonthLength, TargetYear, TargetMonth;
    TargetIsWanted(t, months);
    var year, month := TargetYear(t, months), TargetMonth(t, months);
    LastDay(year, month);
    var landed := 12 * FullYear(year) + month;
    var c := Civil(landed, Min(DateOf(t), MonthLength(landed)));
    CivilOfDay(c);
    SplitTime(DayNumber(c), TimeWithinDay(t));
    assert Subtract(t, months) == MakeDate(DayNumber(c), TimeWithinDay(t));
  }

  /**
   * The subtraction lands exactly `months` months earlier if and only if the target year is not
   * one of 0 to 99; then on the greatest day of that month that is not after the original day,
   * with the time of day kept.
   */
  lemma LandsOnWantedMonth(t: int, months: int)
    ensures CivilOf(Day(Subtract(t, months))).month == Wanted(t, months) <==> PlainYear(t, months)
    ensures PlainYear(t, months) ==>
              && TimeWithinDay(Subtract(t, months)) == TimeWithinDay(t)
              && DateOf(Subtract(t, months)) <= DateOf(t)
              && forall d :: Valid(Civil(Wanted(t, months), d)) && d <= DateOf(t) ==> d <= DateOf(Subtract(t, months))
  {
    hide CivilOf, Subtract, PlainYear;
    SubtractLands(t, months);
  }

  /** Subtracting no months changes nothing. */
  lemma SubtractNone(t: int)
    ensures Subtract(t, 0) == t <==> PlainYear(t, 0)
  {
    hide Subtract, PlainYear, DayNumber, MonthLength;
    SubtractLands(t, 0);
    var s := Subtract(t, 0);
    assert DateOf(t) <= MonthLength(Wanted(t, 0)) by { assert Valid(CivilOf(Day(t))); }
    hide CivilOf;
    if PlainYear(t, 0) {
      assert CivilOf(Day(s)) == CivilOf(Day(t));
      SameInstant(s, t);
    }
  }

  lemma SameInstant(s: int, t: int)
    requires CivilOf(Day(s)) == CivilOf(Day(t)) && TimeWithinDay(s) == TimeWithinDay(t)
    ensures s == t
  {
    assert Day(s) == DayNumber(CivilOf(Day(s))) == Day(t);
  }

  /** Times are ordered by date, then by time of day. */
  lemma TimesOrdered(s: int, t: int)
    ensures var a, b := CivilOf(Day(s)), CivilOf(Day(t));
            s <= t <==> (a.month < b.month || (a.month == b.month && (a.day < b.day
                         || (a.day == b.day && TimeWithinDay(s) <= TimeWithinDay(t)))))
  {
    var a, b := CivilOf(Day(s)), CivilOf(Day(t));
    DatesOrdered(a, b);
    DatesOrdered(b, a);
    assert DayNumber(a) == Day(s) && DayNumber(b) == Day(t);
    hide CivilOf, DayNumber, MonthLength;
    assert s == Day(s) * MS_PER_DAY + TimeWithinDay(s) && t == Day(t) * MS_PER_DAY + TimeWithinDay(t);
  }

  /** Both dates are cut to the end of the target month, and the earlier one has the later time of day. */
  predicate ClampSwaps(s: int, t: int, months: int) {
    && CivilOf(Day(s)).month == CivilOf(Day(t)).month
    && MonthLength(Wanted(s, months)) <= DateOf(s) < DateOf(t)
    && TimeWithinDay(s) > TimeWithinDay(t)
  }

  /** Later dates stay later; later instants too, except exactly when the clamp puts two dates on one day. */
  lemma SubtractMonotone(s: int, t: int, months: int)
    requires s <= t && PlainYear(s, months) && PlainYear(t, months)
    ensures Day(Subtract(s, months)) <= Day(Subtract(t, months))
    ensures Subtract(s, months) <= Subtract(t, months) <==> !ClampSwaps(s, t, months)
  {
    hide CivilOf, Subtract, PlainYear, MonthLength, DayNumber;
    SubtractLands(s, months);
    SubtractLands(t, months);
    TimesOrdered(s, t);
    TimesOrdered(Subtract(s, months), Subtract(t, months));
    CivilOfSound(Day(Subtract(s, months)));
    CivilOfSound(Day(Subtract(t, months)));
    DatesOrdered(CivilOf(Day(Subtract(s, months))), CivilOf(Day(Subtract(t, months))));
  }

  /** An instant by its date, the month counted from 0. */
  function At(year: int, month: int, day: int, time: int): int {
    MakeDate(DayNumber(Civil(12 * year + month, day)), time)
  }

  /** Where a subtraction from a date lands, as an instant. */
  lemma SubtractAt(c: Civil, time: int, months: int)
    requires Valid(c) && 0 <= time < MS_PER_DAY
    ensures var t := MakeDate(DayNumber(c), time);
            var landed := c.month - months + if PlainYear(t, months) then 0 else 12 * 1900;
            && 12 * TargetYear(t, months) <= c.month - months < 12 * TargetYear(t, months) + 12
            && Subtract(t, months) == MakeDate(DayNumber(Civil(landed, Min(c.day, MonthLength(landed)))), time)
  {
    hide CivilOf, Subtract, PlainYear, MonthLength, DayNumber, TargetYear, TargetMonth;
    var t := MakeDate(DayNumber(c), time);
    SplitTime(DayNumber(c), time);
    CivilOfDay(c);
    SubtractLands(t, months);
    TargetIsWanted(t, months);
    CivilOfSound(Day(Subtract(t, months)));
    assert Subtract(t, months) == MakeDate(Day(Subtract(t, months)), TimeWithinDay(Subtract(t, months)));
  }

  /** Noon of 30 March and midnight of 31 March 2026, one month back: both land on 28 February, in the other order. */
  lemma ClampSwapsInstants()
    ensures At(2026, 2, 30, MS_PER_DAY / 2) < At(2026, 2, 31, 0)
    ensures Subtract(At(2026, 2, 30, MS_PER_DAY / 2), 1) == At(2026, 1, 28, MS_PER_DAY / 2)
    ensures Subtract(At(2026, 2, 31, 0), 1) == At(2026, 1, 28, 0) < At(2026, 1, 28, MS_PER_DAY / 2)
  {
    var march := 12 * 2026 + 2;
    assert MonthLength(march - 1) == 28 && MonthLength(march) == 31;
    hide MonthLength, MonthStart, Subtract, TargetYear;
    SubtractAt(Civil(march, 30), MS_PER_DAY / 2, 1);
    SubtractAt(Civil(march, 31), 0, 1);
  }

  /** Midnight of 15 January of the year 100, one month back: it lands in December 1999. */
  lemma CenturyMoved()
    ensures Subtract(At(100, 0, 15, 0), 1) == At(1999, 11, 15, 0)
  {
    var january := 12 * 100;
    assert MonthLength(january) == 31;
    assert MonthLength(january - 1 + 12 * 1900) == 31;
    hide MonthLength, MonthStart, Subtract, TargetYear;
    SubtractAt(Civil(january, 15), 0, 1);
  }

  /** More months land no later. */
  lemma SubtractAntitone(t: int, m: int, n: int)
    requires m <= n && PlainYear(t, m) && PlainYear(t, n)
    ensures Subtract(t, n) <= Subtract(t, m)
    ensures m < n ==> Subtract(t, n) < Subtract(t, m)
  {
    hide CivilOf, Subtract, PlainYear;
    SubtractLands(t, m);
    SubtractLands(t, n);
    TimesOrdered(Subtract(t, n), Subtract(t, m));
    TimesOrdered(Subtract(t, m), Subtract(t, n));
  }

  /**
   * Two steps land no later than one, and on the same instant exactly when the month in between
   * is long enough for the day on which the single step lands.
   */
  lemma SubtractTwice(t: int, m: int, n: int)
    requires PlainYear(t, m) && PlainYear(t, m + n) && PlainYear(Subtract(t, m), n)
    ensures Subtract(Subtract(t, m), n) <= Subtract(t, m + n)
    ensures Subtract(Subtract(t, m), n) == Subtract(t, m + n)
       <==> DateOf(Subtract(t, m + n)) <= MonthLength(Wanted(t, m))
  {
    hide CivilOf, Subtract, PlainYear, MonthLength;
    var u := Subtract(t, m);
    SubtractLands(t, m);
    SubtractLands(u, n);
    SubtractLands(t, m + n);
    TimesOrdered(Subtract(u, n), Subtract(t, m + n));
    assert Wanted(u, n) == Wanted(t, m + n);
    if DateOf(Subtract(t, m + n)) <= MonthLength(Wanted(t, m)) {
      SameInstant(Subtract(u, n), Subtract(t, m + n));
    }
  }

  /** The relative date that overflows is later by exactly the days the clamp cuts off. */
  lemma ParseMonthsLater(t: int, months: int)
    requires PlainYear(t, months)
    ensures var cut := DateOf(t) - MonthLength(Wanted(t, months));
            ParseMonths(t, months) - Subtract(t, months) == (if cut > 0 then cut else 0) * MS_PER_DAY
  {
    hide CivilOf, Subtract, PlainYear, MonthLength, MonthStart;
    SubtractLands(t, months);
    TargetIsWanted(t, months);
    var s, k := Subtract(t, months), CivilOf(Day(t)).month;
    assert 12 * (k / 12) + (k % 12 - months) == Wanted(t, months);
    assert Day(s) == DayNumber(CivilOf(Day(s))) by { CivilOfSound(Day(s)); }
    assert s == Day(s) * MS_PER_DAY + TimeWithinDay(s);
  }
}
