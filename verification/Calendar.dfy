/**
 Unix seconds to an RFC 3339 string (`format_timestamp` of `src/web/fetch/evidence.rs`).

 The source computes the date with a closed formula in 64-bit signed integers.
 Here the same formula runs on a 64-bit newtype, so every intermediate is proved
 to fit, and the dates it gives are proved to be the days of the Gregorian
 calendar counted one by one from 1970-01-01.
 */
module Calendar {
  import opened Prelude

  newtype u64 = x: int | 0 <= x < 0x1_0000_0000_0000_0000
  newtype i64 = x: int | -0x8000_0000_0000_0000 <= x < 0x8000_0000_0000_0000

  datatype Date = Date(year: int, month: int, day: int)

  /** Days as the formula counts them: an era of 400 years, a year of it and a day of that year, from 1 March. */
  datatype MarchDay = MarchDay(era: int, yoe: int, doy: int)

  // ----- The formula -----

  const MAX_DAYS: i64 := 213_503_982_334_601

  /** The era of a day number; the source's division truncates toward zero. */
  function Era(z: i64): (era: i64)
    requires -MAX_DAYS <= z <= 2 * MAX_DAYS
    ensures 146_097 * era as int <= z as int < 146_097 * (era as int + 1)
  {
    if z >= 0 then z / 146_097 else -((146_096 - z) / 146_097)
  }

  function MarchDayOf(days: i64): MarchDay
    requires 0 <= days <= MAX_DAYS
  {
    var z := days + 719_468;
    var era := Era(z);
    var doe := z - era * 146_097;
    var yoe := (doe - doe / 1460 + doe / 36_524 - doe / 146_096) / 365;
    var doy := doe - (365 * yoe + yoe / 4 - yoe / 100);
    MarchDay(era as int, yoe as int, doy as int)
  }

  function CivilOf(era: i64, yoe: i64, doy: i64): Date
    requires 0 <= era <= MAX_DAYS && 0 <= yoe <= 399 && 0 <= doy <= 365
  {
    var y := yoe + era * 400;
    var mp := (5 * doy + 2) / 153;
    var d := doy - (153 * mp + 2) / 5 + 1;
    var m := if mp < 10 then mp + 3 else mp - 9;
    var year := if m <= 2 then y + 1 else y;
    Date(year as int, m as int, d as int)
  }

  /** The date of a day counted from 1970-01-01. */
  function Civil(days: i64): Date
    requires 0 <= days <= MAX_DAYS
  {
    MarchDayIsSound(days);
    var day := MarchDayOf(days);
    CivilOf(day.era as i64, day.yoe as i64, day.doy as i64)
  }

  // ----- The Gregorian calendar -----

  predicate IsLeap(year: int) {
    year % 4 == 0 && (year % 100 != 0 || year % 400 == 0)
  }

  function DaysInMonth(year: int, month: int): int {
    if month == 2 then (if IsLeap(year) then 29 else 28)
    else if month == 4 || month == 6 || month == 9 || month == 11 then 30
    else 31
  }

  predicate IsDate(date: Date) {
    1 <= date.month <= 12 && 1 <= date.day <= DaysInMonth(date.year, date.month)
  }

  function NextDate(date: Date): Date {
    if date.day < DaysInMonth(date.year, date.month) then date.(day := date.day + 1)
    else if date.month < 12 then Date(date.year, date.month + 1, 1)
    else Date(date.year + 1, 1, 1)
  }

  // ----- Years of an era -----

  /** Days before year `yoe` of an era. */
  function YearStart(yoe: int): int {
    365 * yoe + yoe / 4 - yoe / 100
  }

  predicate IsMarchDay(day: MarchDay) {
    0 <= day.yoe <= 399 && 0 <= day.doy <= (if IsLeap(day.yoe + 1) then 365 else 364)
  }

  function DayCount(day: MarchDay): int {
    146_097 * day.era + YearStart(day.yoe) + day.doy
  }

  /** A day of an era as centuries, four-year groups, years and days. */
  lemma SplitDay(doe: int) returns (c: int, q: int, t: int, u: int)
    requires 0 <= doe < 146_097
    ensures 0 <= c <= 3 && 0 <= q <= 24 && 0 <= t <= 3 && 0 <= u <= 365
    ensures doe == 36_524 * c + 1461 * q + 365 * t + u
    ensures u == 365 ==> t == 3 && (q < 24 || c == 3)
  {
    c := if doe / 36_524 < 3 then doe / 36_524 else 3;
    var r := doe - 36_524 * c;
    q := if r / 1461 < 24 then r / 1461 else 24;
    var s := r - 1461 * q;
    t := if s / 365 < 3 then s / 365 else 3;
    u := s - 365 * t;
  }

  lemma YearOfSplit(c: int, q: int, t: int)
    requires 0 <= c <= 3 && 0 <= q <= 24 && 0 <= t <= 3
    ensures (100 * c + 4 * q + t) / 4 == 25 * c + q
    ensures (100 * c + 4 * q + t) / 100 == c
    ensures IsLeap(100 * c + 4 * q + t + 1) <==> t == 3 && (q < 24 || c == 3)
  {
    var y := 100 * c + 4 * q + t;
    assert y == 4 * (25 * c + q) + t;
    assert y == 100 * c + (4 * q + t);
    if t == 3 {
      assert y + 1 == 4 * (25 * c + q + 1);
      if q == 24 {
        assert y + 1 == 100 * (c + 1);
      } else {
        assert y + 1 == 100 * c + (4 * q + 4);
      }
    } else {
      assert y + 1 == 4 * (25 * c + q) + (t + 1);
    }
  }

  lemma By1460(n: int, q: int)
    requires 1460 * q <= n < 1460 * (q + 1)
    ensures n / 1460 == q
  {
  }

  lemma By365(n: int, q: int)
    requires 365 * q <= n < 365 * (q + 1)
    ensures n / 365 == q
  {
  }

  lemma ByCentury(doe: int, c: int)
    requires 0 <= c <= 3 && 36_524 * c <= doe < 36_524 * (c + 1) + (if c == 3 then 1 else 0)
    ensures doe / 36_524 - doe / 146_096 == c
  {
  }

  lemma YearFormula(doe: int, c: int, q: int, t: int, u: int)
    requires 0 <= c <= 3 && 0 <= q <= 24 && 0 <= t <= 3 && 0 <= u <= 365
    requires doe == 36_524 * c + 1461 * q + 365 * t + u && doe < 146_097
    requires u == 365 ==> t == 3 && (q < 24 || c == 3)
    ensures (doe - doe / 1460 + doe / 36_524 - doe / 146_096) / 365 == 100 * c + 4 * q + t
  {
    var w := 24 * c + q + 365 * t + u;
    var carry := if w >= 1460 then 1 else 0;
    By1460(doe, 25 * c + q + carry);
    ByCentury(doe, c);
    By365(doe - doe / 1460 + doe / 36_524 - doe / 146_096, 100 * c + 4 * q + t);
  }

  /** The formula's era, year and day are in range, obey the leap rule and count back to the day they came from. */
  lemma MarchDayIsSound(days: i64)
    requires 0 <= days <= MAX_DAYS
    ensures IsMarchDay(MarchDayOf(days)) && DayCount(MarchDayOf(days)) == days as int + 719_468
    ensures 0 <= MarchDayOf(days).era <= MAX_DAYS as int
  {
    var day := MarchDayOf(days);
    var doe := days as int + 719_468 - 146_097 * day.era;
    var c, q, t, u := SplitDay(doe);
    YearFormula(doe, c, q, t, u);
    assert day.yoe == 100 * c + 4 * q + t;
    YearOfSplit(c, q, t);
    assert YearStart(day.yoe) == 36_524 * c + 1461 * q + 365 * t;
    assert day.doy == u;
  }

  // ----- One day later -----

  function NextMarchDay(day: MarchDay): MarchDay {
    if day.doy < (if IsLeap(day.yoe + 1) then 365 else 364) then day.(doy := day.doy + 1)
    else if day.yoe < 399 then MarchDay(day.era, day.yoe + 1, 0)
    else MarchDay(day.era + 1, 0, 0)
  }

  /** A year of an era ends where the next one starts. */
  lemma YearLength(yoe: int)
    requires 0 <= yoe < 400
    ensures YearStart(yoe) + (if IsLeap(yoe + 1) then 366 else 365) ==
              if yoe == 399 then 146_097 else YearStart(yoe + 1)
  {
    var next := yoe + 1;
    Steps4(yoe);
    Steps100(yoe);
    assert next % 400 == 0 <==> next == 400;
    assert next % 100 == 0 ==> next % 4 == 0;
    assert yoe == 399 ==> YearStart(400) == 146_097 - 1;
  }

  lemma Steps4(n: int)
    ensures (n + 1) / 4 == n / 4 + if (n + 1) % 4 == 0 then 1 else 0
  {
  }

  lemma Steps100(n: int)
    ensures (n + 1) / 100 == n / 100 + if (n + 1) % 100 == 0 then 1 else 0
  {
  }

  lemma NextMarchDayCounts(day: MarchDay)
    requires IsMarchDay(day)
    ensures IsMarchDay(NextMarchDay(day)) && DayCount(NextMarchDay(day)) == DayCount(day) + 1
  {
    YearLength(day.yoe);
  }

  lemma {:induction false} YearStartsAscend(a: int, b: int)
    requires 0 <= a < b <= 399
    ensures YearStart(a) + (if IsLeap(a + 1) then 366 else 365) <= YearStart(b)
    decreases b - a
  {
    YearLength(a);
    if a + 1 < b {
      YearStartsAscend(a + 1, b);
    }
  }

  /** No two days of the eras have the same count. */
  lemma DayCountIsUnique(a: MarchDay, b: MarchDay)
    requires IsMarchDay(a) && IsMarchDay(b) && DayCount(a) == DayCount(b)
    ensures a == b
  {
    InEra(a);
    InEra(b);
    assert a.era == b.era;
    if a.yoe < b.yoe {
      YearStartsAscend(a.yoe, b.yoe);
    } else if b.yoe < a.yoe {
      YearStartsAscend(b.yoe, a.yoe);
    }
  }

  lemma InEra(day: MarchDay)
    requires IsMarchDay(day)
    ensures 0 <= YearStart(day.yoe) + day.doy < 146_097
  {
    YearLength(day.yoe);
    if day.yoe < 399 {
      YearLength(399);
      YearStartsAscend(day.yoe, 399);
    }
  }

  lemma MarchDaysFollow(days: i64)
    requires 0 <= days < MAX_DAYS
    ensures MarchDayOf(days + 1) == NextMarchDay(MarchDayOf(days))
  {
    MarchDayIsSound(days);
    MarchDayIsSound(days + 1);
    NextMarchDayCounts(MarchDayOf(days));
    DayCountIsUnique(MarchDayOf(days + 1), NextMarchDay(MarchDayOf(days)));
  }

  // ----- Months -----

  /** The day of the March-based year on which month `mp` starts. */
  function MonthStart(mp: int): int {
    (153 * mp + 2) / 5
  }

  lemma MonthOfDay(doy: int)
    requires 0 <= doy <= 365
    ensures var mp := (5 * doy + 2) / 153;
            0 <= mp <= 11 && MonthStart(mp) <= doy < (if mp == 11 then 366 else MonthStart(mp + 1))
  {
  }

  lemma LeapYearsRepeat(era: int, year: int)
    ensures IsLeap(year + 400 * era) <==> IsLeap(year)
  {
    assert year + 400 * era == year + 4 * (100 * era) == year + 100 * (4 * era);
    RemainderBy4(year, 100 * era);
    RemainderBy100(year, 4 * era);
    RemainderBy400(year, era);
  }

  lemma RemainderBy4(n: int, k: int)
    ensures (n + 4 * k) % 4 == n % 4
  {
  }

  lemma RemainderBy100(n: int, k: int)
    ensures (n + 100 * k) % 100 == n % 100
  {
  }

  lemma RemainderBy400(n: int, k: int)
    ensures (n + 400 * k) % 400 == n % 400
  {
  }

  /** A month of the formula, 0 being March, is a month of the calendar and has its length. */
  lemma MonthLengths(year: int, mp: int)
    requires 0 <= mp <= 11
    ensures var month := if mp < 10 then mp + 3 else mp - 9;
            1 <= month <= 12 && (mp < 11 ==> MonthStart(mp + 1) - MonthStart(mp) == DaysInMonth(year, month))
    ensures mp == 11 ==> MonthStart(11) + DaysInMonth(year, 2) == if IsLeap(year) then 366 else 365
  {
    if mp == 0 { assert MonthStart(0) == 0 && MonthStart(1) == 31; }
    else if mp == 1 { assert MonthStart(1) == 31 && MonthStart(2) == 61; }
    else if mp == 2 { assert MonthStart(2) == 61 && MonthStart(3) == 92; }
    else if mp == 3 { assert MonthStart(3) == 92 && MonthStart(4) == 122; }
    else if mp == 4 { assert MonthStart(4) == 122 && MonthStart(5) == 153; }
    else if mp == 5 { assert MonthStart(5) == 153 && MonthStart(6) == 184; }
    else if mp == 6 { assert MonthStart(6) == 184 && MonthStart(7) == 214; }
    else if mp == 7 { assert MonthStart(7) == 214 && MonthStart(8) == 245; }
    else if mp == 8 { assert MonthStart(8) == 245 && MonthStart(9) == 275; }
    else if mp == 9 { assert MonthStart(9) == 275 && MonthStart(10) == 306; }
    else if mp == 10 { assert MonthStart(10) == 306 && MonthStart(11) == 337; }
  }

  function MonthIndex(doy: int): int {
    (5 * doy + 2) / 153
  }

  lemma MonthIndexIs(doy: int, mp: int)
    requires 0 <= mp <= 11 && MonthStart(mp) <= doy < (if mp == 11 then 366 else MonthStart(mp + 1))
    ensures MonthIndex(doy) == mp
  {
  }

  /** The formula's date is a date of the calendar. */
  lemma CivilIsDate(era: i64, yoe: i64, doy: i64)
    requires 0 <= era <= MAX_DAYS
    requires IsMarchDay(MarchDay(era as int, yoe as int, doy as int))
    ensures IsDate(CivilOf(era, yoe, doy))
  {
    var mp := MonthIndex(doy as int);
    MonthOfDay(doy as int);
    var date := CivilOf(era, yoe, doy);
    MonthLengths(date.year, mp);
    LeapYearsRepeat(era as int, yoe as int + 1);
  }

  /** The date of day `doy` of a March-based year, in its month `mp`. */
  function DateIn(era: int, yoe: int, doy: int, mp: int): Date {
    Date(
      yoe + 400 * era + (if mp < 10 then 0 else 1), if mp < 10 then mp + 3 else mp - 9, doy - MonthStart(mp) + 1)
  }

  lemma CivilIsDateIn(era: i64, yoe: i64, doy: i64, mp: int)
    requires 0 <= era <= MAX_DAYS && 0 <= yoe <= 399 && 0 <= doy <= 365 && mp == MonthIndex(doy as int)
    ensures CivilOf(era, yoe, doy) == DateIn(era as int, yoe as int, doy as int, mp)
  {
  }

  lemma NextDateIn(era: int, yoe: int, doy: int, mp: int)
    requires 0 <= mp <= 11 && MonthStart(mp) <= doy
    requires mp < 11 ==> doy < MonthStart(mp + 1)
    requires mp == 11 ==> doy <= (if IsLeap(yoe + 1) then 365 else 364)
    ensures NextDate(DateIn(era, yoe, doy, mp)) ==
              if mp < 11 && doy + 1 == MonthStart(mp + 1) then DateIn(era, yoe, doy + 1, mp + 1)
              else if mp == 11 && doy == (if IsLeap(yoe + 1) then 365 else 364) then DateIn(era, yoe + 1, 0, 0)
              else DateIn(era, yoe, doy + 1, mp)
  {
    var date := DateIn(era, yoe, doy, mp);
    MonthLengths(date.year, mp);
    LeapYearsRepeat(era, yoe + 1);
    hide MonthStart, IsLeap;
    assert MonthStart(0) == 0 by { FirstMonth(); }
  }

  lemma FirstMonth()
    ensures MonthStart(0) == 0
  {
  }

  /** One day later in the era is one day later in the calendar. */
  lemma CivilFollows(era: i64, yoe: i64, doy: i64)
    requires 0 <= era < MAX_DAYS
    requires IsMarchDay(MarchDay(era as int, yoe as int, doy as int))
    ensures var next := NextMarchDay(MarchDay(era as int, yoe as int, doy as int));
            && IsMarchDay(next)
            && CivilOf(next.era as i64, next.yoe as i64, next.doy as i64) == NextDate(CivilOf(era, yoe, doy))
  {
    hide CivilOf, NextDate, MonthIndex, IsLeap, MonthStart;
    var next := NextMarchDay(MarchDay(era as int, yoe as int, doy as int));
    NextMarchDayCounts(MarchDay(era as int, yoe as int, doy as int));
    var mp := MonthIndex(doy as int);
    MonthOfDayIs(doy as int);
    NextDateIn(era as int, yoe as int, doy as int, mp);
    CivilIsDateIn(era, yoe, doy, mp);
    var later := if next.doy == 0 then 0 else if mp < 11 && next.doy == MonthStart(mp + 1) then mp + 1 else mp;
    NextMonthIs(next.doy, mp, later);
    CivilIsDateIn(next.era as i64, next.yoe as i64, next.doy as i64, later);
    assert DateIn(era as int, 400, 0, 0) == DateIn(era as int + 1, 0, 0, 0);
  }

  lemma MonthOfDayIs(doy: int)
    requires 0 <= doy <= 365
    ensures var mp := MonthIndex(doy);
            0 <= mp <= 11 && MonthStart(mp) <= doy
            && (mp < 11 ==> doy < MonthStart(mp + 1)) && (doy >= 337 ==> mp == 11)
  {
    MonthOfDay(doy);
  }

  lemma NextMonthIs(doy: int, mp: int, later: int)
    requires 0 <= mp <= 11 && 0 <= doy <= 365
    requires doy > 0 ==> MonthStart(mp) <= doy - 1 && (mp < 11 ==> doy - 1 < MonthStart(mp + 1))
    requires later == if doy == 0 then 0 else if mp < 11 && doy == MonthStart(mp + 1) then mp + 1 else mp
    ensures MonthIndex(doy) == later
  {
    if doy == 0 {
      MonthIndexIs(0, 0);
    } else if later == mp + 1 {
      MonthLengths(1, later);
      MonthIndexIs(doy, later);
    } else {
      MonthIndexIs(doy, mp);
    }
  }

  // ----- The dates of the formula are the calendar's -----

  /** The calendar counted day by day from 1970-01-01. */
  function Counted(days: nat): Date {
    if days == 0 then Date(1970, 1, 1) else NextDate(Counted(days - 1))
  }

  lemma CivilSteps(days: i64)
    requires 0 <= days < MAX_DAYS
    ensures Civil(days + 1) == NextDate(Civil(days))
  {
    MarchDayIsSound(days);
    MarchDayIsSound(days + 1);
    MarchDaysFollow(days);
    var day := MarchDayOf(days);
    CivilFollows(day.era as i64, day.yoe as i64, day.doy as i64);
  }

  /** The date of every day is valid under the Gregorian leap rule. */
  lemma DatesAreValid(days: i64)
    requires 0 <= days <= MAX_DAYS
    ensures IsDate(Civil(days))
  {
    MarchDayIsSound(days);
    var day := MarchDayOf(days);
    CivilIsDate(day.era as i64, day.yoe as i64, day.doy as i64);
  }

  /** For every day the formula gives the date that counting days gives. */
  lemma {:induction false} CivilIsCounted(days: i64)
    requires 0 <= days <= MAX_DAYS
    ensures Civil(days) == Counted(days as int)
    decreases days as int
  {
    hide MarchDayOf, CivilOf, Civil;
    if days > 0 {
      CivilIsCounted(days - 1);
      CivilSteps(days - 1);
    } else {
      FirstDay();
    }
  }

  lemma FirstDay()
    ensures Civil(0) == Date(1970, 1, 1)
  {
    MarchDayIsSound(0);
    DayCountIsUnique(MarchDayOf(0), MarchDay(4, 369, 306));
  }

  // ----- The way back -----

  function DaysBeforeMonth(year: int, month: int): int
    requires 1 <= month <= 12
  {
    if month == 1 then 0 else DaysBeforeMonth(year, month - 1) + DaysInMonth(year, month - 1)
  }

  /** Days from 1970-01-01 to the start of a year, its leap days counted. */
  function DaysBeforeYear(year: int): int {
    var y := year - 1;
    365 * y + y / 4 - y / 100 + y / 400 - 719_162
  }

  /** Days from 1970-01-01 to a date: whole years, whole months, days. */
  function DaysOf(date: Date): int
    requires IsDate(date)
  {
    DaysBeforeYear(date.year) + DaysBeforeMonth(date.year, date.month) + date.day - 1
  }

  lemma LeapDays(year: int)
    ensures year / 4 - (year - 1) / 4 == if year % 4 == 0 then 1 else 0
    ensures year / 100 - (year - 1) / 100 == if year % 100 == 0 then 1 else 0
    ensures year / 400 - (year - 1) / 400 == if year % 400 == 0 then 1 else 0
  {
  }

  lemma YearDays(year: int)
    ensures DaysBeforeMonth(year, 12) + DaysInMonth(year, 12) == if IsLeap(year) then 366 else 365
  {
    assert DaysBeforeMonth(year, 2) == 31;
    assert DaysBeforeMonth(year, 3) == 31 + DaysInMonth(year, 2);
    assert DaysBeforeMonth(year, 4) == 62 + DaysInMonth(year, 2);
    assert DaysBeforeMonth(year, 5) == 92 + DaysInMonth(year, 2);
    assert DaysBeforeMonth(year, 6) == 123 + DaysInMonth(year, 2);
    assert DaysBeforeMonth(year, 7) == 153 + DaysInMonth(year, 2);
    assert DaysBeforeMonth(year, 8) == 184 + DaysInMonth(year, 2);
    assert DaysBeforeMonth(year, 9) == 215 + DaysInMonth(year, 2);
    assert DaysBeforeMonth(year, 10) == 245 + DaysInMonth(year, 2);
    assert DaysBeforeMonth(year, 11) == 276 + DaysInMonth(year, 2);
    assert DaysBeforeMonth(year, 12) == 306 + DaysInMonth(year, 2);
  }

  lemma YearCounts(year: int)
    ensures DaysBeforeYear(year + 1) - DaysBeforeYear(year) == if IsLeap(year) then 366 else 365
  {
    LeapDays(year);
  }

  lemma NextDateCounts(date: Date)
    requires IsDate(date)
    ensures IsDate(NextDate(date)) && DaysOf(NextDate(date)) == DaysOf(date) + 1
  {
    hide DaysBeforeYear, IsLeap;
    if date.month == 12 && date.day == DaysInMonth(date.year, 12) {
      hide DaysBeforeMonth;
      YearDays(date.year);
      YearCounts(date.year);
      FirstMonthStartsYear(date.year + 1);
    }
  }

  lemma FirstMonthStartsYear(year: int)
    ensures DaysBeforeMonth(year, 1) == 0
  {
  }

  /** Counting the days of a date gives back the day the date was computed from. */
  lemma {:induction false} DaysOfInvertsCivil(days: i64)
    requires 0 <= days <= MAX_DAYS
    ensures IsDate(Civil(days)) && DaysOf(Civil(days)) == days as int
    decreases days as int
  {
    hide MarchDayOf, CivilOf, Civil, DaysOf;
    if days > 0 {
      DaysOfInvertsCivil(days - 1);
      CivilSteps(days - 1);
      NextDateCounts(Civil(days - 1));
    } else {
      FirstDay();
      FirstDayIsZero();
    }
  }

  lemma FirstDayIsZero()
    ensures IsDate(Date(1970, 1, 1)) && DaysOf(Date(1970, 1, 1)) == 0
  {
  }

  // ----- The string -----

  function Zeros(n: int): string
    decreases if n > 0 then n else 0
  {
    if n <= 0 then "" else Zeros(n - 1) + "0"
  }

  /** Decimal digits with zeros in front up to `width`; never cut. */
  function Padded(n: nat, width: nat): string {
    Zeros(width - |Decimal(n)|) + Decimal(n)
  }

  function FieldsOf(secs: u64): (fields: seq<nat>)
    ensures |fields| == 6
  {
    var days := (secs / 86_400) as i64;
    var secsOfDay := (secs % 86_400) as i64;
    var date := Civil(days);
    DatesAreValid(days);
    CivilYear(days);
    [date.year, date.month, date.day,
     (secsOfDay / 3600) as int, (secsOfDay % 3600 / 60) as int, (secsOfDay % 60) as int]
  }

  lemma CivilYear(days: i64)
    requires 0 <= days <= MAX_DAYS
    ensures Civil(days).year >= 0
  {
    MarchDayIsSound(days);
  }

  const WIDTHS: seq<nat> := [4, 2, 2, 2, 2, 2]
  const MARKS := ['-', '-', 'T', ':', ':', 'Z']

  /** Each field padded to its width and followed by its mark. */
  function Stamp(fields: seq<nat>, widths: seq<nat>, marks: string): string
    requires |fields| == |widths| == |marks|
  {
    if fields == [] then "" else Padded(fields[0], widths[0]) + [marks[0]] + Stamp(fields[1..], widths[1..], marks[1..])
  }

  function FormatTimestamp(secs: u64): string {
    Stamp(FieldsOf(secs), WIDTHS, MARKS)
  }

  // ----- Strings ascend with time -----

  predicate Before(a: seq<nat>, b: seq<nat>) {
    a != [] && b != [] && (a[0] < b[0] || (a[0] == b[0] && Before(a[1..], b[1..])))
  }

  function Pow10(n: nat): nat {
    if n == 0 then 1 else 10 * Pow10(n - 1)
  }

  function Digits(n: nat, width: nat): string {
    if width == 0 then "" else Digits(n / 10, width - 1) + [DigitOf(n % 10)]
  }

  lemma {:induction false} DigitsOfZero(width: nat)
    ensures Digits(0, width) == Zeros(width)
  {
    if width > 0 {
      DigitsOfZero(width - 1);
    }
  }

  lemma {:induction false} DecimalLength(n: nat, width: nat)
    requires 0 < width && n < Pow10(width)
    ensures |Decimal(n)| <= width
  {
    if n >= 10 {
      assert width > 1;
      DecimalLength(n / 10, width - 1);
    }
  }

  /** A number that fits its width is padded to exactly that many digits. */
  lemma {:induction false} PaddedIsDigits(n: nat, width: nat)
    requires 0 < width && n < Pow10(width)
    ensures Padded(n, width) == Digits(n, width)
  {
    DecimalLength(n, width);
    if n < 10 {
      DigitsOfZero(width - 1);
    } else {
      assert width > 1;
      PaddedIsDigits(n / 10, width - 1);
      ConcatDigits(Zeros(width - |Decimal(n)|), Decimal(n / 10), DigitOf(n % 10));
    }
  }

  lemma ConcatDigits(a: string, b: string, c: char)
    ensures a + (b + [c]) == a + b + [c]
  {
  }

  lemma {:induction false} TextBeforeAppend(a: string, b: string, x: string, y: string)
    requires |a| == |b| && TextLess(a, b)
    ensures TextLess(a + x, b + y)
  {
    if a != "" && a[0] == b[0] {
      assert (a + x)[1..] == a[1..] + x && (b + y)[1..] == b[1..] + y;
      TextBeforeAppend(a[1..], b[1..], x, y);
    }
  }

  lemma {:induction false} TextBeforePrefix(p: string, a: string, b: string)
    requires TextLess(a, b)
    ensures TextLess(p + a, p + b)
  {
    if p == "" {
      assert p + a == a && p + b == b;
    } else {
      assert (p + a)[1..] == p[1..] + a && (p + b)[1..] == p[1..] + b;
      TextBeforePrefix(p[1..], a, b);
    }
  }

  lemma {:induction false} DigitsAscend(a: nat, b: nat, width: nat)
    requires a < b < Pow10(width)
    ensures |Digits(a, width)| == |Digits(b, width)| && TextLess(Digits(a, width), Digits(b, width))
  {
    if width > 0 {
      var x, y := [DigitOf(a % 10)], [DigitOf(b % 10)];
      if a / 10 < b / 10 {
        DigitsAscend(a / 10, b / 10, width - 1);
        TextBeforeAppend(Digits(a / 10, width - 1), Digits(b / 10, width - 1), x, y);
      } else {
        assert a / 10 == b / 10 && a % 10 < b % 10;
        assert TextLess(x, y);
        TextBeforePrefix(Digits(a / 10, width - 1), x, y);
      }
    }
  }

  predicate Fit(fields: seq<nat>, widths: seq<nat>) {
    |fields| == |widths| && forall i :: 0 <= i < |fields| ==> 0 < widths[i] && fields[i] < Pow10(widths[i])
  }

  lemma {:induction false} StampAscends(a: seq<nat>, b: seq<nat>, widths: seq<nat>, marks: string)
    requires Fit(a, widths) && Fit(b, widths) && |marks| == |widths|
    requires Before(a, b)
    ensures TextLess(Stamp(a, widths, marks), Stamp(b, widths, marks))
  {
    PaddedIsDigits(a[0], widths[0]);
    PaddedIsDigits(b[0], widths[0]);
    var x, y := Stamp(a[1..], widths[1..], marks[1..]), Stamp(b[1..], widths[1..], marks[1..]);
    var mark := [marks[0]];
    if a[0] < b[0] {
      DigitsAscend(a[0], b[0], widths[0]);
      TextBeforeAppend(Digits(a[0], widths[0]), Digits(b[0], widths[0]), mark + x, mark + y);
      assert Padded(a[0], widths[0]) + (mark + x) == Stamp(a, widths, marks);
      assert Padded(b[0], widths[0]) + (mark + y) == Stamp(b, widths, marks);
    } else {
      StampAscends(a[1..], b[1..], widths[1..], marks[1..]);
      TextBeforePrefix(Padded(a[0], widths[0]) + mark, x, y);
    }
  }

  predicate DateBefore(a: Date, b: Date) {
    a.year < b.year || (a.year == b.year && (a.month < b.month || (a.month == b.month && a.day < b.day)))
  }

  lemma {:induction false} DatesAscend(a: i64, b: i64)
    requires 0 <= a < b <= MAX_DAYS
    ensures DateBefore(Civil(a), Civil(b))
    decreases b as int - a as int
  {
    hide MarchDayOf, CivilOf, Civil;
    CivilSteps(b - 1);
    if a < b - 1 {
      DatesAscend(a, b - 1);
    }
  }

  lemma FieldsAscend(a: u64, b: u64)
    requires a < b
    ensures Before(FieldsOf(a), FieldsOf(b))
  {
    hide MarchDayOf, CivilOf, Civil;
    var x, y := FieldsOf(a), FieldsOf(b);
    if a / 86_400 < b / 86_400 {
      DatesAscend((a / 86_400) as i64, (b / 86_400) as i64);
      DateFieldsAscend(x, y);
    } else {
      SecondOfMinute((a % 86_400) as int);
      SecondOfMinute((b % 86_400) as int);
      ClockAscends(x, y, (a % 86_400) as int, (b % 86_400) as int);
    }
  }

  lemma SecondOfMinute(n: nat)
    ensures n % 3600 % 60 == n % 60
  {
  }

  lemma DateFieldsAscend(x: seq<nat>, y: seq<nat>)
    requires |x| == |y| == 6 && DateBefore(Date(x[0], x[1], x[2]), Date(y[0], y[1], y[2]))
    ensures Before(x, y)
  {
    if x[0] == y[0] {
      assert x[1..][0] == x[1] && y[1..][0] == y[1];
      if x[1] == y[1] {
        assert x[1..][1..][0] == x[2] && y[1..][1..][0] == y[2];
      }
    }
  }

  lemma ClockOrder(a: nat, b: nat)
    requires a < b
    ensures a / 3600 < b / 3600 || (a / 3600 == b / 3600 && a % 3600 < b % 3600)
  {
  }

  lemma MinuteOrder(a: nat, b: nat)
    requires a < b
    ensures a / 60 < b / 60 || (a / 60 == b / 60 && a % 60 < b % 60)
  {
  }

  lemma ClockAscends(x: seq<nat>, y: seq<nat>, a: nat, b: nat)
    requires |x| == |y| == 6 && x[..3] == y[..3] && a < b
    requires x[3] == a / 3600 && x[4] == a % 3600 / 60 && x[5] == a % 3600 % 60
    requires y[3] == b / 3600 && y[4] == b % 3600 / 60 && y[5] == b % 3600 % 60
    ensures Before(x, y)
  {
    ClockOrder(a, b);
    if a % 3600 < b % 3600 {
      MinuteOrder(a % 3600, b % 3600);
    }
    assert x[0] == x[..3][0] == y[0] && x[1] == x[..3][1] == y[1] && x[2] == x[..3][2] == y[2];
    TailBefore(x[3..], y[3..]);
    assert x[1..][1..][1..] == x[3..] && y[1..][1..][1..] == y[3..];
    assert Before(x[1..][1..], y[1..][1..]);
    assert Before(x[1..], y[1..]);
  }

  lemma TailBefore(x: seq<nat>, y: seq<nat>)
    requires |x| == |y| == 3
    requires x[0] < y[0] || (x[0] == y[0] && (x[1] < y[1] || (x[1] == y[1] && x[2] < y[2])))
    ensures Before(x, y)
  {
    assert x[1..][0] == x[1] && y[1..][0] == y[1];
    assert x[1..][1..][0] == x[2] && y[1..][1..][0] == y[2];
    if x[0] == y[0] && x[1] == y[1] {
      assert Before(x[1..][1..], y[1..][1..]);
    }
  }

  /** Up to the year 9999 a later second has a later string. */
  lemma TimestampsAscend(a: u64, b: u64)
    requires a < b && FieldsOf(b)[0] <= 9999
    ensures TextLess(FormatTimestamp(a), FormatTimestamp(b))
  {
    hide FieldsOf, Stamp;
    FieldsAscend(a, b);
    FieldsFit(a);
    FieldsFit(b);
    assert FieldsOf(a)[0] <= FieldsOf(b)[0];
    StampAscends(FieldsOf(a), FieldsOf(b), WIDTHS, MARKS);
  }

  lemma FieldsFit(secs: u64)
    ensures FieldsOf(secs)[0] <= 9999 ==> Fit(FieldsOf(secs), WIDTHS)
    ensures forall i :: 1 <= i < 6 ==> FieldsOf(secs)[i] <= 59
  {
    hide MarchDayOf, CivilOf, Civil;
    DatesAreValid((secs / 86_400) as i64);
    assert Pow10(2) == 100 && Pow10(4) == 10_000;
  }

  /** From the year 10000 the order breaks: a five-digit year sorts before 9999. */
  lemma FiveDigitYearsSortEarly(a: u64, b: u64)
    requires FieldsOf(a)[0] == 9999 && 10_000 <= FieldsOf(b)[0] < 90_000
    ensures a < b && TextLess(FormatTimestamp(b), FormatTimestamp(a))
  {
    hide FieldsOf;
    if b <= a {
      if b < a {
        FieldsAscend(b, a);
      }
      assert false;
    }
    var n := FieldsOf(b)[0];
    FirstDigit(n);
    assert Padded(n, 4) == Decimal(n) by { FiveDigits(n); }
    assert Pow10(4) == 10_000;
    PaddedIsDigits(9999, 4);
    NinesStart();
  }

  lemma FiveDigits(n: nat)
    requires 10_000 <= n
    ensures |Decimal(n)| >= 5
  {
    assert |Decimal(n / 10 / 10 / 10 / 10)| >= 1;
    assert |Decimal(n / 10 / 10 / 10)| >= 2;
    assert |Decimal(n / 10 / 10)| >= 3;
    assert |Decimal(n / 10)| >= 4;
  }

  lemma FirstDigit(n: nat)
    requires 10_000 <= n < 90_000
    ensures Decimal(n)[0] < '9'
  {
    var d := n / 10 / 10 / 10 / 10;
    assert d < 9 && Decimal(d)[0] == DigitOf(d);
    assert Decimal(n / 10 / 10 / 10)[0] == DigitOf(d);
    assert Decimal(n / 10 / 10)[0] == DigitOf(d);
    assert Decimal(n / 10)[0] == DigitOf(d);
  }

  lemma NinesStart()
    ensures Digits(9999, 4) != "" && Digits(9999, 4)[0] == '9'
  {
    assert Digits(9, 1) == "9";
    assert Digits(99, 2)[0] == '9';
    assert Digits(999, 3)[0] == '9';
  }

  /** A day whose count is known is that day of the formula. */
  lemma DayIs(days: i64, day: MarchDay)
    requires 0 <= days <= MAX_DAYS && IsMarchDay(day) && DayCount(day) == days as int + 719_468
    ensures MarchDayOf(days) == day
  {
    MarchDayIsSound(days);
    hide MarchDayOf;
    DayCountIsUnique(MarchDayOf(days), day);
  }

  lemma YearIs(secs: u64, day: MarchDay)
    requires secs / 86_400 <= 213_503_982_334_601 && IsMarchDay(day)
    requires DayCount(day) == (secs / 86_400) as int + 719_468
    requires 0 <= day.era <= MAX_DAYS as int
    ensures FieldsOf(secs)[0] == CivilOf(day.era as i64, day.yoe as i64, day.doy as i64).year
  {
    DayIs((secs / 86_400) as i64, day);
    hide MarchDayOf, CivilOf;
  }

  /** The last second of the year 9999 and the first of the year 10000. */
  lemma YearTenThousand()
    ensures FieldsOf(253_402_300_799)[0] == 9999 && FieldsOf(253_402_300_800)[0] == 10_000
  {
    hide FieldsOf;
    YearIs(253_402_300_799, MarchDay(24, 399, 305));
    YearIs(253_402_300_800, MarchDay(24, 399, 306));
  }

  /**
   The strings of all seconds up to a year ascend exactly when that year is 9999 at the latest: the strings of the
   two seconds around the year 10000 stand the wrong way round.
   */
  lemma StringsAscendUpTo9999(year: nat)
    ensures (forall a: u64, b: u64 :: a < b && FieldsOf(b)[0] <= year ==>
              TextLess(FormatTimestamp(a), FormatTimestamp(b)))
       <==> year <= 9999
  {
    if year <= 9999 {
      forall a: u64, b: u64 | a < b && FieldsOf(b)[0] <= year
        ensures TextLess(FormatTimestamp(a), FormatTimestamp(b))
      {
        TimestampsAscend(a, b);
      }
    } else {
      var a: u64, b: u64 := 253_402_300_799, 253_402_300_800;
      YearTenThousand();
      FiveDigitYearsSortEarly(a, b);
      TextLessIsTotal(FormatTimestamp(a), FormatTimestamp(b));
      hide FieldsOf, FormatTimestamp;
    }
  }
}
