/**
 Calendar conversion of `src/arch/x86_64/kernel/systemtime.rs`.

 Two algorithms of different origin convert between civil dates and microseconds since
 1970-01-01: `MicrosecondsFromDate` (Linux's mktime64) and `DateFromMicroseconds` (civil_from_days).
 Both are compared with a third definition that only counts days year by year and month by month.
 */
module SystemTime {

  datatype Date = Date(year: nat, month: nat, day: nat, hour: nat, minute: nat, second: nat)

  // ----- The reference: counting -----

  predicate Leap(y: nat) {
    y % 4 == 0 && (y % 100 != 0 || y % 400 == 0)
  }

  function YearLength(y: nat): nat {
    if Leap(y) then 366 else 365
  }

  function MonthLength(y: nat, m: nat): nat
    requires 1 <= m <= 12
  {
    if m == 2 then (if Leap(y) then 29 else 28)
    else if m == 4 || m == 6 || m == 9 || m == 11 then 30
    else 31
  }

  /** Days from 1970-01-01 to January 1st of year `y`. */
  function DaysToYear(y: nat): nat
    requires y >= 1970
  {
    if y == 1970 then 0 else DaysToYear(y - 1) + YearLength(y - 1)
  }

  /** Days of year `y` before the first of month `m`. */
  function DaysToMonth(y: nat, m: nat): nat
    requires 1 <= m <= 12
  {
    if m == 1 then 0 else DaysToMonth(y, m - 1) + MonthLength(y, m - 1)
  }

  predicate ValidDay(y: nat, m: nat, d: nat) {
    1 <= m <= 12 && 1 <= d <= MonthLength(y, m)
  }

  predicate ValidDate(d: Date) {
    ValidDay(d.year, d.month, d.day) && d.hour < 24 && d.minute < 60 && d.second < 60
  }

  function CountedDays(y: nat, m: nat, d: nat): nat
    requires y >= 1970 && ValidDay(y, m, d)
  {
    DaysToYear(y) + DaysToMonth(y, m) + d - 1
  }

  /** "Seconds Since the Epoch", by counting. */
  function CountedSeconds(d: Date): nat
    requires d.year >= 1970 && ValidDate(d)
  {
    CountedDays(d.year, d.month, d.day) * 86400 + d.hour * 3600 + d.minute * 60 + d.second
  }

  // ----- The first algorithm: microseconds_from_date -----

  /** The day number computed before it is scaled; negative exactly where the source's u64 subtraction underflows. */
  function FormulaDays(year: nat, month: nat, day: nat): int
    requires 1 <= month <= 12 && (month > 2 || year > 0)
  {
    var m := if month > 2 then month - 2 else month + 12 - 2;
    var y := if month > 2 then year else year - 1;
    y / 4 - y / 100 + y / 400 + 367 * m / 12 + day + y * 365 - 719_499
  }

  function MicrosecondsFromDate(d: Date): int
    requires 1 <= d.month <= 12 && (d.month > 2 || d.year > 0)
  {
    var hours := FormulaDays(d.year, d.month, d.day) * 24 + d.hour;
    var minutes := hours * 60 + d.minute;
    var seconds := minutes * 60 + d.second;
    seconds * 1_000_000
  }

  /** Days through the end of year `y`, in closed form. */
  function YearDays(y: nat): int {
    365 * y + y / 4 - y / 100 + y / 400
  }

  lemma {:induction false} YearDaysStep(y: nat)
    requires y > 0
    ensures YearDays(y) - YearDays(y - 1) == YearLength(y)
  {
    Carry(y, 4);
    Carry(y, 100);
    Carry(y, 400);
    Centuries(y);
  }

  lemma Centuries(y: nat)
    ensures y % 400 == 0 ==> y % 100 == 0
    ensures y % 100 == 0 ==> y % 4 == 0
  {
    if y % 400 == 0 {
      MultipleOf100(4 * (y / 400));
    }
    if y % 100 == 0 {
      MultipleOf4(25 * (y / 100));
    }
  }

  lemma MultipleOf100(n: nat)
    ensures (100 * n) % 100 == 0
  {
  }

  lemma MultipleOf4(n: nat)
    ensures (4 * n) % 4 == 0
  {
  }

  lemma Carry(y: nat, k: nat)
    requires y > 0 && (k == 4 || k == 100 || k == 400)
    ensures y / k - (y - 1) / k == if y % k == 0 then 1 else 0
  {
    if k == 4 {
    } else if k == 100 {
    } else {
    }
  }

  lemma {:induction false} DaysToYearClosed(y: nat)
    requires y >= 1970
    ensures DaysToYear(y) == YearDays(y - 1) - 719_162
  {
    if y > 1970 {
      DaysToYearClosed(y - 1);
      YearDaysStep(y - 1);
    }
  }

  /** The formula of mktime64 counts days. */
  lemma {:induction false} FormulaCounts(y: nat, m: nat, d: nat)
    requires y >= 1970 && ValidDay(y, m, d)
    ensures FormulaDays(y, m, d) == CountedDays(y, m, d)
  {
    DaysToYearClosed(y);
    YearDaysStep(y);
    MonthTable(y, m);
  }

  lemma {:induction false} MonthTable(y: nat, m: nat)
    requires 1 <= m <= 12
    ensures DaysToMonth(y, m) == (if m <= 2 then 31 * (m - 1)
                                  else (367 * (m - 2)) / 12 + 29 + (if Leap(y) then 1 else 0))
  {
    if m > 1 {
      MonthTable(y, m - 1);
    }
  }

  /** `microseconds_from_date` is the POSIX count, for every valid date from 1970 on. */
  lemma MicrosecondsCount(d: Date)
    requires d.year >= 1970 && ValidDate(d)
    ensures MicrosecondsFromDate(d) == CountedSeconds(d) * 1_000_000
  {
    FormulaCounts(d.year, d.month, d.day);
  }

  /** The u64 subtraction of 719 499 underflows exactly for the dates before 1970. */
  lemma UnderflowExactlyBefore1970(y: nat, m: nat, d: nat)
    requires ValidDay(y, m, d) && (m > 2 || y > 0)
    ensures FormulaDays(y, m, d) >= 0 <==> y >= 1970
  {
    if y >= 1970 {
      FormulaCounts(y, m, d);
    } else {
      YearDaysMonotone(if m > 2 then y else y - 1, 1969);
    }
  }

  lemma {:induction false} YearDaysMonotone(a: nat, b: nat)
    requires a <= b
    ensures YearDays(a) <= YearDays(b)
    decreases b
  {
    if a < b {
      YearDaysMonotone(a, b - 1);
      YearDaysStep(b);
    }
  }

  // ----- The second algorithm: date_from_microseconds -----

  /** Year of era from day of era, in the source's closed form. */
  function YearOfEra(dayOfEra: nat): int {
    (dayOfEra - dayOfEra / 1460 + dayOfEra / 36524 - dayOfEra / 146_096) / 365
  }

  /** Days of an era before its year `yoe`, years running from March to February. */
  function EraDays(yoe: nat): int {
    365 * yoe + yoe / 4 - yoe / 100
  }

  /** Splitting a day of era into centuries, four-year cycles and years finds what the closed form computes. */
  lemma EraSplit(doe: nat)
    requires doe < 146_097
    ensures 0 <= YearOfEra(doe) < 400
    ensures 0 <= doe - EraDays(YearOfEra(doe)) <= 365
    ensures doe - EraDays(YearOfEra(doe)) == 365 ==> Leap(YearOfEra(doe) + 1)
  {
    hide YearOfEra;
    var c := if doe == 146_096 then 3 else doe / 36524;
    var r1 := doe - 36524 * c;
    var q := r1 / 1461;
    var r2 := r1 - 1461 * q;
    var y := if r2 == 1460 then 3 else r2 / 365;
    var doy := r2 - 365 * y;
    var yoe := 100 * c + 4 * q + y;
    assert 0 <= c <= 3 && 0 <= q <= 24 && 0 <= y <= 3 && 0 <= doy <= 365;
    assert EraDays(yoe) == doe - doy by {
      assert yoe / 4 == 25 * c + q;
      assert yoe / 100 == c;
    }
    ClosedFormFindsYear(c, q, y, doy);
    assert 36524 * c + 1461 * q + 365 * y + doy == doe;
    if doy == 365 {
      assert yoe + 1 == 100 * c + 4 * (q + 1);
      if q == 24 {
        assert r1 == 36524 && c == 3;
        assert yoe + 1 == 400;
      } else {
        assert (yoe + 1) % 100 == 4 * (q + 1);
      }
    }
  }

  lemma ClosedFormFindsYear(c: nat, q: nat, y: nat, doy: nat)
    requires c <= 3 && q <= 24 && y <= 3 && doy <= 365
    requires doy == 365 ==> y == 3
    requires 1461 * q + 365 * y + doy <= 36524
    requires 1461 * q + 365 * y + doy == 36524 ==> c == 3
    ensures YearOfEra(36524 * c + 1461 * q + 365 * y + doy) == 100 * c + 4 * q + y
  {
    var doe := 36524 * c + 1461 * q + 365 * y + doy;
    var e := 24 * c + q + 365 * y + doy;
    var carry := if e >= 1460 then 1 else 0;
    Quotient(doe, 1460, 25 * c + q + carry);
    if doe == 146_096 {
    } else {
      Quotient(doe, 36524, c);
      Quotient(doe, 146_096, 0);
    }
    Quotient(doe - doe / 1460 + doe / 36524 - doe / 146_096, 365, 100 * c + 4 * q + y);
  }

  lemma Quotient(a: nat, b: nat, q: nat)
    requires b > 0 && b * q <= a < b * q + b
    ensures a / b == q
  {
    MultipleBeyond(a / b - q, b);
    assert (a / b - q) * b == a - a % b - b * q;
  }

  lemma MultipleBeyond(k: int, b: nat)
    requires b > 0
    ensures k >= 1 ==> k * b >= b
    ensures k <= -1 ==> k * b + b <= 0
  {
  }

  /** The civil date of the `dayOfYear`-th day of a year that runs from March to February. */
  function CivilFromMarchYear(marchYear: int, dayOfYear: int): (int, int, int) {
    var internalMonth := (5 * dayOfYear + 2) / 153;
    var day := dayOfYear - (153 * internalMonth + 2) / 5 + 1;
    var month := if internalMonth < 10 then internalMonth + 3 else internalMonth - 9;
    (if month <= 2 then marchYear + 1 else marchYear, month, day)
  }

  function CivilFromEra(era: nat, dayOfEra: nat): (int, int, int) {
    CivilFromYearOfEra(era, YearOfEra(dayOfEra), dayOfEra)
  }

  function CivilFromYearOfEra(era: nat, yearOfEra: int, dayOfEra: nat): (int, int, int) {
    CivilFromMarchYear(yearOfEra + era * 400, dayOfEra - (365 * yearOfEra + yearOfEra / 4 - yearOfEra / 100))
  }

  /** The civil date of a day number, as the source computes it. */
  function CivilFromDays(daysSinceEpoch: nat): (int, int, int) {
    var days := daysSinceEpoch + 719_468;
    CivilFromEra(days / 146_097, days % 146_097)
  }

  lemma InternalMonth(doy: nat)
    requires doy <= 365
    ensures 0 <= (5 * doy + 2) / 153 <= 11
    ensures var mp := (5 * doy + 2) / 153;
            (153 * mp + 2) / 5 <= doy < (153 * mp + 2) / 5 + (if mp == 11 then 29 else if mp == 1 || mp == 3
                                                              || mp == 6 || mp == 8 then 30 else 31)
    ensures doy < 365 ==> (5 * doy + 2) / 153 == 11 ==> doy < 337 + 28
  {
  }

  lemma EraLeap(era: nat, y: nat)
    ensures Leap(400 * era + y) <==> Leap(y)
    ensures YearDays(400 * era + y) == 146_097 * era + YearDays(y)
  {
    assert (400 * era + y) / 4 == 100 * era + y / 4;
    assert (400 * era + y) / 100 == 4 * era + y / 100;
    assert (400 * era + y) / 400 == era + y / 400;
  }

  /** `civil` is a valid day whose mktime64 day number is `n`. */
  predicate HasDayNumber(civil: (int, int, int), n: int) {
    var (y, m, d) := civil;
    y >= 0 && m >= 1 && d >= 1 && ValidDay(y, m, d) && (m > 2 || y > 0) && FormulaDays(y, m, d) == n
  }

  /** A March-based day is converted to a valid civil day with the same mktime64 day number. */
  lemma CivilOfMarchYear(marchYear: nat, doy: nat)
    requires doy <= 365 && (doy == 365 ==> Leap(marchYear + 1))
    ensures HasDayNumber(CivilFromMarchYear(marchYear, doy), YearDays(marchYear) + doy - 719_468)
  {
    InternalMonth(doy);
    var mp := (5 * doy + 2) / 153;
    assert (367 * (mp + 1)) / 12 == (153 * mp + 2) / 5 + 30;
    assert mp == 11 ==> (153 * mp + 2) / 5 == 337;
  }

  /** `CivilFromDays` produces a valid date, and that date has the day number it started from. */
  lemma {:induction false} CivilIsInverse(n: nat)
    ensures var (y, m, d) := CivilFromDays(n);
            y >= 1970 && m >= 1 && d >= 1 && ValidDay(y, m, d) && CountedDays(y, m, d) == n
  {
    hide CivilFromDays;
    EraOfDays(n);
    var (y, m, d) := CivilFromDays(n);
    UnderflowExactlyBefore1970(y, m, d);
    FormulaCounts(y, m, d);
  }

  lemma EraOfDays(n: nat)
    ensures HasDayNumber(CivilFromDays(n), n)
  {
    hide YearOfEra;
    hide HasDayNumber;
    hide CivilFromYearOfEra;
    var days := n + 719_468;
    var era := days / 146_097;
    var doe := days % 146_097;
    EraSplit(doe);
    CivilOfYearOfEra(era, YearOfEra(doe), doe);
    assert days == 146_097 * era + doe;
  }

  lemma CivilOfYearOfEra(era: nat, yoe: nat, doe: nat)
    requires yoe < 400 && 0 <= doe - EraDays(yoe) <= 365
    requires doe - EraDays(yoe) == 365 ==> Leap(yoe + 1)
    ensures HasDayNumber(CivilFromYearOfEra(era, yoe, doe), 146_097 * era + doe - 719_468)
  {
    hide HasDayNumber;
    hide CivilFromMarchYear;
    MarchYearOfEra(era, yoe, doe);
    CivilOfMarchYear(yoe + era * 400, doe - EraDays(yoe));
  }

  lemma MarchYearOfEra(era: nat, yoe: nat, doe: nat)
    requires yoe < 400 && (doe - EraDays(yoe) == 365 ==> Leap(yoe + 1))
    ensures YearDays(yoe + era * 400) == 146_097 * era + EraDays(yoe)
    ensures doe - EraDays(yoe) == 365 ==> Leap(yoe + era * 400 + 1)
  {
    EraLeap(era, yoe);
    EraLeap(era, yoe + 1);
    assert yoe + era * 400 == 400 * era + yoe;
  }

  /** Counting is injective on valid days, so a day number names at most one date. */
  lemma CountedDaysInjective(y1: nat, m1: nat, d1: nat, y2: nat, m2: nat, d2: nat)
    requires y1 >= 1970 && ValidDay(y1, m1, d1) && y2 >= 1970 && ValidDay(y2, m2, d2)
    requires CountedDays(y1, m1, d1) == CountedDays(y2, m2, d2)
    ensures y1 == y2 && m1 == m2 && d1 == d2
  {
    DayWithinYear(y1, m1, d1);
    DayWithinYear(y2, m2, d2);
    if y1 < y2 {
      DaysToYearMonotone(y1 + 1, y2);
    } else if y2 < y1 {
      DaysToYearMonotone(y2 + 1, y1);
    } else if m1 < m2 {
      DaysToMonthMonotone(y1, m1 + 1, m2);
    } else if m2 < m1 {
      DaysToMonthMonotone(y1, m2 + 1, m1);
    }
  }

  lemma DayWithinYear(y: nat, m: nat, d: nat)
    requires ValidDay(y, m, d)
    ensures DaysToMonth(y, m) + d - 1 < YearLength(y)
  {
    MonthTable(y, m);
  }

  lemma {:induction false} DaysToYearMonotone(a: nat, b: nat)
    requires 1970 <= a <= b
    ensures DaysToYear(a) <= DaysToYear(b)
    decreases b
  {
    if a < b {
      DaysToYearMonotone(a, b - 1);
    }
  }

  lemma {:induction false} DaysToMonthMonotone(y: nat, a: nat, b: nat)
    requires 1 <= a <= b <= 12
    ensures DaysToMonth(y, a) <= DaysToMonth(y, b)
    decreases b
  {
    if a < b {
      DaysToMonthMonotone(y, a, b - 1);
    }
  }

  /** The date of a microsecond count, with the year left unbounded. */
  function DateFromMicroseconds(us: nat): (d: Date)
    ensures d.year >= 1970 && ValidDate(d)
    ensures CountedSeconds(d) == us / 1_000_000
  {
    var seconds := us / 1_000_000;
    var minutes := seconds / 60;
    var hours := minutes / 60;
    CivilIsInverse(hours / 24);
    var (year, month, day) := CivilFromDays(hours / 24);
    Date(year, month, day, hours % 24, minutes % 60, seconds % 60)
  }

  /** Date to microseconds to date is the identity on every valid date from 1970 on. */
  lemma DateRoundTrip(d: Date)
    requires d.year >= 1970 && ValidDate(d)
    ensures MicrosecondsFromDate(d) >= 0
    ensures DateFromMicroseconds(MicrosecondsFromDate(d)) == d
  {
    hide CivilFromDays;
    MicrosecondsCount(d);
    var r := DateFromMicroseconds(MicrosecondsFromDate(d));
    assert CountedSeconds(r) == CountedSeconds(d);
    assert CountedDays(r.year, r.month, r.day) == CountedDays(d.year, d.month, d.day);
    CountedDaysInjective(r.year, r.month, r.day, d.year, d.month, d.day);
  }

  /** Microseconds to date to microseconds rounds down to the second. */
  lemma MicrosecondsRoundTrip(us: nat)
    ensures MicrosecondsFromDate(DateFromMicroseconds(us)) == us - us % 1_000_000
  {
    hide CivilFromDays;
    MicrosecondsCount(DateFromMicroseconds(us));
  }

  const U16_LIMIT := 0x1_0000

  /**
   `date_from_microseconds` with the source's local updates and its truncating `as u16` cast of the year
   (the later increment wraps like a release build).  The cast is harmless exactly while the year fits.
   */
  method DateFromMicrosecondsU16(us: nat) returns (d: Date)
    ensures d == DateFromMicroseconds(us).(year := DateFromMicroseconds(us).year % 65536)
    ensures d == DateFromMicroseconds(us) <==> us < MicrosecondsFromDate(Date(65536, 1, 1, 0, 0, 0))
  {
    YearBelow(us, U16_LIMIT);
    hide *;
    d := TruncatedDate(us);
  }

  method TruncatedDate(us: nat) returns (d: Date)
    ensures d == DateFromMicroseconds(us).(year := DateFromMicroseconds(us).year % U16_LIMIT)
    ensures d == DateFromMicroseconds(us) <==> DateFromMicroseconds(us).year < U16_LIMIT
  {
    hide CivilFromDays;
    hide CountedDays;
    var seconds := us / 1_000_000;
    var second := seconds % 60;
    var minutes := seconds / 60;
    var minute := minutes % 60;
    var hours := minutes / 60;
    var hour := hours % 24;

    var year, month, day := CivilU16(hours / 24);
    d := Date(year, month, day, hour, minute, second);
  }

  method CivilU16(daysSinceEpoch: nat) returns (year: nat, month: nat, day: nat)
    ensures TruncatedYear(CivilFromDays(daysSinceEpoch), year, month, day)
  {
    hide YearOfEra;
    hide CivilFromMarchYear;
    var days := daysSinceEpoch + 719_468;
    var era := days / 146_097;
    var dayOfEra := days % 146_097;
    EraSplit(dayOfEra);
    var yearOfEra := YearOfEra(dayOfEra);
    year, month, day := MarchYearU16(yearOfEra + era * 400, dayOfEra - EraDays(yearOfEra));
  }

  predicate TruncatedYear(civil: (int, int, int), year: nat, month: nat, day: nat) {
    year == civil.0 % U16_LIMIT && month == civil.1 && day == civil.2
  }

  /** The last part of `date_from_microseconds`, where `month` and the u16 `year` are updated in place. */
  method MarchYearU16(marchYear: nat, dayOfYear: nat) returns (year: nat, month: nat, day: nat)
    requires dayOfYear <= 365
    ensures TruncatedYear(CivilFromMarchYear(marchYear, dayOfYear), year, month, day)
  {
    year := marchYear % U16_LIMIT;
    InternalMonth(dayOfYear);
    var internalMonth := (5 * dayOfYear + 2) / 153;
    day := dayOfYear - (153 * internalMonth + 2) / 5 + 1;
    month := internalMonth;
    if internalMonth < 10 {
      month := month + 3;
    } else {
      month := month - 9;
    }
    if month <= 2 {
      WrappingIncrement(marchYear);
      year := (year + 1) % U16_LIMIT;
    }
  }

  lemma WrappingIncrement(y: nat)
    ensures (y % U16_LIMIT + 1) % U16_LIMIT == (y + 1) % U16_LIMIT
  {
  }

  /** The year of a count is below `bound` exactly before the first microsecond of year `bound`. */
  lemma YearBelow(us: nat, bound: nat)
    requires bound >= 1970
    ensures DateFromMicroseconds(us).year < bound <==> us < MicrosecondsFromDate(Date(bound, 1, 1, 0, 0, 0))
  {
    hide CivilFromDays;
    DateBefore(DateFromMicroseconds(us), us, bound);
    MicrosecondsCount(Date(bound, 1, 1, 0, 0, 0));
  }

  lemma DateBefore(d: Date, us: nat, bound: nat)
    requires d.year >= 1970 && ValidDate(d) && bound >= 1970
    requires CountedSeconds(d) == us / 1_000_000
    ensures d.year < bound <==> us < DaysToYear(bound) * 86400 * 1_000_000
  {
    DayWithinYear(d.year, d.month, d.day);
    if d.year < bound {
      DaysToYearMonotone(d.year + 1, bound);
    } else {
      DaysToYearMonotone(bound, d.year);
    }
  }
}
