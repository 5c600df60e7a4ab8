/**
 * Naive (timezone-less) datetimes as Python's `datetime` has them: a civil
 * date and time with microseconds, years 1 to 9999, ordered field by field.
 * Also the two text forms the reader uses: strftime('%Y-%m-%dT%H:%M:%S') and
 * strptime with the same format, and `dt + timedelta(seconds=...)`.
 */
module DateTimes {
  import opened Wrappers
  import opened Text

  datatype Civil = Civil(year: int, month: int, day: int, hour: int, minute: int, second: int, microsecond: int)

  predicate IsLeapYear(y: int)
  {
    y % 4 == 0 && (y % 100 != 0 || y % 400 == 0)
  }

  function DaysInMonth(y: int, m: int): int
    requires 1 <= m <= 12
  {
    if m == 2 then (if IsLeapYear(y) then 29 else 28)
    else if m == 4 || m == 6 || m == 9 || m == 11 then 30
    else 31
  }

  predicate ValidDate(y: int, m: int, d: int)
  {
    1 <= y <= 9999 && 1 <= m <= 12 && 1 <= d <= DaysInMonth(y, m)
  }

  predicate Valid(c: Civil)
  {
    && ValidDate(c.year, c.month, c.day)
    && 0 <= c.hour < 24 && 0 <= c.minute < 60 && 0 <= c.second < 60
    && 0 <= c.microsecond < 1000000
  }

  /** A value of Python's `datetime` type: every field within its range. */
  type DateTime = c: Civil | Valid(c) witness Civil(1, 1, 1, 0, 0, 0, 0)

  /** datetime.min */
  const DateTimeMin: DateTime := Civil(1, 1, 1, 0, 0, 0, 0)
  /** datetime.max */
  const DateTimeMax: DateTime := Civil(9999, 12, 31, 23, 59, 59, 999999)

  /** a < b on datetimes: lexicographic on (year, month, day, hour, minute, second, microsecond). */
  predicate Before(a: Civil, b: Civil)
  {
    a.year < b.year || (a.year == b.year &&
    (a.month < b.month || (a.month == b.month &&
    (a.day < b.day || (a.day == b.day &&
    (a.hour < b.hour || (a.hour == b.hour &&
    (a.minute < b.minute || (a.minute == b.minute &&
    (a.second < b.second || (a.second == b.second &&
    a.microsecond < b.microsecond)))))))))))
  }

  /** datetime.min and datetime.max bound every datetime. */
  lemma Bounds(dt: DateTime)
    ensures !Before(dt, DateTimeMin) && !Before(DateTimeMax, dt)
  {
  }

  /** `<` on datetimes is a strict total order. */
  lemma BeforeOrder(a: Civil, b: Civil, c: Civil)
    ensures !Before(a, a)
    ensures Before(a, b) ==> !Before(b, a)
    ensures Before(a, b) && Before(b, c) ==> Before(a, c)
    ensures a == b || Before(a, b) || Before(b, a)
  {
  }

  // ---------------------------------------------------------------- day numbers

  function DaysInYear(y: int): int
  {
    if IsLeapYear(y) then 366 else 365
  }

  function DaysBeforeYear(y: int): int
    requires y >= 1
    decreases y
  {
    if y == 1 then 0 else DaysBeforeYear(y - 1) + DaysInYear(y - 1)
  }

  function DaysBeforeMonth(y: int, m: int): int
    requires 1 <= m <= 13
    decreases m
  {
    if m == 1 then 0 else DaysBeforeMonth(y, m - 1) + DaysInMonth(y, m - 1)
  }

  /** date.toordinal(): 0001-01-01 is day 1. */
  function DayNumber(dt: DateTime): int
  {
    DaysBeforeYear(dt.year) + DaysBeforeMonth(dt.year, dt.month) + dt.day
  }

  /** The day number of 9999-12-31, the last representable date. */
  function LastDayNumber(): int
  {
    DaysBeforeYear(9999) + DaysBeforeMonth(9999, 12) + 31
  }

  /** Whole seconds from 0001-01-01T00:00:00 (microseconds not counted). */
  function EpochSeconds(dt: DateTime): int
  {
    (DayNumber(dt) - 1) * 86400 + dt.hour * 3600 + dt.minute * 60 + dt.second
  }

  /** The largest EpochSeconds value: that of 9999-12-31T23:59:59. */
  function LastEpochSecond(): int
  {
    (LastDayNumber() - 1) * 86400 + 86399
  }

  lemma YearLength(y: int)
    ensures DaysBeforeMonth(y, 12) + 31 == DaysInYear(y)
  {
  }

  /** The same time on the following day; None past 9999-12-31. */
  function NextDay(dt: DateTime): Option<DateTime>
  {
    if dt.day < DaysInMonth(dt.year, dt.month) then Some(dt.(day := dt.day + 1))
    else if dt.month < 12 then Some(dt.(month := dt.month + 1, day := 1))
    else if dt.year < 9999 then Some(dt.(year := dt.year + 1, month := 1, day := 1))
    else None
  }

  /** The same time on the previous day; None before 0001-01-01. */
  function PrevDay(dt: DateTime): Option<DateTime>
  {
    if dt.day > 1 then Some(dt.(day := dt.day - 1))
    else if dt.month > 1 then Some(dt.(month := dt.month - 1, day := DaysInMonth(dt.year, dt.month - 1)))
    else if dt.year > 1 then Some(dt.(year := dt.year - 1, month := 12, day := 31))
    else None
  }

  lemma NextDaySpec(dt: DateTime)
    ensures NextDay(dt).Some? ==> DayNumber(NextDay(dt).value) == DayNumber(dt) + 1
    ensures NextDay(dt).None? ==> DayNumber(dt) == LastDayNumber()
  {
    if dt.day == DaysInMonth(dt.year, dt.month) && dt.month == 12 {
      YearLength(dt.year);
    }
  }

  lemma PrevDaySpec(dt: DateTime)
    ensures PrevDay(dt).Some? ==> DayNumber(PrevDay(dt).value) == DayNumber(dt) - 1
    ensures PrevDay(dt).None? ==> DayNumber(dt) == 1
  {
    if dt.day == 1 && dt.month == 1 && dt.year > 1 {
      YearLength(dt.year - 1);
    }
  }

  /** The same time n days later (earlier for negative n); None outside years 1..9999. */
  function ShiftDays(dt: DateTime, n: int): Option<DateTime>
    decreases if n < 0 then -n else n
  {
    if n == 0 then Some(dt)
    else if n > 0 then
      match NextDay(dt)
      case None => None
      case Some(d) => ShiftDays(d, n - 1)
    else
      match PrevDay(dt)
      case None => None
      case Some(d) => ShiftDays(d, n + 1)
  }

  lemma {:induction false} ShiftDaysSpec(dt: DateTime, n: int)
    ensures ShiftDays(dt, n).Some? ==>
      && DayNumber(ShiftDays(dt, n).value) == DayNumber(dt) + n
      && ShiftDays(dt, n).value.hour == dt.hour
      && ShiftDays(dt, n).value.minute == dt.minute
      && ShiftDays(dt, n).value.second == dt.second
      && ShiftDays(dt, n).value.microsecond == dt.microsecond
    ensures ShiftDays(dt, n).None? ==> DayNumber(dt) + n < 1 || DayNumber(dt) + n > LastDayNumber()
    decreases if n < 0 then -n else n
  {
    if n > 0 {
      NextDaySpec(dt);
      if NextDay(dt).Some? {
        ShiftDaysSpec(NextDay(dt).value, n - 1);
      }
    } else if n < 0 {
      PrevDaySpec(dt);
      if PrevDay(dt).Some? {
        ShiftDaysSpec(PrevDay(dt).value, n + 1);
      }
    }
  }

  /** dt + timedelta(seconds=delta); None where Python raises OverflowError. */
  function AddSeconds(dt: DateTime, delta: int): Option<DateTime>
  {
    var secs := dt.hour * 3600 + dt.minute * 60 + dt.second + delta;
    var days := secs / 86400;
    var rest := secs % 86400;
    match ShiftDays(dt, days)
    case None => None
    case Some(d) =>
      var c := d.(hour := rest / 3600, minute := rest % 3600 / 60, second := rest % 60);
      Some(c)
  }

  /**
   * Adding seconds moves a datetime by exactly that many seconds and keeps its
   * microseconds; it fails exactly when the result would leave years 1..9999.
   */
  lemma AddSecondsExact(dt: DateTime, delta: int)
    ensures AddSeconds(dt, delta).Some? ==>
      && EpochSeconds(AddSeconds(dt, delta).value) == EpochSeconds(dt) + delta
      && AddSeconds(dt, delta).value.microsecond == dt.microsecond
    ensures AddSeconds(dt, delta).None? <==>
      EpochSeconds(dt) + delta < 0 || EpochSeconds(dt) + delta > LastEpochSecond()
  {
    var secs := dt.hour * 3600 + dt.minute * 60 + dt.second + delta;
    var days := secs / 86400;
    var rest := secs % 86400;
    assert secs == days * 86400 + rest && 0 <= rest < 86400;
    assert EpochSeconds(dt) + delta == (DayNumber(dt) - 1 + days) * 86400 + rest;
    ShiftDaysSpec(dt, days);
    match ShiftDays(dt, days)
    case None =>
    case Some(d) =>
      assert rest == rest / 3600 * 3600 + rest % 3600 / 60 * 60 + rest % 60;
      assert 1 <= DayNumber(d) <= LastDayNumber() by {
        DayNumberRange(d);
      }
  }

  lemma DayNumberRange(dt: DateTime)
    ensures 1 <= DayNumber(dt) <= LastDayNumber()
  {
    DaysBeforeMonthBounds(dt.year, dt.month);
    DaysBeforeYearNonNegative(dt.year);
    DaysBeforeYearMonotone(dt.year, 9999);
    DaysBeforeMonthMonotone(9999, dt.month, 12);
    if dt.year == 9999 {
      DaysBeforeMonthMonotone(9999, dt.month, 12);
    }
  }

  /** Every datetime lies between second 0 and the last second of 9999. */
  lemma EpochSecondsRange(dt: DateTime)
    ensures 0 <= EpochSeconds(dt) <= LastEpochSecond()
  {
    DayNumberRange(dt);
  }

  lemma {:induction false} DaysBeforeMonthBounds(y: int, m: int)
    requires 1 <= m <= 12
    ensures DaysBeforeMonth(y, m) >= 0
    ensures DaysBeforeMonth(y, m) + DaysInMonth(y, m) <= DaysInYear(y)
    decreases 12 - m
  {
    if m < 12 {
      DaysBeforeMonthBounds(y, m + 1);
    }
  }

  lemma {:induction false} DaysBeforeMonthMonotone(y: int, m1: int, m2: int)
    requires 1 <= m1 <= m2 <= 13
    ensures DaysBeforeMonth(y, m1) + (if m1 < m2 then DaysInMonth(y, m1) else 0) <= DaysBeforeMonth(y, m2)
    decreases m2 - m1
  {
    if m1 < m2 {
      DaysBeforeMonthMonotone(y, m1 + 1, m2);
    }
  }

  lemma {:induction false} DaysBeforeYearNonNegative(y: int)
    requires 1 <= y
    ensures DaysBeforeYear(y) >= 0
  {
    if y > 1 {
      DaysBeforeYearNonNegative(y - 1);
    }
  }

  lemma {:induction false} DaysBeforeYearMonotone(y1: int, y2: int)
    requires 1 <= y1 <= y2
    ensures DaysBeforeYear(y1) + (if y1 < y2 then DaysInYear(y1) else 0) <= DaysBeforeYear(y2)
    decreases y2 - y1
  {
    if y1 < y2 {
      DaysBeforeYearMonotone(y1 + 1, y2);
    }
  }

  // ---------------------------------------------------------------- text forms

  /** dt.strftime('%Y-%m-%dT%H:%M:%S'), the year zero-padded to four digits. */
  function Strftime(dt: DateTime): string
  {
    Digits(dt.year, 4) + "-" + Digits(dt.month, 2) + "-" + Digits(dt.day, 2) + "T" +
    Digits(dt.hour, 2) + ":" + Digits(dt.minute, 2) + ":" + Digits(dt.second, 2)
  }

  /** str(dt): isoformat with a space, microseconds shown only when non-zero. */
  function IsoString(dt: DateTime): string
  {
    Digits(dt.year, 4) + "-" + Digits(dt.month, 2) + "-" + Digits(dt.day, 2) + " " +
    Digits(dt.hour, 2) + ":" + Digits(dt.minute, 2) + ":" + Digits(dt.second, 2) +
    (if dt.microsecond != 0 then "." + Digits(dt.microsecond, 6) else "")
  }

  /** The directives of the format after %Y, each with the alternatives strptime's pattern allows. */
  datatype FieldKind = MonthField | DayField | HourField | MinuteField | SecondField

  /** A one-character field: %m and %d take [1-9]; %H, %M and %S take any digit. */
  predicate AcceptsOne(kind: FieldKind, c: char)
  {
    match kind
    case MonthField => '1' <= c <= '9'
    case DayField => '1' <= c <= '9'
    case _ => IsDigit(c)
  }

  /**
   * A two-character field: %m 1[0-2]|0[1-9]; %d 3[01]|[12]\d|0[1-9]| [1-9];
   * %H 2[0-3]|[0-1]\d; %M [0-5]\d; %S 6[0-1]|[0-5]\d.
   */
  predicate AcceptsTwo(kind: FieldKind, a: char, b: char)
  {
    match kind
    case MonthField => (a == '1' && '0' <= b <= '2') || (a == '0' && '1' <= b <= '9')
    case DayField =>
      (a == '3' && '0' <= b <= '1') || (('1' <= a <= '2') && IsDigit(b)) ||
      (a == '0' && '1' <= b <= '9') || (a == ' ' && '1' <= b <= '9')
    case HourField => (a == '2' && '0' <= b <= '3') || (('0' <= a <= '1') && IsDigit(b))
    case MinuteField => '0' <= a <= '5' && IsDigit(b)
    case SecondField => (a == '6' && '0' <= b <= '1') || ('0' <= a <= '5' && IsDigit(b))
  }

  /** int() of an accepted two-character field (a leading space counts as nothing). */
  function TwoValue(kind: FieldKind, a: char, b: char): int
    requires AcceptsTwo(kind, a, b)
  {
    if a == ' ' then DigitValue(b) else DigitValue(a) * 10 + DigitValue(b)
  }

  /** The literal separators of the format; strptime matches ignoring case, so 'T' also matches 't'. */
  predicate IsSeparator(c: char, sep: char)
  {
    c == sep || (sep == 'T' && c == 't')
  }

  /** One field starting at i and the separator after it: its value and the index past the separator. */
  function ScanField(s: string, i: nat, kind: FieldKind, sep: char): Option<(int, nat)>
  {
    if i + 1 < |s| && IsSeparator(s[i + 1], sep) then
      if AcceptsOne(kind, s[i]) then Some((DigitValue(s[i]), i + 2)) else None
    else if i + 2 < |s| && IsSeparator(s[i + 2], sep) then
      if AcceptsTwo(kind, s[i], s[i + 1]) then Some((TwoValue(kind, s[i], s[i + 1]), i + 3)) else None
    else None
  }

  /** The final field, which must end the string ("unconverted data remains" otherwise). */
  function ScanLast(s: string, i: nat, kind: FieldKind): Option<int>
  {
    if i + 1 == |s| && AcceptsOne(kind, s[i]) then Some(DigitValue(s[i]))
    else if i + 2 == |s| && AcceptsTwo(kind, s[i], s[i + 1]) then Some(TwoValue(kind, s[i], s[i + 1]))
    else None
  }

  /**
   * datetime.strptime(s, '%Y-%m-%dT%H:%M:%S'); None where Python raises ValueError
   * (no match, unconverted data, or a field combination datetime() rejects).
   */
  function Strptime(s: string): Option<DateTime>
  {
    if |s| < 5 || !AllDigits(s[..4]) || s[4] != '-' then None
    else
      var month :- ScanField(s, 5, MonthField, '-');
      var day :- ScanField(s, month.1, DayField, 'T');
      var hour :- ScanField(s, day.1, HourField, ':');
      var minute :- ScanField(s, hour.1, MinuteField, ':');
      var second :- ScanLast(s, minute.1, SecondField);
      var c := Civil(DigitsValue(s[..4]), month.0, day.0, hour.0, minute.0, second, 0);
      if Valid(c) then Some(c) else None
  }

  lemma TwoDigits(n: nat)
    requires n < 100
    ensures Digits(n, 2) == [DigitChar(n / 10), DigitChar(n % 10)]
  {
  }

  /** A zero-padded two-digit field in range, followed by its separator, scans to its value. */
  lemma ScanPadded(s: string, i: nat, kind: FieldKind, sep: char, n: nat)
    requires i + 3 <= |s| && s[i..i + 3] == Digits(n, 2) + [sep]
    requires !IsDigit(sep)
    requires kind == MonthField ==> 1 <= n <= 12
    requires kind == DayField ==> 1 <= n <= 31
    requires kind == HourField ==> n <= 23
    requires kind == MinuteField ==> n <= 59
    requires kind != SecondField
    ensures ScanField(s, i, kind, sep) == Some((n, i + 3))
  {
    TwoDigits(n);
    assert s[i] == DigitChar(n / 10) && s[i + 1] == DigitChar(n % 10) && s[i + 2] == sep;
  }

  /** A zero-padded seconds field that ends the string scans to its value. */
  lemma ScanLastPadded(s: string, i: nat, n: nat)
    requires i + 2 == |s| && s[i..] == Digits(n, 2) && n <= 59
    ensures ScanLast(s, i, SecondField) == Some(n)
  {
    TwoDigits(n);
    assert s[i] == DigitChar(n / 10) && s[i + 1] == DigitChar(n % 10);
  }

  /** Where strftime puts each field: fixed offsets in a 19-character string. */
  lemma StrftimeLayout(dt: DateTime)
    ensures |Strftime(dt)| == 19
    ensures Strftime(dt)[..4] == Digits(dt.year, 4) && Strftime(dt)[4] == '-'
    ensures Strftime(dt)[5..8] == Digits(dt.month, 2) + "-"
    ensures Strftime(dt)[8..11] == Digits(dt.day, 2) + "T"
    ensures Strftime(dt)[11..14] == Digits(dt.hour, 2) + ":"
    ensures Strftime(dt)[14..17] == Digits(dt.minute, 2) + ":"
    ensures Strftime(dt)[17..] == Digits(dt.second, 2)
  {
    var s := Strftime(dt);
    var a := Digits(dt.year, 4) + "-";
    var b := Digits(dt.month, 2) + "-";
    var c := Digits(dt.day, 2) + "T";
    var d := Digits(dt.hour, 2) + ":";
    var e := Digits(dt.minute, 2) + ":";
    var f := Digits(dt.second, 2);
    assert s == a + b + c + d + e + f;
    assert s[..5] == a;
    assert s[5..8] == b;
    assert s[8..11] == c;
    assert s[11..14] == d;
    assert s[14..17] == e;
    assert s[17..] == f;
  }

  /**
   * Parsing what strftime printed gives back the datetime, for every datetime
   * of whole seconds.
   */
  lemma StrptimeStrftime(dt: DateTime)
    requires dt.microsecond == 0
    ensures Strptime(Strftime(dt)) == Some(dt)
  {
    var s := Strftime(dt);
    StrftimeLayout(dt);
    ScanPadded(s, 5, MonthField, '-', dt.month);
    ScanPadded(s, 8, DayField, 'T', dt.day);
    ScanPadded(s, 11, HourField, ':', dt.hour);
    ScanPadded(s, 14, MinuteField, ':', dt.minute);
    ScanLastPadded(s, 17, dt.second);
    DigitsValueOfDigits(dt.year, 4);
  }
}
