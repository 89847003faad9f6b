/** Proleptic Gregorian dates as `datetime` handles them for the daily challenges: the
    `%Y-%m-%d` text form, day of year, the ordinal day number and shifting by whole days
    (`date + timedelta(days=n)`), all within the years 1..9999. */
module Calendar {
  import opened Outcomes
  import opened Text

  datatype Date = Date(year: int, month: int, day: int)

  const MIN_YEAR := 1
  const MAX_YEAR := 9999
  const FIRST_DATE := Date(MIN_YEAR, 1, 1)
  const LAST_DATE := Date(MAX_YEAR, 12, 31)

  /** Ordinal day number of 9999-12-31 (`date.max.toordinal()`). */
  const MAX_ORDINAL := 3652059

  predicate IsLeapYear(y: int) {
    y % 4 == 0 && (y % 100 != 0 || y % 400 == 0)
  }

  function DaysInYear(y: int): int {
    if IsLeapYear(y) then 366 else 365
  }

  function DaysInMonth(y: int, m: int): (n: int)
    requires 1 <= m <= 12
    ensures 28 <= n <= 31
    ensures n == 29 <==> m == 2 && IsLeapYear(y)
  {
    if m == 2 then (if IsLeapYear(y) then 29 else 28)
    else [31, 0, 31, 30, 31, 30, 31, 31, 30, 31, 30, 31][m - 1]
  }

  /** A calendar date `datetime` can represent. */
  predicate ValidDate(d: Date) {
    && MIN_YEAR <= d.year <= MAX_YEAR
    && 1 <= d.month <= 12
    && 1 <= d.day <= DaysInMonth(d.year, d.month)
  }

  /** Days of the year before the first of month `m`: the cumulative month table plus the
      leap day once February is past. */
  function DaysBeforeMonth(y: int, m: int): int
    requires 1 <= m <= 12
  {
    [0, 31, 59, 90, 120, 151, 181, 212, 243, 273, 304, 334][m - 1]
      + (if m > 2 && IsLeapYear(y) then 1 else 0)
  }

  /** The cumulative table agrees with the month lengths: month `m + 1` starts right after
      the last day of month `m`, and December ends the year. */
  lemma DaysBeforeMonthStep(y: int, m: int)
    requires 1 <= m <= 12
    ensures m < 12 ==> DaysBeforeMonth(y, m + 1) == DaysBeforeMonth(y, m) + DaysInMonth(y, m)
    ensures m == 12 ==> DaysBeforeMonth(y, m) + DaysInMonth(y, m) == DaysInYear(y)
  {
  }

  /** A later month of the same year starts after every day of an earlier one. */
  lemma {:induction false} DaysBeforeMonthMonotone(y: int, m1: int, m2: int)
    requires 1 <= m1 < m2 <= 12
    ensures DaysBeforeMonth(y, m1) + DaysInMonth(y, m1) <= DaysBeforeMonth(y, m2)
    decreases m2 - m1
  {
    DaysBeforeMonthStep(y, m1);
    if m1 + 1 < m2 {
      DaysBeforeMonthMonotone(y, m1 + 1, m2);
    }
  }

  /** Every month ends within its year. */
  lemma MonthWithinYear(y: int, m: int)
    requires 1 <= m <= 12
    ensures DaysBeforeMonth(y, m) + DaysInMonth(y, m) <= DaysInYear(y)
  {
    if m < 12 {
      DaysBeforeMonthMonotone(y, m, 12);
    }
    DaysBeforeMonthStep(y, 12);
  }

  /** `timetuple().tm_yday`: the 1-based day of the year. */
  function DayOfYear(d: Date): (n: int)
    requires ValidDate(d)
    ensures 1 <= n <= DaysInYear(d.year)
  {
    MonthWithinYear(d.year, d.month);
    DaysBeforeMonth(d.year, d.month) + d.day
  }

  /** Days in the years before year `y`, counted year by year. */
  function DaysBeforeYear(y: int): int
    requires y >= 1
    decreases y
  {
    if y == 1 then 0 else DaysBeforeYear(y - 1) + DaysInYear(y - 1)
  }

  /** The closed form `datetime` uses for the days before year `y`: 365 for each earlier
      year, plus one for every fourth, less one for every hundredth, plus one for every
      four-hundredth. */
  function DaysBeforeYearFormula(y: int): int {
    var p := y - 1;
    p * 365 + p / 4 - p / 100 + p / 400
  }

  /** `toordinal()`: 0001-01-01 is day 1. */
  function Ordinal(d: Date): int
    requires ValidDate(d)
  {
    DaysBeforeYear(d.year) + DayOfYear(d)
  }

  /** Going from `y - 1` to `y`, floor division by a leap-rule divisor steps up exactly when
      the divisor divides `y`. */
  lemma DivStep(y: int, k: int)
    requires y >= 1 && (k == 4 || k == 100 || k == 400)
    ensures y / k - (y - 1) / k == if y % k == 0 then 1 else 0
  {
    if k == 4 {
      assert y / 4 - (y - 1) / 4 == if y % 4 == 0 then 1 else 0;
    } else if k == 100 {
      assert y / 100 - (y - 1) / 100 == if y % 100 == 0 then 1 else 0;
    } else {
      assert y / 400 - (y - 1) / 400 == if y % 400 == 0 then 1 else 0;
    }
  }

  /** The closed form agrees with the leap-year rule: a year adds its own length. */
  lemma FormulaStep(y: int)
    requires y >= 1
    ensures DaysBeforeYearFormula(y + 1) == DaysBeforeYearFormula(y) + DaysInYear(y)
  {
    var p := y - 1;
    assert DaysBeforeYearFormula(y + 1) - DaysBeforeYearFormula(y)
      == 365 + (y / 4 - p / 4) - (y / 100 - p / 100) + (y / 400 - p / 400);
    DivStep(y, 4);
    DivStep(y, 100);
    DivStep(y, 400);
    LeapDivisors(y);
  }

  /** A multiple of 400 is a multiple of 100, and a multiple of 100 one of 4. */
  lemma LeapDivisors(y: int)
    ensures y % 400 == 0 ==> y % 100 == 0
    ensures y % 100 == 0 ==> y % 4 == 0
  {
    if y % 400 == 0 {
      var q := y / 400;
      assert y == 400 * q;
      assert y / 100 == 4 * q;
    }
    if y % 100 == 0 {
      var q := y / 100;
      assert y == 100 * q;
      assert y / 4 == 25 * q;
    }
  }

  /** Counting year by year gives the closed form. */
  lemma {:induction false} DaysBeforeYearClosedForm(y: int)
    requires y >= 1
    ensures DaysBeforeYear(y) == DaysBeforeYearFormula(y)
    decreases y
  {
    if y > 1 {
      DaysBeforeYearClosedForm(y - 1);
      FormulaStep(y - 1);
    }
  }

  /** The years 1 to 9999 hold `MAX_ORDINAL` days. */
  lemma SupportedYearsLength()
    ensures DaysBeforeYear(MAX_YEAR + 1) == MAX_ORDINAL
  {
    DaysBeforeYearClosedForm(MAX_YEAR + 1);
  }

  lemma {:induction false} DaysBeforeYearMonotone(y1: int, y2: int)
    requires 1 <= y1 <= y2
    ensures DaysBeforeYear(y1) + (y2 - y1) * 365 <= DaysBeforeYear(y2)
    decreases y2 - y1
  {
    if y1 < y2 {
      DaysBeforeYearMonotone(y1 + 1, y2);
    }
  }

  /** Every representable date has an ordinal in 1..MAX_ORDINAL, the first and last dates
      sitting at the two ends. */
  lemma OrdinalBounds(d: Date)
    requires ValidDate(d)
    ensures 1 <= Ordinal(d) <= MAX_ORDINAL
    ensures Ordinal(d) == 1 <==> d == FIRST_DATE
    ensures Ordinal(d) == MAX_ORDINAL <==> d == LAST_DATE
  {
    DaysBeforeYearMonotone(1, d.year);
    DaysBeforeYearMonotone(d.year + 1, MAX_YEAR + 1);
    SupportedYearsLength();
    if d.month < 12 {
      DaysBeforeMonthMonotone(d.year, d.month, 12);
    }
    DaysBeforeMonthStep(d.year, 12);
    if d.month > 1 {
      DaysBeforeMonthMonotone(d.year, 1, d.month);
    }
  }

  /** A date in an earlier year has a smaller ordinal. */
  lemma EarlierYearSmallerOrdinal(a: Date, b: Date)
    requires ValidDate(a) && ValidDate(b) && a.year < b.year
    ensures Ordinal(a) < Ordinal(b)
  {
    DaysBeforeYearMonotone(a.year + 1, b.year);
  }

  /** Within a year, a date in an earlier month has a smaller ordinal. */
  lemma EarlierMonthSmallerOrdinal(a: Date, b: Date)
    requires ValidDate(a) && ValidDate(b) && a.year == b.year && a.month < b.month
    ensures Ordinal(a) < Ordinal(b)
  {
    DaysBeforeMonthMonotone(a.year, a.month, b.month);
  }

  /** Different dates have different ordinals. */
  lemma OrdinalInjective(d1: Date, d2: Date)
    requires ValidDate(d1) && ValidDate(d2)
    ensures Ordinal(d1) == Ordinal(d2) ==> d1 == d2
  {
    if d1.year < d2.year {
      EarlierYearSmallerOrdinal(d1, d2);
    } else if d2.year < d1.year {
      EarlierYearSmallerOrdinal(d2, d1);
    } else if d1.month < d2.month {
      EarlierMonthSmallerOrdinal(d1, d2);
    } else if d2.month < d1.month {
      EarlierMonthSmallerOrdinal(d2, d1);
    }
  }

  /** The day after `d`; none after 9999-12-31 (`OverflowError`). */
  function NextDay(d: Date): (r: Option<Date>)
    requires ValidDate(d)
    ensures r.Some? ==> ValidDate(r.value)
  {
    if d.day < DaysInMonth(d.year, d.month) then Some(Date(d.year, d.month, d.day + 1))
    else if d.month < 12 then Some(Date(d.year, d.month + 1, 1))
    else if d.year < MAX_YEAR then Some(Date(d.year + 1, 1, 1))
    else None
  }

  /** The day before `d`; none before 0001-01-01. */
  function PrevDay(d: Date): (r: Option<Date>)
    requires ValidDate(d)
    ensures r.Some? ==> ValidDate(r.value)
  {
    if d.day > 1 then Some(Date(d.year, d.month, d.day - 1))
    else if d.month > 1 then Some(Date(d.year, d.month - 1, DaysInMonth(d.year, d.month - 1)))
    else if d.year > MIN_YEAR then Some(Date(d.year - 1, 12, 31))
    else None
  }

  /** The next day is a valid date one ordinal later; only the last date has none. */
  lemma NextDayOrdinal(d: Date)
    requires ValidDate(d)
    ensures NextDay(d).None? <==> d == LAST_DATE
    ensures NextDay(d).Some? ==> ValidDate(NextDay(d).value) && Ordinal(NextDay(d).value) == Ordinal(d) + 1
  {
    if d.day < DaysInMonth(d.year, d.month) {
      assert NextDay(d) == Some(Date(d.year, d.month, d.day + 1));
      SameMonthOrdinal(d);
    } else if d.month < 12 {
      assert NextDay(d) == Some(Date(d.year, d.month + 1, 1));
      NewMonthOrdinal(d);
    } else if d.year < MAX_YEAR {
      assert d.day == 31 && NextDay(d) == Some(Date(d.year + 1, 1, 1));
      NewYearOrdinal(d);
    } else {
      assert d == LAST_DATE;
    }
  }

  /** Inside a month, the next day is one ordinal later. */
  lemma SameMonthOrdinal(d: Date)
    requires ValidDate(d) && d.day < DaysInMonth(d.year, d.month)
    ensures ValidDate(Date(d.year, d.month, d.day + 1))
    ensures Ordinal(Date(d.year, d.month, d.day + 1)) == Ordinal(d) + 1
  {
  }

  /** The first of the next month follows the last day of a month before December. */
  lemma NewMonthOrdinal(d: Date)
    requires ValidDate(d) && d.day == DaysInMonth(d.year, d.month) && d.month < 12
    ensures ValidDate(Date(d.year, d.month + 1, 1))
    ensures Ordinal(Date(d.year, d.month + 1, 1)) == Ordinal(d) + 1
  {
    DaysBeforeMonthStep(d.year, d.month);
  }

  /** New Year's Day follows the 31st of December. */
  lemma NewYearOrdinal(d: Date)
    requires ValidDate(d) && d.month == 12 && d.day == 31 && d.year < MAX_YEAR
    ensures ValidDate(Date(d.year + 1, 1, 1))
    ensures Ordinal(Date(d.year + 1, 1, 1)) == Ordinal(d) + 1
  {
    DaysBeforeMonthStep(d.year, 12);
  }

  /** The previous day is a valid date one ordinal earlier; only the first date has none. */
  lemma PrevDayOrdinal(d: Date)
    requires ValidDate(d)
    ensures PrevDay(d).None? <==> d == FIRST_DATE
    ensures PrevDay(d).Some? ==> ValidDate(PrevDay(d).value) && Ordinal(PrevDay(d).value) == Ordinal(d) - 1
  {
    if PrevDay(d).Some? {
      var e := PrevDay(d).value;
      assert ValidDate(e);
      assert NextDay(e) == Some(d);
      NextDayOrdinal(e);
    }
  }

  /** Within a year the day of year counts up by one; the next year starts again at 1. */
  lemma NextDayOfYear(d: Date)
    requires ValidDate(d) && NextDay(d).Some?
    ensures ValidDate(NextDay(d).value)
    ensures NextDay(d).value.year == d.year ==> DayOfYear(NextDay(d).value) == DayOfYear(d) + 1
    ensures NextDay(d).value.year != d.year ==> DayOfYear(NextDay(d).value) == 1 && DayOfYear(d) == DaysInYear(d.year)
  {
    NextDayOrdinal(d);
    if d.day == DaysInMonth(d.year, d.month) {
      DaysBeforeMonthStep(d.year, d.month);
    }
  }

  /** `d + timedelta(days=n)`, one day at a time; none once the walk leaves the years
      1..9999. */
  function ShiftDays(d: Date, n: int): (r: Option<Date>)
    requires ValidDate(d)
    ensures r.Some? ==> ValidDate(r.value)
    decreases if n < 0 then -n else n
  {
    if n == 0 then Some(d)
    else if n > 0 then
      match NextDay(d)
      case None => None
      case Some(e) => ShiftDays(e, n - 1)
    else
      match PrevDay(d)
      case None => None
      case Some(e) => ShiftDays(e, n + 1)
  }

  /** Shifting agrees with ordinal arithmetic, as `datetime` computes it: the shift exists
      exactly when the target ordinal is in range, and it lands on that ordinal. */
  lemma ShiftDaysOrdinal(d: Date, n: int)
    requires ValidDate(d)
    ensures ShiftDays(d, n).Some? <==> 1 <= Ordinal(d) + n <= MAX_ORDINAL
    ensures ShiftDays(d, n).Some? ==>
      ValidDate(ShiftDays(d, n).value) && Ordinal(ShiftDays(d, n).value) == Ordinal(d) + n
  {
    OrdinalBounds(d);
    if n >= 0 {
      ShiftForwardOrdinal(d, n);
    } else {
      ShiftBackwardOrdinal(d, n);
    }
  }

  /** A walk forward lands `n` ordinals later, and exists while that stays in range. */
  lemma {:induction false} ShiftForwardOrdinal(d: Date, n: int)
    requires ValidDate(d) && n >= 0
    ensures ShiftDays(d, n).Some? <==> Ordinal(d) + n <= MAX_ORDINAL
    ensures ShiftDays(d, n).Some? ==> Ordinal(ShiftDays(d, n).value) == Ordinal(d) + n
    decreases n
  {
    OrdinalBounds(d);
    if n > 0 {
      NextDayOrdinal(d);
      match NextDay(d)
      case None =>
      case Some(e) =>
        ShiftForwardOrdinal(e, n - 1);
    }
  }

  /** A walk backward exists while the ordinal `-n` days earlier stays in range, and lands
      on that ordinal. */
  lemma ShiftBackwardOrdinal(d: Date, n: int)
    requires ValidDate(d) && n <= 0
    ensures ShiftDays(d, n).Some? <==> 1 <= Ordinal(d) + n
    ensures ShiftDays(d, n).Some? ==> Ordinal(ShiftDays(d, n).value) == Ordinal(d) + n
  {
    BackwardExists(d, n);
    BackwardLands(d, n);
  }

  lemma {:induction false} BackwardExists(d: Date, n: int)
    requires ValidDate(d) && n <= 0
    ensures ShiftDays(d, n).Some? <==> 1 <= Ordinal(d) + n
    decreases -n
  {
    if n == 0 {
      OrdinalBounds(d);
    } else {
      PrevDayOrdinal(d);
      match PrevDay(d)
      case None =>
        FirstOrdinal();
      case Some(e) =>
        BackwardExists(e, n + 1);
    }
  }

  lemma {:induction false} BackwardLands(d: Date, n: int)
    requires ValidDate(d) && n <= 0
    ensures ShiftDays(d, n).Some? ==> Ordinal(ShiftDays(d, n).value) == Ordinal(d) + n
    decreases -n
  {
    if n < 0 && PrevDay(d).Some? {
      PrevDayOrdinal(d);
      BackwardLands(PrevDay(d).value, n + 1);
    }
  }

  /** 0001-01-01 is day 1. */
  lemma FirstOrdinal()
    ensures Ordinal(FIRST_DATE) == 1
  {
  }

  /** Once a forward walk leaves the supported years, every longer walk does too. */
  lemma {:induction false} ShiftBeyondRange(d: Date, i: int, n: int)
    requires ValidDate(d) && 0 <= i <= n && ShiftDays(d, i).None?
    ensures ShiftDays(d, n).None?
    decreases i
  {
    if NextDay(d).Some? {
      ShiftBeyondRange(NextDay(d).value, i - 1, n - 1);
    }
  }

  /** The text `strftime('%Y-%m-%d')` writes: four, two and two decimal digits around two
      dashes. */
  predicate Canonical(s: string) {
    && |s| == 10 && s[4] == '-' && s[7] == '-'
    && AllDigits(s[..4]) && AllDigits(s[5..7]) && AllDigits(s[8..])
  }

  /** Where the three fields of `year-month-day` text sit: the second dash follows the month,
      whatever its width. */
  lemma DashSlices(y: string, m: string, dd: string)
    requires |y| == 4 && 1 <= |m| <= 2
    ensures var s := y + "-" + m + "-" + dd;
      && |s| == 6 + |m| + |dd| && s[4] == '-' && s[5 + |m|] == '-'
      && s[..4] == y && s[5..5 + |m|] == m && s[6 + |m|..] == dd
      && (|m| == 1 ==> s[6] == '-') && (|m| == 2 ==> s[6] == m[1])
  {
    var s := y + "-" + m + "-" + dd;
    assert s[..4] == y;
    assert s[5..5 + |m|] == m;
    assert s[6 + |m|..] == dd;
  }

  /** `strftime('%Y-%m-%d')` with two-digit month and day, and the year always zero-padded
      to four digits (as C libraries that pad `%Y` write it). */
  function FormatDate(d: Date): (s: string)
    requires ValidDate(d)
    ensures Canonical(s)
  {
    DashSlices(PadDigits(d.year, 4), PadDigits(d.month, 2), PadDigits(d.day, 2));
    PadDigits(d.year, 4) + "-" + PadDigits(d.month, 2) + "-" + PadDigits(d.day, 2)
  }

  /** The text the `%m` directive of `strptime` accepts: `10` to `12`, `01` to `09`, or one
      digit `1` to `9`. */
  predicate MonthField(t: string) {
    || (|t| == 2 && t[0] == '1' && '0' <= t[1] <= '2')
    || (|t| == 2 && t[0] == '0' && '1' <= t[1] <= '9')
    || (|t| == 1 && '1' <= t[0] <= '9')
  }

  /** The text the `%d` directive accepts: `30` or `31`, `10` to `29`, `01` to `09`, one digit
      `1` to `9`, or a space followed by a digit `1` to `9`. */
  predicate DayField(t: string) {
    || (|t| == 2 && t[0] == '3' && '0' <= t[1] <= '1')
    || (|t| == 2 && '1' <= t[0] <= '2' && IsDigit(t[1]))
    || (|t| == 2 && t[0] == '0' && '1' <= t[1] <= '9')
    || (|t| == 1 && '1' <= t[0] <= '9')
    || (|t| == 2 && t[0] == ' ' && '1' <= t[1] <= '9')
  }

  /** The number a month or day field denotes. */
  function FieldValue(t: string): (n: int)
    requires MonthField(t) || DayField(t)
    ensures MonthField(t) ==> 1 <= n <= 12
    ensures DayField(t) ==> 1 <= n <= 31
  {
    if |t| == 1 then DigitValue(t[0])
    else if t[0] == ' ' then DigitValue(t[1])
    else 10 * DigitValue(t[0]) + DigitValue(t[1])
  }

  /** `strptime(s, '%Y-%m-%d')`: four digits, a dash, a month field, a dash and a day field
      taking up the rest of the text, naming a representable date; anything else is a
      `ValueError`. The month ends at the first dash after the year. */
  function ParseDate(s: string): (r: Result<Date>)
    ensures r.Ok? ==> ValidDate(r.value)
    ensures r.Err? ==> r.error == InvalidDate
  {
    if |s| < 8 || s[4] != '-' || !AllDigits(s[..4]) then Err(InvalidDate)
    else
      var k := if s[6] == '-' then 6 else 7;
      if s[k] != '-' || !MonthField(s[5..k]) || !DayField(s[k + 1..]) then Err(InvalidDate)
      else
        var d := Date(DigitsValue(s[..4]), FieldValue(s[5..k]), FieldValue(s[k + 1..]));
        if ValidDate(d) then Ok(d) else Err(InvalidDate)
  }

  /** Text made of a four-digit year, a month field and a day field is accepted exactly when
      the fields name a representable date, and then it parses to that date. */
  lemma ParseFields(y: string, m: string, dd: string)
    requires |y| == 4 && AllDigits(y) && MonthField(m) && DayField(dd)
    ensures var d := Date(DigitsValue(y), FieldValue(m), FieldValue(dd));
      ParseDate(y + "-" + m + "-" + dd) == if ValidDate(d) then Ok(d) else Err(InvalidDate)
  {
    DashSlices(y, m, dd);
  }

  /** Conversely, every accepted text is a four-digit year, a dash, a month field, a dash and
      a day field, and it parses to the date those fields name: text of any other shape is
      refused. */
  lemma ParseShape(s: string)
    requires ParseDate(s).Ok?
    ensures |s| >= 4 && AllDigits(s[..4])
    ensures exists m, dd ::
      && MonthField(m) && DayField(dd) && s == s[..4] + "-" + m + "-" + dd
      && ParseDate(s).value == Date(DigitsValue(s[..4]), FieldValue(m), FieldValue(dd))
  {
    var k := if s[6] == '-' then 6 else 7;
    var m, dd := s[5..k], s[k + 1..];
    assert s == s[..4] + "-" + m + "-" + dd;
  }

  /** On two digits, the month and day fields accept exactly the numbers 1 to 12 and 1 to 31,
      and read them in decimal. */
  lemma TwoDigitFields(t: string)
    requires |t| == 2 && AllDigits(t)
    ensures MonthField(t) <==> 1 <= DigitsValue(t) <= 12
    ensures DayField(t) <==> 1 <= DigitsValue(t) <= 31
    ensures MonthField(t) || DayField(t) ==> FieldValue(t) == DigitsValue(t)
  {
    TwoDigitsValue(t);
  }

  /** Canonical text is accepted exactly when its three numbers name a representable date,
      and then it parses to that date. */
  lemma ParseCanonical(s: string, year: int, month: int, day: int)
    requires 0 <= year < 10000 && 0 <= month < 100 && 0 <= day < 100
    requires s == PadDigits(year, 4) + "-" + PadDigits(month, 2) + "-" + PadDigits(day, 2)
    ensures ParseDate(s) == if ValidDate(Date(year, month, day)) then Ok(Date(year, month, day)) else Err(InvalidDate)
  {
    var y, m, dd := PadDigits(year, 4), PadDigits(month, 2), PadDigits(day, 2);
    DashSlices(y, m, dd);
    PadDigitsRoundTrip(year, 4);
    PadDigitsRoundTrip(month, 2);
    PadDigitsRoundTrip(day, 2);
    TwoDigitFields(m);
    TwoDigitFields(dd);
  }

  /** Formatting a date and parsing it back gives the date. */
  lemma ParseFormatRoundTrip(d: Date)
    requires ValidDate(d)
    ensures ParseDate(FormatDate(d)) == Ok(d)
  {
    ParseCanonical(FormatDate(d), d.year, d.month, d.day);
  }

  /** An accepted text is the formatted form of the date it parses to exactly when it is
      canonical: `2024-1-5` parses, but formats back as `2024-01-05`. */
  lemma FormatParseRoundTrip(s: string)
    requires ParseDate(s).Ok?
    ensures FormatDate(ParseDate(s).value) == s <==> Canonical(s)
  {
    if Canonical(s) {
      CanonicalValues(s);
      FormatCanonical(s, ParseDate(s).value);
    }
  }

  /** Accepted canonical text denotes the three decimal numbers written in it. */
  lemma CanonicalValues(s: string)
    requires Canonical(s) && ParseDate(s).Ok?
    ensures ParseDate(s).value == Date(DigitsValue(s[..4]), DigitsValue(s[5..7]), DigitsValue(s[8..]))
  {
    TwoDigitFields(s[5..7]);
    TwoDigitFields(s[8..]);
  }

  /** Formatting the numbers written in canonical text writes that text again. */
  lemma FormatCanonical(s: string, d: Date)
    requires Canonical(s) && ValidDate(d)
    requires d == Date(DigitsValue(s[..4]), DigitsValue(s[5..7]), DigitsValue(s[8..]))
    ensures FormatDate(d) == s
  {
    SplitCanonical(s);
    DigitsPadRoundTrip(s[..4]);
    DigitsPadRoundTrip(s[5..7]);
    DigitsPadRoundTrip(s[8..]);
  }

  /** Canonical text is its three fields joined by dashes. */
  lemma SplitCanonical(s: string)
    requires Canonical(s)
    ensures s == s[..4] + "-" + s[5..7] + "-" + s[8..]
  {
  }

  /** `2024-01-01` is accepted as the date it spells. */
  lemma ParseFirstOfJanuary2024()
    ensures ParseDate("2024-01-01") == Ok(Date(2024, 1, 1))
  {
    ParseFields("2024", "01", "01");
    FourDigitsValue("2024");
    assert "2024-01-01" == "2024" + "-" + "01" + "-" + "01";
  }

  /** `2024-01-05` is accepted as the date it spells. */
  lemma ParseFifthOfJanuary2024()
    ensures ParseDate("2024-01-05") == Ok(Date(2024, 1, 5))
  {
    ParseFields("2024", "01", "05");
    FourDigitsValue("2024");
    assert "2024-01-05" == "2024" + "-" + "01" + "-" + "05";
  }

  /** One-digit months and days, and a day padded with a space, are accepted too. */
  lemma ParseShortFields()
    ensures ParseDate("2024-1-5") == Ok(Date(2024, 1, 5))
    ensures ParseDate("2024-01- 5") == Ok(Date(2024, 1, 5))
  {
    FourDigitsValue("2024");
    ParseFields("2024", "1", "5");
    assert "2024-1-5" == "2024" + "-" + "1" + "-" + "5";
    ParseFields("2024", "01", " 5");
    assert "2024-01- 5" == "2024" + "-" + "01" + "-" + " 5";
  }

  /** A thirteenth month is refused by the month field itself. */
  lemma NoThirteenthMonth()
    ensures ParseDate("2024-13-01") == Err(InvalidDate)
  {
    var s := "2024-13-01";
    assert s[5..7] == "13";
  }

  /** `2023-02-29` has the canonical shape but names no day: 2023 is not a leap year. */
  lemma NoLeapDayIn2023()
    ensures ParseDate("2023-02-29") == Err(InvalidDate)
  {
    ParseFields("2023", "02", "29");
    FourDigitsValue("2023");
    assert "2023-02-29" == "2023" + "-" + "02" + "-" + "29";
  }
}
