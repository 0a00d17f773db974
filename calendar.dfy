/** Calendar-month arithmetic: `get_current_month`, `get_last_completed_month`
    and the `%Y-%m` rendering of a month. */
module Calendar {
  import opened Values

  /** Python's `datetime.MINYEAR` and `datetime.MAXYEAR`. */
  const MinYear := 1
  const MaxYear := 9999

  datatype Date = Date(year: int, month: int, day: int)

  /** A calendar month, the thing a `YYYY-MM` label names. */
  datatype Period = Period(year: int, month: int)

  predicate IsLeapYear(y: int) {
    y % 4 == 0 && (y % 100 != 0 || y % 400 == 0)
  }

  function DaysInMonth(y: int, m: int): (n: int)
    requires 1 <= m <= 12
    ensures 28 <= n <= 31
    ensures n == 29 <==> m == 2 && IsLeapYear(y)
  {
    if m == 2 then (if IsLeapYear(y) then 29 else 28)
    else if m == 4 || m == 6 || m == 9 || m == 11 then 30
    else 31
  }

  /** The dates a `datetime` can hold. */
  predicate ValidDate(d: Date) {
    MinYear <= d.year <= MaxYear && 1 <= d.month <= 12 && 1 <= d.day <= DaysInMonth(d.year, d.month)
  }

  predicate ValidPeriod(p: Period) {
    MinYear <= p.year <= MaxYear && 1 <= p.month <= 12
  }

  /** `d + timedelta(days=1)`; raises OverflowError past 9999-12-31. */
  function NextDay(d: Date): Result<Date>
    requires ValidDate(d)
  {
    if d.day < DaysInMonth(d.year, d.month) then Ok(Date(d.year, d.month, d.day + 1))
    else if d.month < 12 then Ok(Date(d.year, d.month + 1, 1))
    else if d.year < MaxYear then Ok(Date(d.year + 1, 1, 1))
    else Err(DateOverflow)
  }

  /** `d - timedelta(days=1)`; raises OverflowError on 0001-01-01.
      NextDay undoes it. */
  function PreviousDay(d: Date): (r: Result<Date>)
    requires ValidDate(d)
    ensures r.Err? <==> d == Date(MinYear, 1, 1)
    ensures r.Ok? ==> ValidDate(r.value) && NextDay(r.value) == Ok(d)
  {
    if d.day > 1 then Ok(Date(d.year, d.month, d.day - 1))
    else if d.month > 1 then Ok(Date(d.year, d.month - 1, DaysInMonth(d.year, d.month - 1)))
    else if d.year > MinYear then Ok(Date(d.year - 1, 12, 31))
    else Err(DateOverflow)
  }

  /** PreviousDay also undoes NextDay: the two are inverse on valid dates. */
  lemma PreviousDayUndoesNextDay(d: Date)
    requires ValidDate(d)
    ensures NextDay(d).Ok? ==> ValidDate(NextDay(d).value) && PreviousDay(NextDay(d).value) == Ok(d)
  {
  }

  /** `datetime(d.year, d.month, 1)`. */
  function FirstOfMonth(d: Date): (r: Date)
    requires ValidDate(d)
    ensures ValidDate(r) && r.day == 1
  {
    Date(d.year, d.month, 1)
  }

  /** The month a date falls in: what `strftime('%Y-%m')` looks at. */
  function PeriodOf(d: Date): Period {
    Period(d.year, d.month)
  }

  /** `get_current_month`: the month of the first day of the current month. */
  function CurrentMonth(now: Date): (p: Period)
    requires ValidDate(now)
    ensures ValidPeriod(p)
    ensures p == PeriodOf(now)
  {
    PeriodOf(FirstOfMonth(now))
  }

  /** `get_last_completed_month`: the month of the day before the first of
      the current month. Only the year and month of `now` matter; in January
      the result rolls back to December of the year before, and on year 1
      the subtraction overflows. */
  function LastCompletedMonth(now: Date): (r: Result<Period>)
    requires ValidDate(now)
    ensures r.Err? <==> now.year == MinYear && now.month == 1
    ensures r.Ok? ==> ValidPeriod(r.value)
    ensures r.Ok? && now.month > 1 ==> r.value == Period(now.year, now.month - 1)
    ensures r.Ok? && now.month == 1 ==> r.value == Period(now.year - 1, 12)
    ensures r.Ok? ==> r.value != CurrentMonth(now)
  {
    match PreviousDay(FirstOfMonth(now))
    case Ok(last) => Ok(PeriodOf(last))
    case Err(e) => Err(e)
  }

  /** Whatever the day of the month, the last completed month is the same. */
  lemma LastCompletedMonthIgnoresDay(now: Date, other: Date)
    requires ValidDate(now) && ValidDate(other)
    requires now.year == other.year && now.month == other.month
    ensures LastCompletedMonth(now) == LastCompletedMonth(other)
    ensures CurrentMonth(now) == CurrentMonth(other)
  {
  }

  // ---- `%Y-%m` rendering ----

  function DigitChar(n: int): (c: char)
    requires 0 <= n < 10
    ensures '0' <= c <= '9'
  {
    ('0' as int + n) as char
  }

  function DigitValue(c: char): (n: nat)
    ensures n < 10
  {
    if '0' <= c <= '9' then c as int - '0' as int else 0
  }

  function Pow10(w: nat): (r: nat)
    ensures r >= 1
  {
    if w == 0 then 1 else 10 * Pow10(w - 1)
  }

  /** `n` in decimal, zero-padded to exactly `w` digits (the low `w` digits). */
  function PadDigits(n: nat, w: nat): (s: string)
    ensures |s| == w
    ensures forall i :: 0 <= i < w ==> '0' <= s[i] <= '9'
  {
    if w == 0 then [] else PadDigits(n / 10, w - 1) + [DigitChar(n % 10)]
  }

  /** The number a string of decimal digits denotes. */
  function DecimalValue(s: string): nat {
    if s == [] then 0 else 10 * DecimalValue(s[..|s| - 1]) + DigitValue(s[|s| - 1])
  }

  /** Reading back a padded rendering gives the number, when it fits. */
  lemma {:induction false} DecimalValueOfPadDigits(n: nat, w: nat)
    requires n < Pow10(w)
    ensures DecimalValue(PadDigits(n, w)) == n
  {
    if w > 0 {
      var s := PadDigits(n, w);
      assert s[..|s| - 1] == PadDigits(n / 10, w - 1);
      DecimalValueOfPadDigits(n / 10, w - 1);
    }
  }

  /** `strftime('%Y-%m')` of any day in the period: four-digit year, dash,
      two-digit month. */
  function Format(p: Period): (s: string)
    requires ValidPeriod(p)
    ensures |s| == 7 && s[4] == '-'
    ensures forall i :: 0 <= i < 7 && i != 4 ==> '0' <= s[i] <= '9'
  {
    PadDigits(p.year, 4) + "-" + PadDigits(p.month, 2)
  }

  /** Reads a `YYYY-MM` label back into a period. */
  function ParsePeriod(s: string): Period
    requires |s| == 7
  {
    Period(DecimalValue(s[..4]), DecimalValue(s[5..]))
  }

  /** ParsePeriod inverts Format. */
  lemma {:induction false} ParseFormat(p: Period)
    requires ValidPeriod(p)
    ensures ParsePeriod(Format(p)) == p
  {
    var s := Format(p);
    assert s[..4] == PadDigits(p.year, 4);
    assert s[5..] == PadDigits(p.month, 2);
    DecimalValueOfPadDigits(p.year, 4);
    DecimalValueOfPadDigits(p.month, 2);
  }

  /** Two labels are equal exactly when their periods are, so comparing
      labels compares months. */
  lemma FormatInjective(p: Period, q: Period)
    requires ValidPeriod(p) && ValidPeriod(q)
    ensures Format(p) == Format(q) <==> p == q
  {
    if Format(p) == Format(q) {
      ParseFormat(p);
      ParseFormat(q);
    }
  }

  /** `get_last_completed_month()` as the string the source returns. */
  function LastCompletedMonthLabel(now: Date): (r: Result<string>)
    requires ValidDate(now)
    ensures r.Err? <==> LastCompletedMonth(now).Err?
    ensures r.Ok? ==> |r.value| == 7 && r.value == Format(LastCompletedMonth(now).value)
  {
    match LastCompletedMonth(now)
    case Ok(p) => Ok(Format(p))
    case Err(e) => Err(e)
  }

  /** `get_current_month()` as the string the source returns. */
  function CurrentMonthLabel(now: Date): (s: string)
    requires ValidDate(now)
    ensures |s| == 7
    ensures ParsePeriod(s) == Period(now.year, now.month)
  {
    ParseFormat(CurrentMonth(now));
    Format(CurrentMonth(now))
  }

  /** The last completed month's label is never the current month's label. */
  lemma LastCompletedIsNotCurrentLabel(now: Date)
    requires ValidDate(now)
    ensures LastCompletedMonthLabel(now).Ok? ==> LastCompletedMonthLabel(now).value != CurrentMonthLabel(now)
  {
    if LastCompletedMonth(now).Ok? {
      FormatInjective(LastCompletedMonth(now).value, CurrentMonth(now));
    }
  }

  /** A worked example: any day in July 2024 gives the label `2024-06`. */
  lemma JulyLabel(day: int)
    requires 1 <= day <= 31
    ensures LastCompletedMonthLabel(Date(2024, 7, day)) == Ok("2024-06")
    ensures CurrentMonthLabel(Date(2024, 7, day)) == "2024-07"
  {
    JulyFormats();
    assert LastCompletedMonth(Date(2024, 7, day)) == Ok(Period(2024, 6));
    assert CurrentMonth(Date(2024, 7, day)) == Period(2024, 7);
  }

  lemma JulyFormats()
    ensures Format(Period(2024, 6)) == "2024-06"
    ensures Format(Period(2024, 7)) == "2024-07"
  {
    PadYear2024();
    PadJuneJuly();
    assert "2024" + "-" + "06" == "2024-06";
    assert "2024" + "-" + "07" == "2024-07";
  }

  lemma PadYear2024()
    ensures PadDigits(2024, 4) == "2024"
  {
    assert DigitChar(0) == '0' && DigitChar(2) == '2' && DigitChar(4) == '4';
    assert PadDigits(2, 1) == [] + ['2'];
    assert PadDigits(20, 2) == "2" + ['0'];
    assert PadDigits(202, 3) == "20" + ['2'];
    assert PadDigits(2024, 4) == "202" + ['4'];
  }

  lemma PadJuneJuly()
    ensures PadDigits(6, 2) == "06" && PadDigits(7, 2) == "07"
  {
    assert DigitChar(0) == '0' && DigitChar(6) == '6' && DigitChar(7) == '7';
    assert PadDigits(0, 1) == [] + ['0'];
    assert PadDigits(6, 2) == "0" + ['6'];
    assert PadDigits(7, 2) == "0" + ['7'];
  }
}
