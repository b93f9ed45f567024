/** Dates as Python's proleptic Gregorian ordinals (`date.toordinal()`: 0001-01-01 is day 1,
    a Monday), the `strptime` formats the core parses, and the week arithmetic of the backend. */
module Calendar {
  import opened Wrappers
  import opened Text

  const MaxYear := 9999

  /** `date(9999, 12, 31).toordinal()`: no date lies beyond it. */
  const MaxOrdinal := 3652059

  datatype Date = Date(year: int, month: int, day: int)

  /** A time of day as `datetime.time` holds it (microseconds are not modelled). */
  datatype ClockTime = ClockTime(hour: int, minute: int, second: int)

  predicate IsLeap(y: int)
  {
    y % 4 == 0 && (y % 100 != 0 || y % 400 == 0)
  }

  function DaysInMonth(y: int, m: int): int
    requires 1 <= m <= 12
  {
    if m == 2 then (if IsLeap(y) then 29 else 28)
    else if m == 4 || m == 6 || m == 9 || m == 11 then 30
    else 31
  }

  /** What `date(year, month, day)` accepts. */
  predicate ValidDate(d: Date)
  {
    1 <= d.year <= MaxYear && 1 <= d.month <= 12 && 1 <= d.day <= DaysInMonth(d.year, d.month)
  }

  predicate ValidClockTime(t: ClockTime)
  {
    0 <= t.hour < 24 && 0 <= t.minute < 60 && 0 <= t.second < 60
  }

  function DaysBeforeYear(y: int): int
    requires y >= 1
  {
    var z := y - 1;
    z * 365 + z / 4 - z / 100 + z / 400
  }

  function DaysBeforeMonth(y: int, m: int): (n: int)
    requires 1 <= m <= 12
    ensures 0 <= n && n + DaysInMonth(y, m) <= 365 + (if IsLeap(y) then 1 else 0)
  {
    [0, 31, 59, 90, 120, 151, 181, 212, 243, 273, 304, 334][m - 1] + (if m > 2 && IsLeap(y) then 1 else 0)
  }

  lemma DaysBeforeYearBound(y: int)
    requires 1 <= y <= MaxYear
    ensures 0 <= DaysBeforeYear(y)
    ensures DaysBeforeYear(y) + 365 + (if IsLeap(y) then 1 else 0) <= MaxOrdinal
  {
    if y < MaxYear {
      assert DaysBeforeYear(y) <= DaysBeforeYear(MaxYear - 1);
    }
  }

  /** `date.toordinal()`. */
  function ToOrdinal(d: Date): (n: int)
    requires ValidDate(d)
    ensures 1 <= n <= MaxOrdinal
  {
    DaysBeforeYearBound(d.year);
    DaysBeforeYear(d.year) + DaysBeforeMonth(d.year, d.month) + d.day
  }

  /** `weekday()` of the date with ordinal `n`: Monday is 0, Sunday is 6. */
  function Weekday(n: int): (w: int)
    ensures 0 <= w < 7
  {
    (n + 6) % 7
  }

  /** One week later is the same day of the week. */
  lemma WeekdayShift(n: int, weeks: int)
    ensures Weekday(n + 7 * weeks) == Weekday(n)
  {
  }

  /** `today - timedelta(days=today.weekday())`: the Monday that starts the current week. */
  function CurrentWeekStart(today: int): (monday: int)
    ensures Weekday(monday) == 0
    ensures today - 6 <= monday <= today
  {
    today - Weekday(today)
  }

  /** The Monday of the current week is the only Monday within the six days before today. */
  lemma CurrentWeekStartUnique(today: int, m: int)
    requires Weekday(m) == 0 && today - 6 <= m <= today
    ensures m == CurrentWeekStart(today)
  {
  }

  /** The start of week `weekNumber` of `year` as the report handler computes it from
      1 January: back to the Monday on or before that day, then forward `weekNumber` weeks.
      This is not ISO 8601 week dating: week 1 starts seven days after that Monday. */
  function ReportWeekStart(year: int, weekNumber: int): (start: int)
    requires 1 <= year <= MaxYear
  {
    var jan1 := ToOrdinal(Date(year, 1, 1));
    var daysToMonday := (7 - Weekday(jan1)) % 7;
    var daysToMonday' := if daysToMonday == 0 then 7 else daysToMonday;
    var firstMonday := jan1 + daysToMonday' - 7;
    firstMonday + 7 * weekNumber
  }

  /** Every week the report resolves starts on a Monday, and it is the Monday on or before
      1 January moved by whole weeks. */
  lemma ReportWeekStartIsMonday(year: int, weekNumber: int)
    requires 1 <= year <= MaxYear
    ensures Weekday(ReportWeekStart(year, weekNumber)) == 0
    ensures ReportWeekStart(year, weekNumber) - 7 * weekNumber
              == CurrentWeekStart(ToOrdinal(Date(year, 1, 1)))
  {
    var jan1 := ToOrdinal(Date(year, 1, 1));
    WeekdayShift(CurrentWeekStart(jan1), weekNumber);
  }

  lemma ReportWeekExamples()
    ensures ReportWeekStart(2023, 1) == ToOrdinal(Date(2023, 1, 2))
    ensures ReportWeekStart(2024, 1) == ToOrdinal(Date(2024, 1, 8))
    ensures Weekday(ToOrdinal(Date(2024, 1, 1))) == 0
    ensures ReportWeekStart(2024, 0) == ToOrdinal(Date(2024, 1, 1))
  {
    ReportWeek2023();
    ReportWeeks2024();
  }

  lemma ReportWeek2023()
    ensures ReportWeekStart(2023, 1) == ToOrdinal(Date(2023, 1, 2))
  {
  }

  lemma ReportWeeks2024()
    ensures ReportWeekStart(2024, 1) == ToOrdinal(Date(2024, 1, 8))
    ensures Weekday(ToOrdinal(Date(2024, 1, 1))) == 0
    ensures ReportWeekStart(2024, 0) == ToOrdinal(Date(2024, 1, 1))
  {
  }

  // ---------------------------------------------------------------- strptime

  /** The `%m` directive, `1[0-2]|0[1-9]|[1-9]`, tried in that order: the month and how many
      characters it takes. The format's next character is a fixed `-`, so a later alternative
      never rescues a match that an earlier one made and the `-` then refused. */
  function MatchMonth(s: string): Option<(int, nat)>
  {
    if |s| >= 2 && s[0] == '1' && '0' <= s[1] <= '2' then Some((10 + DigitValue(s[1]), 2))
    else if |s| >= 2 && s[0] == '0' && '1' <= s[1] <= '9' then Some((DigitValue(s[1]), 2))
    else if |s| >= 1 && '1' <= s[0] <= '9' then Some((DigitValue(s[0]), 1))
    else None
  }

  /** The `%d` directive, `3[01]|[12]\d|0[1-9]|[1-9]| [1-9]`, first alternative first. */
  function MatchDay(s: string): Option<(int, nat)>
  {
    if |s| >= 2 && s[0] == '3' && '0' <= s[1] <= '1' then Some((30 + DigitValue(s[1]), 2))
    else if |s| >= 2 && '1' <= s[0] <= '2' && IsDigit(s[1]) then Some((10 * DigitValue(s[0]) + DigitValue(s[1]), 2))
    else if |s| >= 2 && s[0] == '0' && '1' <= s[1] <= '9' then Some((DigitValue(s[1]), 2))
    else if |s| >= 1 && '1' <= s[0] <= '9' then Some((DigitValue(s[0]), 1))
    else if |s| >= 2 && s[0] == ' ' && '1' <= s[1] <= '9' then Some((DigitValue(s[1]), 2))
    else None
  }

  /** `datetime.strptime(s, '%Y-%m-%d').date()`: four digits, `-`, a month, `-`, a day, nothing
      after it ("unconverted data remains" otherwise), and a date that exists. */
  function ParseIsoDate(s: string): (r: Option<Date>)
    ensures r.Some? ==> ValidDate(r.value)
  {
    if |s| < 5 || !AllDigits(s[..4]) || s[4] != '-' then None
    else
      var year := DigitsValue(s[..4]);
      var rest := s[5..];
      var month := MatchMonth(rest);
      if month.None? || |rest| <= month.value.1 || rest[month.value.1] != '-' then None
      else
        var tail := rest[month.value.1 + 1..];
        var day := MatchDay(tail);
        if day.None? || day.value.1 != |tail| then None
        else if ValidDate(Date(year, month.value.0, day.value.0)) then Some(Date(year, month.value.0, day.value.0))
        else None
  }

  function Pad2(n: int): (s: string)
    requires 0 <= n < 100
    ensures |s| == 2 && AllDigits(s)
  {
    [DigitChar(n / 10), DigitChar(n % 10)]
  }

  function Pad4(n: int): (s: string)
    requires 0 <= n < 10000
    ensures |s| == 4 && AllDigits(s)
  {
    [DigitChar(n / 1000), DigitChar(n / 100 % 10), DigitChar(n / 10 % 10), DigitChar(n % 10)]
  }

  /** `date.isoformat()`. */
  function FormatIsoDate(d: Date): string
    requires ValidDate(d)
  {
    Pad4(d.year) + "-" + Pad2(d.month) + "-" + Pad2(d.day)
  }

  lemma Pad4Value(n: int)
    requires 0 <= n < 10000
    ensures DigitsValue(Pad4(n)) == n
  {
    FourDigitsValue(n / 1000, n / 100 % 10, n / 10 % 10, n % 10);
    assert n / 1000 * 10 + n / 100 % 10 == n / 100;
    assert n / 100 * 10 + n / 10 % 10 == n / 10;
    assert n / 10 * 10 + n % 10 == n;
  }

  /** Four digits read back as the number they spell, most significant first. */
  lemma FourDigitsValue(a: nat, b: nat, c: nat, d: nat)
    requires a < 10 && b < 10 && c < 10 && d < 10
    ensures DigitsValue([DigitChar(a), DigitChar(b), DigitChar(c), DigitChar(d)]) == ((a * 10 + b) * 10 + c) * 10 + d
  {
    var s := [DigitChar(a), DigitChar(b), DigitChar(c), DigitChar(d)];
    assert s[..1][..0] == [] && s[..2][..1] == s[..1] && s[..3][..2] == s[..2] && s[..4][..3] == s[..3];
    assert DigitsValue(s[..1]) == a;
    assert DigitsValue(s[..2]) == a * 10 + b;
    assert DigitsValue(s[..3]) == (a * 10 + b) * 10 + c;
    assert s[..4] == s;
  }

  /** Parsing what `isoformat` prints gives back the date. */
  lemma {:induction false} IsoDateRoundTrip(d: Date)
    requires ValidDate(d)
    ensures ParseIsoDate(FormatIsoDate(d)) == Some(d)
  {
    var s := FormatIsoDate(d);
    Pad4Value(d.year);
    assert s[..4] == Pad4(d.year);
    var rest := s[5..];
    assert rest == Pad2(d.month) + "-" + Pad2(d.day);
    assert MatchMonth(rest) == Some((d.month, 2));
    var tail := rest[3..];
    assert tail == Pad2(d.day);
    assert MatchDay(tail) == Some((d.day, 2));
  }

  /** The `%H` directive, `2[0-3]|[0-1]\d|\d`, first alternative first. */
  function MatchHour(s: string): Option<(int, nat)>
  {
    if |s| >= 2 && s[0] == '2' && '0' <= s[1] <= '3' then Some((20 + DigitValue(s[1]), 2))
    else if |s| >= 2 && '0' <= s[0] <= '1' && IsDigit(s[1]) then Some((10 * DigitValue(s[0]) + DigitValue(s[1]), 2))
    else if |s| >= 1 && IsDigit(s[0]) then Some((DigitValue(s[0]), 1))
    else None
  }

  /** The `%M` directive, `[0-5]\d|\d`. */
  function MatchMinute(s: string): Option<(int, nat)>
  {
    if |s| >= 2 && '0' <= s[0] <= '5' && IsDigit(s[1]) then Some((10 * DigitValue(s[0]) + DigitValue(s[1]), 2))
    else if |s| >= 1 && IsDigit(s[0]) then Some((DigitValue(s[0]), 1))
    else None
  }

  /** `datetime.strptime(s, '%H:%M').time()`. */
  function ParseClockTime(s: string): (r: Option<ClockTime>)
    ensures r.Some? ==> ValidClockTime(r.value) && r.value.second == 0
  {
    var hour := MatchHour(s);
    if hour.None? || |s| <= hour.value.1 || s[hour.value.1] != ':' then None
    else
      var tail := s[hour.value.1 + 1..];
      var minute := MatchMinute(tail);
      if minute.None? || minute.value.1 != |tail| then None
      else Some(ClockTime(hour.value.0, minute.value.0, 0))
  }

  /** Every `HH:MM` with a real hour and minute parses to itself. */
  lemma ClockTimeRoundTrip(h: int, m: int)
    requires 0 <= h < 24 && 0 <= m < 60
    ensures ParseClockTime(Pad2(h) + ":" + Pad2(m)) == Some(ClockTime(h, m, 0))
  {
    var s := Pad2(h) + ":" + Pad2(m);
    assert MatchHour(s) == Some((h, 2));
    assert s[3..] == Pad2(m);
  }
}
