/** Proleptic Gregorian dates and naive datetimes in the range Python's
    datetime module allows (years 1 to 9999), the conversion between a date
    and its day number counted from 1970-01-01, and the two text forms the
    scrapers use: strftime("%Y-%m-%dT%H:%M:%S.%fZ") and
    strptime(s, "%Y-%m-%d"). */
module Calendar {
  import opened Digits
  import opened Python

  predicate IsLeapYear(y: int)
  {
    y % 4 == 0 && (y % 100 != 0 || y % 400 == 0)
  }

  function DaysInYear(y: int): nat
  {
    if IsLeapYear(y) then 366 else 365
  }

  function DaysInMonth(y: int, m: int): nat
    requires 1 <= m <= 12
  {
    if m == 2 then (if IsLeapYear(y) then 29 else 28)
    else if m == 4 || m == 6 || m == 9 || m == 11 then 30
    else 31
  }

  /** Days of year y that precede the first of month m (m == 13: the whole year). */
  function DaysBeforeMonth(y: int, m: int): nat
    requires 1 <= m <= 13
  {
    [0, 31, 59, 90, 120, 151, 181, 212, 243, 273, 304, 334, 365][m - 1]
      + (if m > 2 && IsLeapYear(y) then 1 else 0)
  }

  lemma MonthLength(y: int, m: int)
    requires 1 <= m <= 12
    ensures DaysBeforeMonth(y, m + 1) == DaysBeforeMonth(y, m) + DaysInMonth(y, m)
    ensures DaysBeforeMonth(y, 1) == 0 && DaysBeforeMonth(y, 13) == DaysInYear(y)
  {
  }

  datatype Date = Date(year: int, month: int, day: int) {
    /** A value datetime.date can hold: MINYEAR is 1 and MAXYEAR is 9999. */
    predicate Valid()
    {
      1 <= year <= 9999 && 1 <= month <= 12 && 1 <= day <= DaysInMonth(year, month)
    }
  }

  /** Leap years among 1..y, for y >= 0. */
  function LeapYearsThrough(y: int): int
  {
    y / 4 - y / 100 + y / 400
  }

  /** Days from 1970-01-01 to January 1 of year y (negative before 1970);
      477 leap years fall in 1..1969. */
  function DaysBeforeYear(y: int): int
  {
    365 * (y - 1970) + LeapYearsThrough(y - 1) - 477
  }

  lemma DivStep(y: int, k: int)
    requires k == 4 || k == 100 || k == 400
    ensures y / k - (y - 1) / k == if y % k == 0 then 1 else 0
  {
    var q, r := y / k, y % k;
    assert y == k * q + r && 0 <= r < k;
    if r == 0 {
      assert y - 1 == k * (q - 1) + (k - 1);
    } else {
      assert y - 1 == k * q + (r - 1);
    }
  }

  lemma {:induction false} YearLength(y: int)
    ensures DaysBeforeYear(y + 1) == DaysBeforeYear(y) + DaysInYear(y)
  {
    DivStep(y, 4);
    DivStep(y, 100);
    DivStep(y, 400);
    if y % 100 == 0 {
      assert y == 4 * (25 * (y / 100));
    }
    if y % 400 == 0 {
      assert y == 100 * (4 * (y / 400));
    }
  }

  lemma {:induction false} DaysBeforeYearMonotone(a: int, b: int)
    requires a <= b
    ensures DaysBeforeYear(a) + 365 * (b - a) <= DaysBeforeYear(b)
    decreases b - a
  {
    if a < b {
      DaysBeforeYearMonotone(a, b - 1);
      YearLength(b - 1);
    }
  }

  /** Day numbers of 0001-01-01 and 9999-12-31. */
  const MinDay: int := -719162
  const MaxDay: int := 2932896

  lemma DayRange()
    ensures DaysBeforeYear(1) == MinDay && DaysBeforeYear(10000) == MaxDay + 1
  {
  }

  /** The number of days from 1970-01-01 to d. */
  function DaysFromCivil(d: Date): (z: int)
    requires d.Valid()
    ensures MinDay <= z <= MaxDay
  {
    DaysBeforeYearMonotone(1, d.year);
    DaysBeforeYearMonotone(d.year + 1, 10000);
    YearLength(d.year);
    MonthLength(d.year, d.month);
    DayRange();
    DaysBeforeYear(d.year) + DaysBeforeMonth(d.year, d.month) + d.day - 1
  }

  /** The year, searched downwards from y, whose days contain day number z. */
  function YearOf(z: int, y: int): (r: int)
    requires 1 <= y && DaysBeforeYear(1) <= z < DaysBeforeYear(y + 1)
    ensures 1 <= r <= y && DaysBeforeYear(r) <= z < DaysBeforeYear(r + 1)
    decreases y
  {
    if DaysBeforeYear(y) <= z then y else YearOf(z, y - 1)
  }

  /** The month, searched downwards from m, that contains day doy (0-based) of year y. */
  function MonthOf(y: int, doy: int, m: int): (r: int)
    requires 1 <= m <= 12 && 0 <= doy < DaysBeforeMonth(y, m + 1)
    ensures 1 <= r <= m && DaysBeforeMonth(y, r) <= doy < DaysBeforeMonth(y, r + 1)
    decreases m
  {
    if DaysBeforeMonth(y, m) <= doy then m else MonthOf(y, doy, m - 1)
  }

  /** The date whose day number is z: the inverse of DaysFromCivil. */
  function CivilFromDays(z: int): (d: Date)
    requires MinDay <= z <= MaxDay
    ensures d.Valid() && DaysFromCivil(d) == z
  {
    DayRange();
    var y := YearOf(z, 9999);
    YearLength(y);
    var doy := z - DaysBeforeYear(y);
    MonthLength(y, 12);
    var m := MonthOf(y, doy, 12);
    MonthLength(y, m);
    Date(y, m, doy - DaysBeforeMonth(y, m) + 1)
  }

  lemma {:induction false} YearOfUnique(z: int, y: int, y0: int)
    requires 1 <= y0 <= y && DaysBeforeYear(1) <= z < DaysBeforeYear(y + 1)
    requires DaysBeforeYear(y0) <= z < DaysBeforeYear(y0 + 1)
    ensures YearOf(z, y) == y0
    decreases y
  {
    hide DaysBeforeYear;
    if y > y0 {
      DaysBeforeYearMonotone(y0 + 1, y);
      var prev := y - 1;
      assert prev + 1 == y;
      assert z < DaysBeforeYear(prev + 1);
      YearOfUnique(z, prev, y0);
    }
  }

  lemma {:induction false} MonthOfUnique(y: int, doy: int, m: int, m0: int)
    requires 1 <= m0 <= m <= 12
    requires DaysBeforeMonth(y, m0) <= doy < DaysBeforeMonth(y, m0 + 1)
    ensures MonthOf(y, doy, m) == m0
    decreases m
  {
    if m > m0 {
      MonthLength(y, m0);
      assert DaysBeforeMonth(y, m0 + 1) <= DaysBeforeMonth(y, m);
      MonthOfUnique(y, doy, m - 1, m0);
    }
  }

  /** Day numbering is a bijection between valid dates and MinDay..MaxDay:
      converting a date to its day number and back gives the date again. */
  lemma {:induction false} CivilRoundTrip(d: Date)
    requires d.Valid()
    ensures CivilFromDays(DaysFromCivil(d)) == d
  {
    var z := DaysFromCivil(d);
    DayRange();
    MonthLength(d.year, d.month);
    YearLength(d.year);
    DaysBeforeYearMonotone(1, d.year);
    DaysBeforeYearMonotone(d.year + 1, 10000);
    YearOfUnique(z, 9999, d.year);
    MonthLength(d.year, 12);
    MonthOfUnique(d.year, z - DaysBeforeYear(d.year), 12, d.month);
  }

  /** The epoch is day 0, 2022-01-01 is day 18993, and the first and last
      days Python's datetime can represent are MinDay and MaxDay. */
  lemma DayNumberExamples()
    ensures DaysFromCivil(Date(1970, 1, 1)) == 0
    ensures DaysFromCivil(Date(2022, 1, 1)) == 18993
    ensures DaysFromCivil(Date(1, 1, 1)) == MinDay
    ensures DaysFromCivil(Date(9999, 12, 31)) == MaxDay
  {
    assert LeapYearsThrough(1969) == 492 - 19 + 4;
    assert LeapYearsThrough(2021) == 505 - 20 + 5;
    DayRange();
    YearLength(9999);
    MonthLength(9999, 12);
  }

  // ---------------------------------------------------------------------
  // Naive datetimes

  const MicrosPerSecond: int := 1_000_000
  const MicrosPerDay: int := 86_400_000_000

  /** A naive datetime.datetime, as the number of microseconds since
      1970-01-01T00:00:00; the bounds are 0001-01-01T00:00:00 and
      9999-12-31T23:59:59.999999. */
  type Instant = t: int | MinDay * MicrosPerDay <= t <= (MaxDay + 1) * MicrosPerDay - 1
    witness 0

  /** datetime.combine(d, datetime.min.time()): midnight at the start of d. */
  function Midnight(d: Date): Instant
    requires d.Valid()
  {
    DaysFromCivil(d) * MicrosPerDay
  }

  /** dt - timedelta(seconds=s): OverflowError when the result leaves the
      range of datetime. */
  function SubtractSeconds(t: Instant, s: int): (r: Result<Instant>)
    ensures r.Ok? <==> MinDay * MicrosPerDay <= t - s * MicrosPerSecond <= (MaxDay + 1) * MicrosPerDay - 1
    ensures r.Ok? ==> r.value == t - s * MicrosPerSecond
    ensures r.Err? ==> r.error == OverflowError
  {
    var u := t - s * MicrosPerSecond;
    if MinDay * MicrosPerDay <= u <= (MaxDay + 1) * MicrosPerDay - 1 then Ok(u) else Err(OverflowError)
  }

  /** The broken-down fields of a datetime. */
  datatype Fields = Fields(date: Date, hour: nat, minute: nat, second: nat, micro: nat) {
    predicate Valid()
    {
      date.Valid() && hour < 24 && minute < 60 && second < 60 && micro < 1_000_000
    }
  }

  function ToFields(t: Instant): (f: Fields)
    ensures f.Valid()
  {
    var us := t % MicrosPerDay;
    Fields(CivilFromDays(t / MicrosPerDay), us / 3_600_000_000, us / 60_000_000 % 60,
           us / 1_000_000 % 60, us % 1_000_000)
  }

  function FromFields(f: Fields): Instant
    requires f.Valid()
  {
    Midnight(f.date) + ((f.hour * 60 + f.minute) * 60 + f.second) * MicrosPerSecond + f.micro
  }

  lemma MulAtLeast(d: int, k: int)
    requires d >= 1 && k > 0
    ensures d * k >= k
  {
  }

  lemma DivModUnique(a: int, k: int, q: int, r: int)
    requires 0 < k && 0 <= r < k && a == q * k + r
    ensures a / k == q && a % k == r
  {
    var p, m := a / k, a % k;
    assert a == p * k + m && 0 <= m < k;
    assert (q - p) * k == q * k - p * k;
    if q > p {
      MulAtLeast(q - p, k);
    } else if q < p {
      MulAtLeast(p - q, k);
    }
  }

  /** Splitting a time of day into hours, minutes, seconds and microseconds. */
  lemma TimeOfDay(h: nat, m: nat, s: nat, u: nat)
    requires h < 24 && m < 60 && s < 60 && u < 1_000_000
    ensures var us := ((h * 60 + m) * 60 + s) * MicrosPerSecond + u;
      0 <= us < MicrosPerDay && us / 3_600_000_000 == h && us / 60_000_000 % 60 == m
      && us / 1_000_000 % 60 == s && us % 1_000_000 == u
  {
    var us := ((h * 60 + m) * 60 + s) * MicrosPerSecond + u;
    DivModUnique(us, 1_000_000, (h * 60 + m) * 60 + s, u);
    DivModUnique(us, 60_000_000, h * 60 + m, s * 1_000_000 + u);
    DivModUnique(us, 3_600_000_000, h, (m * 60 + s) * 1_000_000 + u);
    DivModUnique((h * 60 + m) * 60 + s, 60, h * 60 + m, s);
    DivModUnique(h * 60 + m, 60, h, m);
  }

  lemma FieldsRoundTrip(t: Instant)
    ensures FromFields(ToFields(t)) == t
  {
    var us := t % MicrosPerDay;
    var h, m, s, u := us / 3_600_000_000, us / 60_000_000 % 60, us / 1_000_000 % 60, us % 1_000_000;
    assert us == ((h * 60 + m) * 60 + s) * MicrosPerSecond + u;
  }

  lemma {:induction false} ToFieldsRoundTrip(f: Fields)
    requires f.Valid()
    ensures ToFields(FromFields(f)) == f
  {
    hide DaysBeforeYear, DaysBeforeMonth, CivilFromDays;
    var t := FromFields(f);
    var us := ((f.hour * 60 + f.minute) * 60 + f.second) * MicrosPerSecond + f.micro;
    TimeOfDay(f.hour, f.minute, f.second, f.micro);
    DivModUnique(t, MicrosPerDay, DaysFromCivil(f.date), us);
    CivilRoundTrip(f.date);
  }

  /** The fields laid out as %Y-%m-%dT%H:%M:%S.%fZ. The year is written
      with four digits. */
  function Layout(f: Fields): (s: string)
    requires f.Valid()
    ensures |s| == 27
  {
    Fixed(f.date.year, 4) + "-" + Fixed(f.date.month, 2) + "-" + Fixed(f.date.day, 2) + "T"
      + Fixed(f.hour, 2) + ":" + Fixed(f.minute, 2) + ":" + Fixed(f.second, 2) + "."
      + Fixed(f.micro, 6) + "Z"
  }

  /** dt.replace(tzinfo=timezone.utc).strftime("%Y-%m-%dT%H:%M:%S.%fZ"):
      an RFC 3339 section 5.6 date-time with six fractional digits, in UTC. */
  function Strftime(t: Instant): (s: string)
    ensures |s| == 27
  {
    Layout(ToFields(t))
  }

  /** Reads back a string in the layout Strftime writes. */
  function ParseTimestamp(s: string): (r: Option<Instant>)
  {
    if |s| == 27 && s[4] == '-' && s[7] == '-' && s[10] == 'T' && s[13] == ':' && s[16] == ':'
       && s[19] == '.' && s[26] == 'Z'
       && AllDigits(s[0..4]) && AllDigits(s[5..7]) && AllDigits(s[8..10]) && AllDigits(s[11..13])
       && AllDigits(s[14..16]) && AllDigits(s[17..19]) && AllDigits(s[20..26])
    then
      var f := Fields(Date(DigitsValue(s[0..4]), DigitsValue(s[5..7]), DigitsValue(s[8..10])),
                      DigitsValue(s[11..13]), DigitsValue(s[14..16]), DigitsValue(s[17..19]),
                      DigitsValue(s[20..26]));
      if f.Valid() then Some(FromFields(f)) else None
    else None
  }

  lemma LayoutSlices(f: Fields)
    requires f.Valid()
    ensures var s := Layout(f);
      s[0..4] == Fixed(f.date.year, 4) && s[4] == '-' && s[5..7] == Fixed(f.date.month, 2)
      && s[7] == '-' && s[8..10] == Fixed(f.date.day, 2) && s[10] == 'T'
      && s[11..13] == Fixed(f.hour, 2) && s[13] == ':' && s[14..16] == Fixed(f.minute, 2)
      && s[16] == ':' && s[17..19] == Fixed(f.second, 2) && s[19] == '.'
      && s[20..26] == Fixed(f.micro, 6) && s[26] == 'Z'
  {
  }

  /** The rendering loses nothing: the instant can be read back from the
      text, which has the separators of the layout in place. */
  lemma {:induction false} StrftimeRoundTrip(t: Instant)
    ensures ParseTimestamp(Strftime(t)) == Some(t)
    ensures var s := Strftime(t);
      s[4] == '-' && s[7] == '-' && s[10] == 'T' && s[13] == ':' && s[16] == ':' && s[19] == '.' && s[26] == 'Z'
  {
    var f := ToFields(t);
    LayoutSlices(f);
    FixedDigits(f.date.year, 4);
    FixedDigits(f.date.month, 2);
    FixedDigits(f.date.day, 2);
    FixedDigits(f.hour, 2);
    FixedDigits(f.minute, 2);
    FixedDigits(f.second, 2);
    FixedDigits(f.micro, 6);
    FieldsRoundTrip(t);
  }

  // ---------------------------------------------------------------------
  // datetime.strptime(s, "%Y-%m-%d")

  /** Length of the text the %m pattern `1[0-2]|0[1-9]|[1-9]` takes from the
      front of s; 0 when it does not match. */
  function MonthMatch(s: string): (n: nat)
    ensures n <= 2 && n <= |s| && AllDigits(s[..n])
  {
    if |s| >= 2 && s[0] == '1' && '0' <= s[1] <= '2' then 2
    else if |s| >= 2 && s[0] == '0' && '1' <= s[1] <= '9' then 2
    else if |s| >= 1 && '1' <= s[0] <= '9' then 1
    else 0
  }

  /** Length of the text the %d pattern `3[01]|[12]\d|0[1-9]|[1-9]| [1-9]`
      takes from the front of s; 0 when it does not match. */
  function DayMatch(s: string): (n: nat)
    ensures n <= 2 && n <= |s|
    ensures n > 0 ==> IsDigit(s[n - 1]) && (n == 2 ==> IsDigit(s[0]) || s[0] == ' ')
  {
    if |s| >= 2 && s[0] == '3' && (s[1] == '0' || s[1] == '1') then 2
    else if |s| >= 2 && (s[0] == '1' || s[0] == '2') && IsDigit(s[1]) then 2
    else if |s| >= 2 && s[0] == '0' && '1' <= s[1] <= '9' then 2
    else if |s| >= 1 && '1' <= s[0] <= '9' then 1
    else if |s| >= 2 && s[0] == ' ' && '1' <= s[1] <= '9' then 2
    else 0
  }

  /** int() of the day text DayMatch accepted (int(" 7") is 7). */
  function DayValue(s: string): nat
    requires 1 <= |s| <= 2 && IsDigit(s[|s| - 1]) && (|s| == 2 ==> IsDigit(s[0]) || s[0] == ' ')
  {
    if |s| == 2 && s[0] == ' ' then DigitValue(s[1]) else DigitsValue(s)
  }

  /** datetime.strptime(s, "%Y-%m-%d"): the pattern must match from the
      start and consume the whole text, and the numbers must name a real
      date; otherwise ValueError. */
  function Strptime(s: string): (r: Result<Date>)
    ensures r.Ok? ==> r.value.Valid()
    ensures r.Err? ==> r.error == ValueError
  {
    if |s| < 5 || !AllDigits(s[..4]) || s[4] != '-' then Err(ValueError)
    else
      var mlen := MonthMatch(s[5..]);
      if mlen == 0 || |s| < 6 + mlen || s[5 + mlen] != '-' then Err(ValueError)
      else
        var rest := s[6 + mlen..];
        var dlen := DayMatch(rest);
        if dlen == 0 || dlen != |rest| then Err(ValueError)
        else
          assert s[5..][..mlen] == s[5..5 + mlen];
          var d := Date(DigitsValue(s[..4]), DigitsValue(s[5..5 + mlen]), DayValue(rest));
          if d.Valid() then Ok(d) else Err(ValueError)
  }

  /** date.isoformat(): YYYY-MM-DD with zero padding. */
  function IsoDate(d: Date): (s: string)
    requires d.Valid()
    ensures |s| == 10
  {
    Fixed(d.year, 4) + "-" + Fixed(d.month, 2) + "-" + Fixed(d.day, 2)
  }

  /** Every valid date written as YYYY-MM-DD is read back by strptime as itself. */
  lemma {:induction false} StrptimeIsoDate(d: Date)
    requires d.Valid()
    ensures Strptime(IsoDate(d)) == Ok(d)
  {
    hide DigitsValue;
    var s := IsoDate(d);
    var y, m, dd := Fixed(d.year, 4), Fixed(d.month, 2), Fixed(d.day, 2);
    FixedDigits(d.year, 4);
    FixedDigits(d.month, 2);
    FixedDigits(d.day, 2);
    assert s[..4] == y && s[4] == '-' && s[5..7] == m && s[7] == '-' && s[8..] == dd;
    assert s[5..][..2] == m;
    assert MonthMatch(s[5..]) == 2;
    assert DayMatch(s[8..]) == 2;
  }
}
