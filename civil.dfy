/**
 * Naive civil time: the proleptic Gregorian calendar of Python's `datetime`
 * (years 1 to 9999) and its correspondence with a count of seconds.
 *
 * The parser turns timestamps into seconds with `datetime.timestamp()` and
 * back with `datetime.fromtimestamp()`. Here both are taken in a zone with no
 * offset and no daylight saving, so the count is seconds since
 * 1970-01-01 00:00:00 of the same naive clock.
 */
module Civil {
  import opened Wrappers

  datatype Stamp = Stamp(year: int, month: int, day: int, hour: int, minute: int, second: int)

  const MaxYear: int := 9999
  /** Day number (1 = 0001-01-01) of 1970-01-01, as `date.toordinal()` gives it. */
  const EpochOrdinal: int := 719163
  /** Day number of 9999-12-31, the last day `datetime` represents. */
  const MaxOrdinal: int := 3652059
  /** Seconds of 0001-01-01 00:00:00 and of 9999-12-31 23:59:59 on the naive clock. */
  const MinSeconds: int := -62135596800
  const MaxSeconds: int := 253402300799

  predicate IsLeap(y: int) {
    y % 4 == 0 && (y % 100 != 0 || y % 400 == 0)
  }

  function YearLength(y: int): int {
    if IsLeap(y) then 366 else 365
  }

  function DaysInMonth(y: int, m: int): int
    requires 1 <= m <= 12
  {
    if m == 2 then (if IsLeap(y) then 29 else 28)
    else if m == 4 || m == 6 || m == 9 || m == 11 then 30
    else 31
  }

  /** Days of year `y` before the first of month `m`; month 13 stands for the next year. */
  function DaysBeforeMonth(y: int, m: int): int
    requires 1 <= m <= 13
  {
    var common :=
      match m
      case 1 => 0 case 2 => 31 case 3 => 59 case 4 => 90 case 5 => 120 case 6 => 151
      case 7 => 181 case 8 => 212 case 9 => 243 case 10 => 273 case 11 => 304 case 12 => 334
      case _ => 365;
    common + (if IsLeap(y) && m > 2 then 1 else 0)
  }

  /** Days from 0001-01-01 to the first of year `y`. */
  function DaysBeforeYear(y: int): int
    requires y >= 1
  {
    var p := y - 1;
    365 * p + p / 4 - p / 100 + p / 400
  }

  /** Day number of a date, 0001-01-01 being day 1 (`date.toordinal()`). */
  function Ordinal(y: int, m: int, d: int): int
    requires y >= 1 && 1 <= m <= 12
  {
    DaysBeforeYear(y) + DaysBeforeMonth(y, m) + d
  }

  predicate ValidStamp(s: Stamp) {
    && 1 <= s.year <= MaxYear
    && 1 <= s.month <= 12
    && 1 <= s.day <= DaysInMonth(s.year, s.month)
    && 0 <= s.hour < 24 && 0 <= s.minute < 60 && 0 <= s.second < 60
  }

  /** Seconds since 1970-01-01 00:00:00 of the naive clock. */
  function NaiveSeconds(s: Stamp): int
    requires ValidStamp(s)
  {
    (Ordinal(s.year, s.month, s.day) - EpochOrdinal) * 86400
      + s.hour * 3600 + s.minute * 60 + s.second
  }

  lemma MonthStep(y: int, m: int)
    requires 1 <= m <= 12
    ensures DaysBeforeMonth(y, m + 1) == DaysBeforeMonth(y, m) + DaysInMonth(y, m)
  {
  }

  lemma MonthsFillYear(y: int)
    ensures DaysBeforeMonth(y, 13) == YearLength(y)
  {
  }

  lemma MonthMono(y: int, a: int, b: int)
    requires 1 <= a <= b <= 13
    ensures DaysBeforeMonth(y, a) <= DaysBeforeMonth(y, b)
  {
  }

  lemma YearStep(y: int)
    requires y >= 1
    ensures DaysBeforeYear(y + 1) == DaysBeforeYear(y) + YearLength(y)
  {
    LeapCountStep(y);
  }

  /** Each of the leap-year counters grows by one exactly at a multiple of its period. */
  lemma LeapCountStep(y: int)
    ensures y / 4 - (y - 1) / 4 == (if y % 4 == 0 then 1 else 0)
    ensures y / 100 - (y - 1) / 100 == (if y % 100 == 0 then 1 else 0)
    ensures y / 400 - (y - 1) / 400 == (if y % 400 == 0 then 1 else 0)
  {
    assert y - 1 == 4 * ((y - 1) / 4) + (y - 1) % 4;
    assert y - 1 == 100 * ((y - 1) / 100) + (y - 1) % 100;
    assert y - 1 == 400 * ((y - 1) / 400) + (y - 1) % 400;
  }

  /** Later years start later: the first day of year b is at least the first day after year a. */
  lemma {:induction false} YearMono(a: int, b: int)
    requires 1 <= a < b
    ensures DaysBeforeYear(a + 1) <= DaysBeforeYear(b)
  {
    if a + 1 < b {
      YearMono(a, b - 1);
      YearStep(b - 1);
    }
  }

  /** The year whose days hold day number `n`, searched upwards from `y`. */
  function FindYear(n: int, y: int): (r: int)
    requires 1 <= y && DaysBeforeYear(y) < n
    ensures y <= r && DaysBeforeYear(r) < n <= DaysBeforeYear(r + 1)
    decreases n - DaysBeforeYear(y)
  {
    YearStep(y);
    if n <= DaysBeforeYear(y + 1) then y else FindYear(n, y + 1)
  }

  /** The month of year `y` holding its `doy`-th day, searched upwards from `m`. */
  function FindMonth(y: int, doy: int, m: int): (r: int)
    requires 1 <= m <= 12 && DaysBeforeMonth(y, m) < doy <= YearLength(y)
    ensures m <= r <= 12 && DaysBeforeMonth(y, r) < doy <= DaysBeforeMonth(y, r + 1)
    decreases 12 - m
  {
    if m == 12 || doy <= DaysBeforeMonth(y, m + 1) then m else FindMonth(y, doy, m + 1)
  }

  /** The reading `tod` seconds into day number `n`. */
  function StampOf(n: int, tod: int): Stamp
    requires 1 <= n
  {
    var y := FindYear(n, 1);
    YearStep(y);
    var doy := n - DaysBeforeYear(y);
    var m := FindMonth(y, doy, 1);
    Stamp(y, m, doy - DaysBeforeMonth(y, m), tod / 3600, tod % 3600 / 60, tod % 60)
  }

  /** The date `StampOf` gives a day number in range is a valid date with that day number. */
  lemma StampOfDay(n: int, tod: int)
    requires 1 <= n <= MaxOrdinal
    ensures var s := StampOf(n, tod);
      && 1 <= s.year <= MaxYear && 1 <= s.month <= 12 && 1 <= s.day <= DaysInMonth(s.year, s.month)
      && Ordinal(s.year, s.month, s.day) == n
  {
    var y := FindYear(n, 1);
    assert DaysBeforeYear(MaxYear + 1) == MaxOrdinal;
    if y > MaxYear {
      YearMono(MaxYear, y);
    }
    YearStep(y);
    var m := FindMonth(y, n - DaysBeforeYear(y), 1);
    MonthStep(y, m);
  }

  /** The time of day `StampOf` gives is a valid one making up `tod` seconds. */
  lemma StampOfTime(n: int, tod: int)
    requires 1 <= n && 0 <= tod < 86400
    ensures var s := StampOf(n, tod);
      && 0 <= s.hour < 24 && 0 <= s.minute < 60 && 0 <= s.second < 60
      && s.hour * 3600 + s.minute * 60 + s.second == tod
  {
  }

  /**
   * The naive clock reading `t` seconds after 1970-01-01 00:00:00, or None
   * when it falls outside years 1 to 9999 (where `fromtimestamp` fails).
   * Every reading it produces is a valid clock reading denoting exactly `t`.
   */
  function FromNaiveSeconds(t: int): (r: Option<Stamp>)
    ensures r.Some? <==> MinSeconds <= t <= MaxSeconds
    ensures r.Some? ==> ValidStamp(r.value) && NaiveSeconds(r.value) == t
  {
    var n := t / 86400 + EpochOrdinal;
    if n < 1 || n > MaxOrdinal then None
    else
      var tod := t % 86400;
      StampOfDay(n, tod);
      StampOfTime(n, tod);
      assert t == (n - EpochOrdinal) * 86400 + tod;
      Some(StampOf(n, tod))
  }

  lemma SplitSeconds(days: int, tod: int)
    requires 0 <= tod < 86400
    ensures (days * 86400 + tod) / 86400 == days
    ensures (days * 86400 + tod) % 86400 == tod
  {
  }

  lemma SplitTimeOfDay(h: int, mi: int, se: int)
    requires 0 <= h < 24 && 0 <= mi < 60 && 0 <= se < 60
    ensures var tod := h * 3600 + mi * 60 + se;
      0 <= tod < 86400 && tod / 3600 == h && tod % 3600 / 60 == mi && tod % 60 == se
  {
  }

  /** A day number falls in exactly one year. */
  lemma FindYearUnique(n: int, y: int)
    requires 1 <= y && DaysBeforeYear(y) < n <= DaysBeforeYear(y + 1)
    ensures FindYear(n, 1) == y
  {
    var r := FindYear(n, 1);
    if r < y {
      YearMono(r, y);
    } else if r > y {
      YearMono(y, r);
    }
  }

  /** A day of the year falls in exactly one month. */
  lemma FindMonthUnique(y: int, doy: int, m: int)
    requires 1 <= m <= 12 && DaysBeforeMonth(y, m) < doy <= DaysBeforeMonth(y, m + 1)
    ensures FindMonth(y, doy, 1) == m
  {
    MonthMono(y, m + 1, 13);
    MonthsFillYear(y);
    var r := FindMonth(y, doy, 1);
    if r < m {
      MonthMono(y, r + 1, m);
    } else if r > m {
      MonthMono(y, m + 1, r);
    }
  }

  /** The day number of a valid date lies within its year and within the range `datetime` supports. */
  lemma OrdinalInYear(y: int, m: int, d: int)
    requires 1 <= y <= MaxYear && 1 <= m <= 12 && 1 <= d <= DaysInMonth(y, m)
    ensures DaysBeforeYear(y) < Ordinal(y, m, d) <= DaysBeforeYear(y + 1)
    ensures 1 <= Ordinal(y, m, d) <= MaxOrdinal
  {
    MonthStep(y, m);
    MonthMono(y, m + 1, 13);
    MonthsFillYear(y);
    YearStep(y);
    if y < MaxYear {
      YearMono(y, MaxYear + 1);
    }
    assert DaysBeforeYear(MaxYear + 1) == MaxOrdinal;
  }

  /** The date and time of day of a valid reading are recovered from its day number and second of the day. */
  lemma StampOfReading(s: Stamp)
    requires ValidStamp(s)
    ensures StampOf(Ordinal(s.year, s.month, s.day), s.hour * 3600 + s.minute * 60 + s.second) == s
  {
    var tod := s.hour * 3600 + s.minute * 60 + s.second;
    SplitTimeOfDay(s.hour, s.minute, s.second);
    StampOfDate(s.year, s.month, s.day, tod);
  }

  /** The day number of a valid date leads `StampOf` back to that date. */
  lemma StampOfDate(y: int, m: int, d: int, tod: int)
    requires 1 <= y <= MaxYear && 1 <= m <= 12 && 1 <= d <= DaysInMonth(y, m)
    ensures var r := StampOf(Ordinal(y, m, d), tod); r.year == y && r.month == m && r.day == d
  {
    var ord := Ordinal(y, m, d);
    OrdinalInYear(y, m, d);
    FindYearUnique(ord, y);
    var doy := ord - DaysBeforeYear(y);
    assert doy == DaysBeforeMonth(y, m) + d;
    MonthStep(y, m);
    FindMonthUnique(y, doy, m);
  }

  /** Converting a valid reading to seconds and back gives the reading again. */
  lemma NaiveSecondsRoundTrip(s: Stamp)
    requires ValidStamp(s)
    ensures FromNaiveSeconds(NaiveSeconds(s)) == Some(s)
  {
    var ord := Ordinal(s.year, s.month, s.day);
    var tod := s.hour * 3600 + s.minute * 60 + s.second;
    var t := NaiveSeconds(s);
    assert t == (ord - EpochOrdinal) * 86400 + tod;
    SplitTimeOfDay(s.hour, s.minute, s.second);
    SplitSeconds(ord - EpochOrdinal, tod);
    assert t / 86400 + EpochOrdinal == ord;
    OrdinalInYear(s.year, s.month, s.day);
    assert FromNaiveSeconds(t) == Some(StampOf(ord, tod));
    StampOfReading(s);
  }

  /** Two valid readings denoting the same second are the same reading. */
  lemma NaiveSecondsInjective(a: Stamp, b: Stamp)
    requires ValidStamp(a) && ValidStamp(b) && NaiveSeconds(a) == NaiveSeconds(b)
    ensures a == b
  {
    NaiveSecondsRoundTrip(a);
    NaiveSecondsRoundTrip(b);
  }

  /** Chronological order of clock readings: field by field, most significant first. */
  predicate Earlier(a: Stamp, b: Stamp) {
    || a.year < b.year
    || (a.year == b.year && a.month < b.month)
    || (a.year == b.year && a.month == b.month && a.day < b.day)
    || (a.year == b.year && a.month == b.month && a.day == b.day && a.hour < b.hour)
    || (a.year == b.year && a.month == b.month && a.day == b.day && a.hour == b.hour && a.minute < b.minute)
    || (a.year == b.year && a.month == b.month && a.day == b.day && a.hour == b.hour && a.minute == b.minute
        && a.second < b.second)
  }

  /** An earlier date has a smaller day number. */
  lemma OrdinalOrder(a: Stamp, b: Stamp)
    requires ValidStamp(a) && ValidStamp(b)
    requires a.year < b.year || (a.year == b.year && (a.month < b.month || (a.month == b.month && a.day < b.day)))
    ensures Ordinal(a.year, a.month, a.day) < Ordinal(b.year, b.month, b.day)
  {
    OrdinalInYear(a.year, a.month, a.day);
    OrdinalInYear(b.year, b.month, b.day);
    if a.year < b.year {
      YearMono(a.year, b.year);
    } else if a.month < b.month {
      MonthStep(a.year, a.month);
      MonthMono(a.year, a.month + 1, b.month);
    }
  }

  /** Seconds order clock readings chronologically, so comparing seconds compares readings. */
  lemma NaiveSecondsOrder(a: Stamp, b: Stamp)
    requires ValidStamp(a) && ValidStamp(b)
    ensures Earlier(a, b) <==> NaiveSeconds(a) < NaiveSeconds(b)
  {
    var oa, ob := Ordinal(a.year, a.month, a.day), Ordinal(b.year, b.month, b.day);
    SplitTimeOfDay(a.hour, a.minute, a.second);
    SplitTimeOfDay(b.hour, b.minute, b.second);
    if a.year < b.year || (a.year == b.year && (a.month < b.month || (a.month == b.month && a.day < b.day))) {
      OrdinalOrder(a, b);
    } else if b.year < a.year || (a.year == b.year && (b.month < a.month || (a.month == b.month && b.day < a.day))) {
      OrdinalOrder(b, a);
    } else {
      assert oa == ob;
    }
  }
}
