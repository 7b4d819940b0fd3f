/**
 * The Timestamp Normalizer: US dates rewritten as year/month/day, clock-drift
 * correction, comparable epoch seconds for the date-range filter, and the
 * epoch-fault (logger clock reset) classification.
 */
module Timestamps {
  import opened Wrappers
  import opened Text
  import opened Civil

  /**
   * `convert_date`: "mm/dd/yyyy" becomes "yyyy/mm/dd", each part read with
   * int() and zero-padded to 4, 2 and 2 characters. Text that does not split
   * into three '/'-separated parts gives the string "invalid"; None stands for
   * the ValueError int() raises on a part that is not an integer.
   */
  function ConvertDate(us: string): (r: Option<string>)
    ensures r == Some("invalid") <==> |SplitOn(us, '/')| != 3
  {
    var parts := SplitOn(us, '/');
    if |parts| != 3 then Some("invalid")
    else
      match (ParseInt(parts[2]), ParseInt(parts[0]), ParseInt(parts[1]))
      case (Some(y), Some(m), Some(d)) =>
        var iso := ZeroPad(y, 4) + "/" + ZeroPad(m, 2) + "/" + ZeroPad(d, 2);
        assert |iso| >= 10 > |"invalid"|;
        Some(iso)
      case _ => None
  }

  /** A date as the recorder prints it, "mm/dd/yyyy". */
  function UsDate(y: nat, m: nat, d: nat): string {
    Digits(m, 2) + "/" + Digits(d, 2) + "/" + Digits(y, 4)
  }

  /** A date as `convert_date` and `strftime("%Y/%m/%d")` write it. */
  function IsoDate(y: nat, m: nat, d: nat): string {
    Digits(y, 4) + "/" + Digits(m, 2) + "/" + Digits(d, 2)
  }

  lemma DigitsHaveNoSlash(s: string)
    requires AllDigits(s)
    ensures '/' !in s
  {
  }

  /** `convert_date` is the inverse of printing a date in US order. */
  lemma ConvertUsDate(y: nat, m: nat, d: nat)
    requires y < 10000 && m < 100 && d < 100
    ensures ConvertDate(UsDate(y, m, d)) == Some(IsoDate(y, m, d))
  {
    var a, b, c := Digits(m, 2), Digits(d, 2), Digits(y, 4);
    DigitsHaveNoSlash(a);
    DigitsHaveNoSlash(b);
    DigitsHaveNoSlash(c);
    assert UsDate(y, m, d) == a + ['/'] + (b + ['/'] + c);
    SplitOnCons(a, b + ['/'] + c, '/');
    SplitOnCons(b, c, '/');
    SplitOnFree(c, '/');
    assert SplitOn(UsDate(y, m, d), '/') == [a, b, c];
    assert Pow10(2) == 100 && Pow10(4) == 10000;
    ParseIntDigits(m, 2);
    ParseIntDigits(d, 2);
    ParseIntDigits(y, 4);
    ZeroPadDigits(y, 4);
    ZeroPadDigits(m, 2);
    ZeroPadDigits(d, 2);
  }

  function RenderDate(s: Stamp): string
    requires ValidStamp(s)
  {
    IsoDate(s.year, s.month, s.day)
  }

  function RenderTime(s: Stamp): string
    requires ValidStamp(s)
  {
    Digits(s.hour, 2) + ":" + Digits(s.minute, 2) + ":" + Digits(s.second, 2)
  }

  /** The "yyyy/mm/dd hh:mm:ss" text of a reading. */
  function Render(s: Stamp): string
    requires ValidStamp(s)
  {
    RenderDate(s) + " " + RenderTime(s)
  }

  /**
   * `datetime.strptime(ts, "%Y/%m/%d %H:%M:%S")` on zero-padded fields; None
   * where strptime raises ValueError (wrong shape or an impossible date or time).
   */
  function ParseTimestamp(ts: string): Option<Stamp> {
    if |ts| == 19 && ts[4] == '/' && ts[7] == '/' && ts[10] == ' ' && ts[13] == ':' && ts[16] == ':'
       && AllDigits(ts[0..4]) && AllDigits(ts[5..7]) && AllDigits(ts[8..10])
       && AllDigits(ts[11..13]) && AllDigits(ts[14..16]) && AllDigits(ts[17..19])
    then
      var s := Stamp(DigitsValue(ts[0..4]), DigitsValue(ts[5..7]), DigitsValue(ts[8..10]),
                     DigitsValue(ts[11..13]), DigitsValue(ts[14..16]), DigitsValue(ts[17..19]));
      if ValidStamp(s) then Some(s) else None
    else None
  }

  /** Parsing the text of a valid reading gives the reading back. */
  lemma ParseRender(s: Stamp)
    requires ValidStamp(s)
    ensures ParseTimestamp(Render(s)) == Some(s)
  {
    RenderFields(s);
    assert Pow10(2) == 100 && Pow10(4) == 10000;
    DigitsValueOf(s.year, 4);
    DigitsValueOf(s.month, 2);
    DigitsValueOf(s.day, 2);
    DigitsValueOf(s.hour, 2);
    DigitsValueOf(s.minute, 2);
    DigitsValueOf(s.second, 2);
  }

  /** Where each field of a reading sits in its text. */
  lemma RenderFields(s: Stamp)
    requires ValidStamp(s)
    ensures var ts := Render(s);
      && |ts| == 19 && ts[4] == '/' && ts[7] == '/' && ts[10] == ' ' && ts[13] == ':' && ts[16] == ':'
      && ts[0..4] == Digits(s.year, 4) && ts[5..7] == Digits(s.month, 2) && ts[8..10] == Digits(s.day, 2)
      && ts[11..13] == Digits(s.hour, 2) && ts[14..16] == Digits(s.minute, 2) && ts[17..19] == Digits(s.second, 2)
  {
    var ts := Render(s);
    assert ts[0..4] == Digits(s.year, 4) && ts[5..7] == Digits(s.month, 2) && ts[8..10] == Digits(s.day, 2);
    assert ts[11..13] == Digits(s.hour, 2) && ts[14..16] == Digits(s.minute, 2) && ts[17..19] == Digits(s.second, 2);
  }

  lemma TimestampPieces(ts: string)
    requires |ts| == 19
    ensures ts == ts[0..4] + [ts[4]] + ts[5..7] + [ts[7]] + ts[8..10] + [ts[10]]
                  + ts[11..13] + [ts[13]] + ts[14..16] + [ts[16]] + ts[17..19]
  {
  }

  /** Only the canonical text of a reading parses, so rendering what was parsed gives the same text. */
  lemma RenderParse(ts: string)
    requires ParseTimestamp(ts).Some?
    ensures Render(ParseTimestamp(ts).value) == ts
  {
    DigitsOfValue(ts[0..4]);
    DigitsOfValue(ts[5..7]);
    DigitsOfValue(ts[8..10]);
    DigitsOfValue(ts[11..13]);
    DigitsOfValue(ts[14..16]);
    DigitsOfValue(ts[17..19]);
    TimestampPieces(ts);
  }

  /**
   * Moves a reading by `offset` seconds on the naive time line; None where
   * the result falls outside years 1 to 9999 (Python's datetime raises).
   */
  function Shift(s: Stamp, offset: int): (r: Option<Stamp>)
    requires ValidStamp(s)
    ensures r.Some? ==> ValidStamp(r.value) && NaiveSeconds(r.value) == NaiveSeconds(s) + offset
  {
    FromNaiveSeconds(NaiveSeconds(s) + offset)
  }

  /** Shifting back by the same offset restores the reading. */
  lemma ShiftReversible(s: Stamp, k: int, m: Stamp)
    requires ValidStamp(s) && Shift(s, k) == Some(m)
    ensures Shift(m, -k) == Some(s)
  {
    NaiveSecondsRoundTrip(s);
    NaiveSecondsInjective(Shift(m, -k).value, s);
  }

  /**
   * `apply_time_adjustment`: read date and time as a naive reading, move it
   * by `offset` seconds, and write the result back as date and time. None
   * where strptime or fromtimestamp raises.
   */
  function ApplyTimeAdjustment(date: string, time: string, offset: int): (r: Option<(string, string)>)
    ensures r.Some? ==> ParseTimestamp(date + " " + time).Some?
  {
    match ParseTimestamp(date + " " + time)
    case None => None
    case Some(s) =>
      match Shift(s, offset)
      case None => None
      case Some(a) => Some((RenderDate(a), RenderTime(a)))
  }

  /** The date and time an adjustment writes are those of the reading `offset` seconds on. */
  lemma AdjustedReading(date: string, time: string, offset: int, date2: string, time2: string)
    requires ApplyTimeAdjustment(date, time, offset) == Some((date2, time2))
    ensures Shift(ParseTimestamp(date + " " + time).value, offset).Some?
    ensures ParseTimestamp(date2 + " " + time2) == Shift(ParseTimestamp(date + " " + time).value, offset)
  {
    var a := Shift(ParseTimestamp(date + " " + time).value, offset).value;
    assert date2 + " " + time2 == Render(a);
    ParseRender(a);
  }

  /** A date and time that parse are the rendering of the reading they parse to. */
  lemma ParsedParts(date: string, time: string)
    requires ParseTimestamp(date + " " + time).Some?
    ensures RenderDate(ParseTimestamp(date + " " + time).value) == date
    ensures RenderTime(ParseTimestamp(date + " " + time).value) == time
  {
    var ts := date + " " + time;
    var s := ParseTimestamp(ts).value;
    RenderParse(ts);
    assert ts[|date|] == ' ';
    assert |date| == 10;
    assert date == ts[..10] == RenderDate(s);
    assert time == ts[11..] == RenderTime(s);
  }

  /** A zero offset leaves a parseable date and time unchanged. */
  lemma AdjustByZero(date: string, time: string)
    requires ParseTimestamp(date + " " + time).Some?
    ensures ApplyTimeAdjustment(date, time, 0) == Some((date, time))
  {
    var s := ParseTimestamp(date + " " + time).value;
    ParsedParts(date, time);
    NaiveSecondsRoundTrip(s);
    assert NaiveSeconds(s) + 0 == NaiveSeconds(s);
  }

  /** Drift correction is reversible: adjusting by `k` and then by `-k` restores date and time. */
  lemma AdjustReversible(date: string, time: string, k: int, date2: string, time2: string)
    requires ApplyTimeAdjustment(date, time, k) == Some((date2, time2))
    ensures ApplyTimeAdjustment(date2, time2, -k) == Some((date, time))
  {
    var s := ParseTimestamp(date + " " + time).value;
    var m := Shift(s, k).value;
    AdjustedReading(date, time, k, date2, time2);
    ShiftReversible(s, k, m);
    ParsedParts(date, time);
  }

  /**
   * `get_epoch`: seconds of a "yyyy/mm/dd hh:mm:ss" text, or 0 without
   * parsing when date filtering is off. None where strptime raises.
   */
  function GetEpoch(filterDates: bool, ts: string): Option<int> {
    if !filterDates then Some(0)
    else
      match ParseTimestamp(ts)
      case None => None
      case Some(s) => Some(NaiveSeconds(s))
  }

  /** With filtering on, epoch seconds compare as the readings do chronologically. */
  lemma GetEpochOrder(ts1: string, ts2: string)
    requires GetEpoch(true, ts1).Some? && GetEpoch(true, ts2).Some?
    ensures GetEpoch(true, ts1).value < GetEpoch(true, ts2).value
        <==> Earlier(ParseTimestamp(ts1).value, ParseTimestamp(ts2).value)
  {
    NaiveSecondsOrder(ParseTimestamp(ts1).value, ParseTimestamp(ts2).value);
  }

  /** `check_for_epoch_year`: the decimal text of the epoch year occurs anywhere in the date. */
  predicate CheckForEpochYear(date: string, epochYear: int) {
    Contains(date, IntToString(epochYear))
  }

  lemma FourDigitYearText(y: int)
    requires 1000 <= y <= 9999
    ensures IntToString(y) == Digits(y, 4)
  {
    assert NatToString(y) == NatToString(y / 1000) + [DigitChar(y / 100 % 10)] + [DigitChar(y / 10 % 10)]
      + [DigitChar(y % 10)];
    assert |NatToString(y)| == 4;
    assert Pow10(4) == 10000;
    ZeroPadDigits(y, 4);
  }

  /**
   * For a four-digit epoch year, the substring test on a date written
   * "yyyy/mm/dd" classifies exactly the dates whose year is the epoch year.
   */
  lemma EpochYearIsYearField(s: Stamp, epochYear: int)
    requires ValidStamp(s) && 1000 <= epochYear <= 9999
    ensures CheckForEpochYear(RenderDate(s), epochYear) <==> s.year == epochYear
  {
    var date := RenderDate(s);
    var y := IntToString(epochYear);
    FourDigitYearText(epochYear);
    assert Pow10(4) == 10000;
    if s.year == epochYear {
      assert date[0..4] == y;
      ContainsAt(date, y, 0);
    }
    if CheckForEpochYear(date, epochYear) {
      var i := ContainsIndex(date, y);
      assert |date| == 10 && date[4] == '/' && date[7] == '/';
      // a window starting after the year would cover one of the slashes
      var k := if i == 0 then 0 else if i <= 4 then 4 - i else 7 - i;
      assert date[i..i + 4][k] == date[i + k];
      assert IsDigit(date[i + k]);
      assert i == 0;
      assert date[0..4] == Digits(s.year, 4);
      DigitsValueOf(s.year, 4);
      DigitsValueOf(epochYear, 4);
    }
  }
}
