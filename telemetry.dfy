/**
 * The records of the recorder parser: its configuration, the fatal stops,
 * one parsed data sample, the rows it writes to the three worksheets, and the
 * line-level helpers (skip list, page number, throttle translation, flag
 * marks, fixed-width sample parsing).
 */
module Telemetry {
  import opened Wrappers
  import opened Text
  import opened Timestamps

  /**
   * The settings read from the configuration module. The float parts of the
   * conversion are opaque: `psiToKpa` stands for round(p * psi_to_kpa_factor).
   */
  datatype Config = Config(
    tsAdjustment: int,
    wheelDiaActualMm: map<string, int>,
    skipListWords: seq<string>,
    filterDates: bool,
    startTimestamp: string,
    endTimestamp: string,
    epochTimestampsAllowed: bool,
    epochYear: int,
    tpTranslations: map<string, string>,
    idleAsDigit: bool,
    numberOfFlagsExpected: int,
    inFlightAnalysisEnabled: bool,
    ifaDequeMaxlen: nat,
    ifaTmcThreshold: int,
    suppressStationaryEvents: bool,
    reportKpaPressures: bool,
    psiToKpa: int -> int)

  /** Why the run stopped: a `sys.exit` or an exception nobody catches. */
  datatype Fatal =
    | BadTimestamp               // strptime or fromtimestamp raised
    | MalformedField             // int() or float() raised, or a token is missing
    | FlagCountMismatch(expected: int, found: nat)
    | NoLocomotiveNumber
    | NoWheelDiameter(loco: string)
    | MalformedDiameter          // float() raised on the diameter, or it is zero
    | MalformedPageNumber
    | NoSink                     // a row is written before the workbook exists
    | SinkSetup                  // the workbook cannot be set up: no calibration, or no wheel entry
    | EmptyAnalysisWindow        // the analysis window holds nothing (a zero-length deque)

  /**
   * The speed calibration: the measured wheel diameter from the wheel table
   * and the diameter text of the banner. The factor is
   * actualMm / (diameter * 25.4); it is zero exactly when actualMm is zero.
   */
  datatype Calibration = Calibration(actualMm: int, diameterText: string)

  predicate FactorIsZero(c: Option<Calibration>) {
    c.None? || c.value.actualMm == 0
  }

  /** A non-empty whitespace-free token, as split() produces. */
  type Token = s: string | s != [] witness "0"

  /** One data sample after slicing, with date and time already adjusted. */
  datatype Sample = Sample(
    date: string,
    time: string,
    mileage: string,
    speed: int,
    tmc: int,
    bp: int,
    bc: int,
    tp: Token,
    flags: seq<string>)

  /** The throttle cell: text, or the number 0 for idle when idle is shown as a digit. */
  datatype TpCell = TpText(text: string) | TpZero

  /** The cells `write_record` fills for one sample. */
  datatype RecordRow = RecordRow(
    date: string,
    time: string,
    mileage: string,
    speed: int,
    tmc: int,
    bp: int,
    bc: int,
    throttle: TpCell,
    marks: seq<string>,
    fillYear: bool,
    fillTmc: bool)

  /** A row of the data sheet: a sample, or an annotation note. */
  datatype DataRow =
    | SampleRow(sample: Sample, cells: RecordRow)
    | NoteRow(date: string, time: string, text: string)

  /** The interval column of the events sheet. */
  datatype Offset = NotApplicable | Elapsed(seconds: int)

  datatype Interval = Interval(prevDate: string, prevTime: string, offset: Offset)

  /** A row of the logger-events sheet; the interval columns only for power events. */
  datatype EventRow = EventRow(date: string, time: string, text: string, interval: Option<Interval>)

  /** A row of the event-analysis sheet; a spacer is the row skipped after an event ends. */
  datatype AnalysisRow =
    | EventStart(n: nat)
    | AnalysisRecord(sample: Sample, cells: RecordRow)
    | EventEnd(n: nat)
    | Spacer

  /**
   * `translate_tp`: a numeric token unchanged; a token starting with I or i
   * as 0 when idle is shown as a digit; an upper-cased token found in the
   * translation table as its text; anything else with " (Unknown)" appended.
   */
  function TranslateTp(cfg: Config, tp: Token): TpCell {
    if AllDigits(tp) then TpText(tp)
    else if Upper(tp)[0] == 'I' && cfg.idleAsDigit then TpZero
    else if Upper(tp) in cfg.tpTranslations then TpText(cfg.tpTranslations[Upper(tp)])
    else TpText(tp + " (Unknown)")
  }

  lemma UpperHead(s: string)
    requires s != []
    ensures Upper(s)[0] == 'I' <==> s[0] == 'I' || s[0] == 'i'
  {
  }

  /** The outcomes of `translate_tp`, in the order the checks are made. */
  lemma TranslateTpOutcomes(cfg: Config, tp: Token)
    ensures AllDigits(tp) ==> TranslateTp(cfg, tp) == TpText(tp)
    ensures TranslateTp(cfg, tp) == TpZero
        <==> !AllDigits(tp) && cfg.idleAsDigit && (tp[0] == 'I' || tp[0] == 'i')
    ensures !AllDigits(tp) && !(cfg.idleAsDigit && (tp[0] == 'I' || tp[0] == 'i'))
        ==> TranslateTp(cfg, tp)
            == if Upper(tp) in cfg.tpTranslations then TpText(cfg.tpTranslations[Upper(tp)])
               else TpText(tp + " (Unknown)")
  {
    UpperHead(tp);
  }

  /** `write_record`'s flag cell: "Y" for "1", "N" for anything else. */
  function FlagMark(flag: string): (m: string)
    ensures m == "Y" || m == "N"
    ensures m == "Y" <==> flag == "1"
  {
    if flag == "1" then "Y" else "N"
  }

  function Marks(flags: seq<string>): (marks: seq<string>)
    ensures |marks| == |flags|
    ensures forall i | 0 <= i < |flags| :: marks[i] == FlagMark(flags[i])
  {
    seq(|flags|, i requires 0 <= i < |flags| => FlagMark(flags[i]))
  }

  /** The marks say exactly which flags were on. */
  lemma MarksRecoverFlags(flags: seq<string>)
    ensures forall i | 0 <= i < |flags| :: (Marks(flags)[i] == "Y" <==> flags[i] == "1")
    ensures forall i | 0 <= i < |flags| :: (Marks(flags)[i] == "N" <==> flags[i] != "1")
  {
  }

  /** `write_record`: the cells of one sample row. */
  function WriteRecord(cfg: Config, s: Sample, fillYear: bool, fillTmc: bool): RecordRow {
    RecordRow(s.date, s.time, s.mileage, s.speed, s.tmc, s.bp, s.bc,
              TranslateTp(cfg, s.tp), Marks(s.flags), fillYear, fillTmc)
  }

  /** `skip_line_found`: some word of the skip list occurs in the line. */
  function SkipLineFound(words: seq<string>, line: string): (found: bool)
    ensures found <==> exists i | 0 <= i < |words| :: Contains(line, words[i])
  {
    if words == [] then false
    else Contains(line, words[0]) || SkipLineFound(words[1..], line)
  }

  /** `get_page_number`: the fifth whitespace token read with int(). */
  function GetPageNumber(line: string): Option<int> {
    var parts := Words(RStrip(line));
    if |parts| < 5 then None else ParseInt(parts[4])
  }

  /** The page number is read back from the fifth token of any line. */
  lemma PageNumberRead(line: string, n: int)
    requires |Words(line)| >= 5 && Words(line)[4] == IntToString(n)
    ensures GetPageNumber(line) == Some(n)
  {
    WordsRStrip(line);
    ParseIntToString(n);
  }

  /** A line with fewer than five tokens has no page number. */
  lemma PageNumberMissing(line: string)
    requires |Words(line)| < 5
    ensures GetPageNumber(line) == None
  {
    WordsRStrip(line);
  }

  /**
   * The decimal numerals float() accepts here: an optional sign, then digits
   * with at most one '.', and at least one digit.
   */
  predicate DecimalText(s: string) {
    var u := if s != [] && (s[0] == '+' || s[0] == '-') then s[1..] else s;
    var parts := SplitOn(u, '.');
    (|parts| == 1 && parts[0] != [] && AllDigits(parts[0]))
    || (|parts| == 2 && AllDigits(parts[0]) && AllDigits(parts[1]) && |parts[0]| + |parts[1]| > 0)
  }

  /** A numeral of value zero: no digit other than 0. */
  predicate ZeroText(s: string) {
    forall i | 0 <= i < |s| :: !('1' <= s[i] <= '9')
  }

  /**
   * The fixed-width fields of a data line, before the flag count is checked:
   * time [0:8] and date [10:20] adjusted together, the mileage token after
   * column 20, speed [28:32], current [32:36], then brake pipe, brake
   * cylinder, throttle and flags as whitespace tokens from column 36.
   */
  function ParseSampleFields(cfg: Config, line: string): Result<Sample, Fatal> {
    match ConvertDate(Slice(line, 10, 20))
    case None => Err(MalformedField)
    case Some(usDate) =>
      match ApplyTimeAdjustment(usDate, Slice(line, 0, 8), cfg.tsAdjustment)
      case None => Err(BadTimestamp)
      case Some(dt) =>
        var mileage := SplitOn(LStrip(SliceFrom(line, 20)), ' ')[0];
        if !DecimalText(Strip(mileage)) then Err(MalformedField)
        else ParseReadings(cfg, line, dt.0, dt.1, mileage)
  }

  /** The columns from 28 on: speed, current, pressures, throttle and flags. */
  function ParseReadings(cfg: Config, line: string, date: string, time: string, mileage: string)
    : Result<Sample, Fatal>
  {
    var speed := ParseInt(Slice(line, 28, 32));
    var tmc := ParseInt(Slice(line, 32, 36));
    var parts := Words(SliceFrom(line, 36));
    if speed.None? || tmc.None? || |parts| < 3 then Err(MalformedField)
    else
      var bp := ParseInt(parts[0]);
      var bc := ParseInt(parts[1]);
      if bp.None? || bc.None? then Err(MalformedField)
      else
        WordsShape(SliceFrom(line, 36));
        var tp: Token := parts[2];
        Ok(Sample(date, time, mileage, speed.value, tmc.value,
                  Pressure(cfg, bp.value), Pressure(cfg, bc.value), tp, parts[3..]))
  }

  /** A pressure as reported: psi, or converted to kPa when so configured. */
  function Pressure(cfg: Config, psi: int): int {
    if cfg.reportKpaPressures then cfg.psiToKpa(psi) else psi
  }

  /** `process_sample`'s parse: the fields, then the flag count check. */
  function ParseSample(cfg: Config, line: string): (r: Result<Sample, Fatal>)
    ensures r.Ok? ==> |r.value.flags| == cfg.numberOfFlagsExpected
    ensures ParseSampleFields(cfg, line).Ok? && |ParseSampleFields(cfg, line).value.flags| != cfg.numberOfFlagsExpected
        ==> r == Err(FlagCountMismatch(cfg.numberOfFlagsExpected, |ParseSampleFields(cfg, line).value.flags|))
    ensures r.Ok? ==> r == ParseSampleFields(cfg, line)
  {
    match ParseSampleFields(cfg, line)
    case Err(e) => Err(e)
    case Ok(s) =>
      if |s.flags| != cfg.numberOfFlagsExpected then Err(FlagCountMismatch(cfg.numberOfFlagsExpected, |s.flags|))
      else Ok(s)
  }
}
