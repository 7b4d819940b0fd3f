/**
 * The parser's module-level state and what each input line does to it, as
 * functions from the old state to the new one. The spreadsheet is three
 * append-only sequences of rows (data, logger events, event analysis) and the
 * list of data-sheet rows to hide. A fatal stop is a terminal state: nothing
 * changes after it.
 */
module Machine {
  import opened Wrappers
  import opened Text
  import opened Civil
  import opened Timestamps
  import opened Telemetry
  import opened Policies

  /** The first data row of a sheet: rows 0 to 2 hold the header. */
  const FirstDataRow: nat := 3

  /** A written date and time, as the pair the parser keeps in its globals. */
  type DateTime = (string, string)

  datatype State = State(
    startEpoch: int,
    endEpoch: int,
    locoNumber: string,
    oldPage: int,
    currentPage: int,
    calibration: Option<Calibration>,
    workbooks: nat,
    oldRecord: Option<DateTime>,
    writing: bool,
    firstWritten: Option<DateTime>,
    lastNonEpochWritten: Option<DateTime>,
    lastWritten: Option<DateTime>,
    prev: Motion,
    prevBp: int,
    runLength: nat,
    firstSuppressed: string,
    lastSuppressed: string,
    suppressedRows: seq<nat>,
    dataRows: seq<DataRow>,
    eventRows: seq<EventRow>,
    analysisRows: seq<AnalysisRow>,
    window: seq<Sample>,
    inEvent: bool,
    countDataSamples: nat,
    countEpochEvents: nat,
    countSuppressedEvents: nat,
    countInFlightAnalysis: nat,
    fatal: Option<Fatal>)

  function MotionOf(s: Sample): Motion {
    Motion(s.speed, s.tmc, s.tp)
  }

  /** The start of a run: globals as the module sets them, and the filter bounds read once. */
  function Init(cfg: Config): State {
    var start := GetEpoch(cfg.filterDates, cfg.startTimestamp);
    var end := GetEpoch(cfg.filterDates, cfg.endTimestamp);
    State(
      if start.Some? then start.value else 0,
      if end.Some? then end.value else 0,
      "", 0, 0, None, 0, None, true, None, None, None,
      Motion(-1, -1, ""), -1, 0, "", "", [], [], [], [], [], false, 0, 0, 0, 0,
      if start.None? || end.None? then Some(BadTimestamp) else None)
  }

  function Fail(st: State, e: Fatal): State {
    st.(fatal := Some(e))
  }

  // ---------------------------------------------------------------------
  // process_line
  // ---------------------------------------------------------------------

  /** `process_line`: one logical line. */
  function ProcessLine(cfg: Config, st: State, line: string): State {
    if st.fatal.Some? || line == [] then st
    else if Contains(line, "Page") then
      match GetPageNumber(line)
      case None => Fail(st, MalformedPageNumber)
      case Some(n) => st.(currentPage := n)
    else if st.oldPage > 1 then DataPageLine(cfg, st, line)
    else BannerLine(cfg, st, line)
  }

  /** A line after the banner page: skipped, a sample, or an annotation. */
  function DataPageLine(cfg: Config, st: State, line: string): State
    requires st.fatal.None?
    requires line != []
  {
    if SkipLineFound(cfg.skipListWords, line) then st
    else
      var next := if IsDigit(line[0]) then ProcessSample(cfg, st, line) else WriteAnnotation(cfg, st, line, true);
      if next.fatal.Some? then next else next.(oldPage := next.currentPage)
  }

  /** A line of the banner page. */
  function BannerLine(cfg: Config, st: State, line: string): State
    requires st.fatal.None?
  {
    if st.currentPage == 2 && st.oldPage == 1 then CreateSink(cfg, st)
    else
      var st1 := st.(oldPage := st.currentPage);
      if Contains(line, "Locomotive Number") then
        var words := Words(line);
        if words == [] then Fail(st1, MalformedField) else st1.(locoNumber := words[|words| - 1])
      else if FactorIsZero(st1.calibration) && Contains(line, "Circumference") && Contains(line, "Diameter") then
        Calibrate(cfg, st1, line)
      else st1
  }

  /**
   * `create_workbook`: fresh sheets whose rows start after the header. It
   * fails when no calibration was read (the diameter global is unset) or the
   * locomotive has no wheel entry.
   */
  function CreateSink(cfg: Config, st: State): State
    requires st.fatal.None?
  {
    if st.calibration.None? || st.locoNumber !in cfg.wheelDiaActualMm then Fail(st, SinkSetup)
    else st.(workbooks := st.workbooks + 1, dataRows := [], eventRows := [], analysisRows := [],
             oldPage := st.currentPage)
  }

  /** The wheel-diameter line: the locomotive must be known and in the wheel table. */
  function Calibrate(cfg: Config, st: State, line: string): (r: State)
    requires st.fatal.None?
    ensures r.fatal.Some? ==> r == st.(fatal := r.fatal)
    ensures r.fatal.None? ==> r == st.(calibration := r.calibration)
  {
    if st.locoNumber == "" then Fail(st, NoLocomotiveNumber)
    else if st.locoNumber !in cfg.wheelDiaActualMm then Fail(st, NoWheelDiameter(st.locoNumber))
    else
      var words := Words(line);
      if words == [] then Fail(st, MalformedField)
      else
        var diameter := words[|words| - 1];
        if !DecimalText(diameter) || ZeroText(diameter) then Fail(st, MalformedDiameter)
        else st.(calibration := Some(Calibration(cfg.wheelDiaActualMm[st.locoNumber], diameter)))
  }

  // ---------------------------------------------------------------------
  // write_annotation
  // ---------------------------------------------------------------------

  /** The interval between the previous parsed sample and an annotation. */
  function IntervalOffset(cfg: Config, prior: Option<DateTime>, dt: DateTime): Option<Offset> {
    if prior.None? || CheckForEpochYear(prior.value.0, cfg.epochYear) || CheckForEpochYear(dt.0, cfg.epochYear) then
      Some(NotApplicable)
    else
      match (ParseTimestamp(prior.value.0 + " " + prior.value.1), ParseTimestamp(dt.0 + " " + dt.1))
      case (Some(s), Some(e)) => Some(Elapsed(NaiveSeconds(e) - NaiveSeconds(s)))
      case _ => None
  }

  /** The previous-record columns: the literal "None" before any sample was parsed. */
  function PrevColumns(prior: Option<DateTime>): DateTime {
    if prior.None? then ("None", "None") else prior.value
  }

  /**
   * `write_annotation`: the last token is the US date, the one before it the
   * time (dashes removed); the rest is the text. Outside the date range (when
   * the start bound is positive) nothing is written.
   */
  function WriteAnnotation(cfg: Config, st: State, line: string, toEvents: bool): (r: State)
    requires st.fatal.None?
    ensures r.fatal.Some? ==> r == st.(fatal := r.fatal)
    ensures r.fatal.None? ==>
      r == st.(dataRows := r.dataRows, eventRows := r.eventRows)
      && (r.dataRows == st.dataRows || (|r.dataRows| == |st.dataRows| + 1 && r.dataRows[..|st.dataRows|] == st.dataRows
                                        && r.dataRows[|st.dataRows|].NoteRow? && st.workbooks > 0))
      && (r.eventRows == st.eventRows || (toEvents && |r.eventRows| == |st.eventRows| + 1
                                          && r.eventRows[..|st.eventRows|] == st.eventRows && st.workbooks > 0))
  {
    var words := Words(line);
    if words == [] then Fail(st, MalformedField)
    else
      match ConvertDate(words[|words| - 1])
      case None => Fail(st, MalformedField)
      case Some(date) =>
        if |words| < 2 then Fail(st, MalformedField)
        else
          match ApplyTimeAdjustment(date, RemoveAll(words[|words| - 2], '-'), cfg.tsAdjustment)
          case None => Fail(st, BadTimestamp)
          case Some(dt) => PlaceAnnotation(cfg, st, words, dt, toEvents)
  }

  /** The range check and the writes of an annotation whose date and time are known. */
  function PlaceAnnotation(cfg: Config, st: State, words: seq<string>, dt: DateTime, toEvents: bool): (r: State)
    requires st.fatal.None?
    requires |words| >= 2
    ensures r.fatal.Some? ==> r == st.(fatal := r.fatal)
    ensures r.fatal.None? ==>
      r == st.(dataRows := r.dataRows, eventRows := r.eventRows)
      && (r.dataRows == st.dataRows || (|r.dataRows| == |st.dataRows| + 1 && r.dataRows[..|st.dataRows|] == st.dataRows
                                        && r.dataRows[|st.dataRows|].NoteRow? && st.workbooks > 0))
      && (r.eventRows == st.eventRows || (toEvents && |r.eventRows| == |st.eventRows| + 1
                                          && r.eventRows[..|st.eventRows|] == st.eventRows && st.workbooks > 0))
  {
    match GetEpoch(cfg.filterDates, dt.0 + " " + dt.1)
    case None => Fail(st, BadTimestamp)
    case Some(epoch) =>
      if st.startEpoch > 0 && !InRange(epoch, st.startEpoch, st.endEpoch) then st
      else if st.workbooks == 0 then Fail(st, NoSink)
      else
        var text := Join(words[..|words| - 2], " ");
        var withNote := st.(dataRows := st.dataRows + [NoteRow(dt.0, dt.1, text)]);
        if !toEvents then withNote
        else
          match IntervalOffset(cfg, st.oldRecord, dt)
          case None => Fail(st, BadTimestamp)
          case Some(offset) =>
            var prev := PrevColumns(st.oldRecord);
            var interval := if StartsWith(words[0], "Power") then Some(Interval(prev.0, prev.1, offset)) else None;
            withNote.(eventRows := st.eventRows + [EventRow(dt.0, dt.1, text, interval)])
  }

  // ---------------------------------------------------------------------
  // process_sample
  // ---------------------------------------------------------------------

  /** `process_sample`: parse, remember the sample's date and time, then filter and write. */
  function ProcessSample(cfg: Config, st: State, line: string): State
    requires st.fatal.None?
  {
    match ParseSample(cfg, line)
    case Err(e) => Fail(st, e)
    case Ok(s) => FilterSample(cfg, st.(oldRecord := Some((s.date, s.time))), s, Slice(line, 0, 20))
  }

  /** The date filter on a parsed sample, and the writes when it passes. */
  function FilterSample(cfg: Config, st: State, s: Sample, stamp: string): State
    requires st.fatal.None?
  {
    match Admit(cfg, st, s)
    case None => Fail(st, BadTimestamp)
    case Some(a) => if a.accept then WriteSample(cfg, a.state, s, a.isEpoch, stamp) else a.state
  }

  /** The date filter's verdict on a parsed sample, with the state it leaves. */
  datatype Admission = Admission(state: State, isEpoch: bool, accept: bool)

  /**
   * Count an epoch-year sample and apply the date filter; None where the
   * sample's timestamp cannot be read.
   */
  function Admit(cfg: Config, st: State, s: Sample): (r: Option<Admission>)
    ensures r.None? <==> GetEpoch(cfg.filterDates, s.date + " " + s.time).None?
    ensures r.Some? ==>
      && r.value.isEpoch == CheckForEpochYear(s.date, cfg.epochYear)
      && r.value.state == st.(countEpochEvents := r.value.state.countEpochEvents, writing := r.value.state.writing)
      && r.value.state.countEpochEvents == st.countEpochEvents + (if r.value.isEpoch then 1 else 0)
      && Verdict(r.value.accept, r.value.state.writing)
         == FilterStep(cfg.filterDates, cfg.epochTimestampsAllowed, st.writing, r.value.isEpoch,
                       InRange(GetEpoch(cfg.filterDates, s.date + " " + s.time).value, st.startEpoch, st.endEpoch))
  {
    match GetEpoch(cfg.filterDates, s.date + " " + s.time)
    case None => None
    case Some(epoch) =>
      var isEpoch := CheckForEpochYear(s.date, cfg.epochYear);
      var v := FilterStep(cfg.filterDates, cfg.epochTimestampsAllowed, st.writing, isEpoch,
                          InRange(epoch, st.startEpoch, st.endEpoch));
      Some(Admission(st.(countEpochEvents := st.countEpochEvents + (if isEpoch then 1 else 0), writing := v.writing),
                     isEpoch, v.accept))
  }

  /** The writes for a sample that passed the filter. */
  function WriteSample(cfg: Config, st: State, s: Sample, isEpoch: bool, stamp: string): State
    requires st.fatal.None?
  {
    if st.workbooks == 0 then Fail(st, NoSink)
    else
      var first := if st.firstWritten.None? then st.(firstWritten := Some((s.date, s.time))) else st;
      var noted := BrakePipeNote(cfg, first, s, stamp);
      if noted.fatal.Some? then noted else SuppressAndRecord(cfg, noted, s, isEpoch, stamp)
  }

  /** After the brake-pipe note: the stationary-run step, the record, and the count of samples written. */
  function SuppressAndRecord(cfg: Config, st: State, s: Sample, isEpoch: bool, stamp: string): State
    requires st.fatal.None?
  {
    var suppressed := Suppress(cfg, st, s, stamp);
    if suppressed.fatal.Some? then suppressed
    else
      var recorded := RecordSample(cfg, suppressed, s, isEpoch);
      if recorded.fatal.Some? then recorded
      else recorded.(countDataSamples := recorded.countDataSamples + 1)
  }

  function PressureUnit(cfg: Config): string {
    if cfg.reportKpaPressures then "kpa" else "psi"
  }

  /** The words that open every brake-pipe annotation. */
  function BrakePipeLead(): seq<string> {
    ["Brake", "pipe", "pressure", "transitioned", "from"]
  }

  /** The words that close the annotation of a rise (a compressor start). */
  function CompressorStart(): seq<string> {
    ["-", "compressor", "start", "up"]
  }

  /**
   * The words of the brake-pipe annotation for a rise or a fall from `prevBp`
   * to `bp`: "Brake pipe pressure transitioned from 0 psi to 90 psi -
   * compressor start up" for a rise, "... to 0 psi." for a fall.
   */
  function BrakePipeWords(cfg: Config, prevBp: int, bp: int, change: BpChange): seq<string> {
    var unit := PressureUnit(cfg);
    BrakePipeLead() + [IntToString(prevBp), unit, "to", IntToString(bp)]
    + match change
      case Rise => [unit] + CompressorStart()
      case Fall => [unit + "."]
  }

  /** The brake-pipe annotation line: its words, one space apart, then the sample's time and date. */
  function BrakePipeText(cfg: Config, prevBp: int, bp: int, change: BpChange, stamp: string): string {
    Join(BrakePipeWords(cfg, prevBp, bp, change), " ") + " " + stamp
  }

  /** The brake-pipe annotation, written before the suppression step. */
  function BrakePipeNote(cfg: Config, st: State, s: Sample, stamp: string): State
    requires st.fatal.None?
  {
    match BpTransition(st.prevBp, s.bp)
    case None => st
    case Some(change) => WriteAnnotation(cfg, st, BrakePipeText(cfg, st.prevBp, s.bp, change, stamp), true)
  }

  /** The condition every hidden sample meets, as the summary words it. */
  function StationaryCondition(): seq<string> {
    ["with", "Speed", "=", "0", "kph,", "TMC", "=", "0", "Amps,", "and", "Throttle", "in", "Idle"]
  }

  /**
   * The words of the summary written when a stationary run of `n` hidden
   * samples ends: "Suppressed 3 consecutive events with Speed = 0 kph, TMC =
   * 0 Amps, and Throttle in Idle from <first> to <last>".
   */
  function SummaryWords(n: nat, first: string, last: string): seq<string> {
    ["Suppressed", IntToString(n), "consecutive", if n == 1 then "event" else "events"]
    + StationaryCondition() + ["from", first, "to", last]
  }

  /** The summary line: its words, one space apart, then the sample's time and date. */
  function SummaryText(n: nat, first: string, last: string, stamp: string): string {
    Join(SummaryWords(n, first, last), " ") + " " + stamp
  }

  /** The stationary-run step: remember the row to hide, or summarise the run that ended. */
  function Suppress(cfg: Config, st: State, s: Sample, stamp: string): (r: State)
    requires st.fatal.None?
    ensures r.fatal.Some? ==> r == st.(fatal := r.fatal)
  {
    var o := RunStep(cfg.suppressStationaryEvents, st.runLength, st.prev, MotionOf(s));
    if o.hidden then MarkHidden(st, s, o.length)
    else if o.summary == 0 then st.(runLength := o.length)
    else SummariseRun(cfg, st, o.summary, stamp)
  }

  /** A hidden sample: its row is listed, and the run's first and last times are kept. */
  function MarkHidden(st: State, s: Sample, length: nat): (r: State)
    ensures r == st.(firstSuppressed := r.firstSuppressed, lastSuppressed := r.lastSuppressed,
                     suppressedRows := r.suppressedRows, runLength := length)
    ensures r.suppressedRows == st.suppressedRows + [FirstDataRow + |st.dataRows|]
    ensures r.firstSuppressed == (if st.runLength == 0 then s.time else st.firstSuppressed)
    ensures r.lastSuppressed == s.time
  {
    st.(firstSuppressed := if st.runLength == 0 then s.time else st.firstSuppressed,
        lastSuppressed := s.time,
        suppressedRows := st.suppressedRows + [FirstDataRow + |st.dataRows|],
        runLength := length)
  }

  /** The end of a run of `n` hidden samples: the summary note, then the counters. */
  function SummariseRun(cfg: Config, st: State, n: nat, stamp: string): (r: State)
    requires st.fatal.None?
    ensures r.fatal.Some? ==> r == st.(fatal := r.fatal)
    ensures r.fatal.None? ==>
      r == st.(dataRows := r.dataRows, countSuppressedEvents := r.countSuppressedEvents, runLength := 0)
      && r.countSuppressedEvents == st.countSuppressedEvents + n
      && (r.dataRows == st.dataRows || (|r.dataRows| == |st.dataRows| + 1 && r.dataRows[..|st.dataRows|] == st.dataRows
                                        && r.dataRows[|st.dataRows|].NoteRow? && st.workbooks > 0))
  {
    var summarised := WriteAnnotation(cfg, st, SummaryText(n, st.firstSuppressed, st.lastSuppressed, stamp), false);
    if summarised.fatal.Some? then summarised
    else summarised.(countSuppressedEvents := st.countSuppressedEvents + n, runLength := 0)
  }

  /**
   * What a stationary-run step with outcome `o` may change in `st`: the run
   * bookkeeping, the list of hidden rows (one more for a hidden sample) and at
   * most one note row.
   */
  predicate RunStepped(st: State, r: State, o: RunOutcome) {
    && r == st.(firstSuppressed := r.firstSuppressed, lastSuppressed := r.lastSuppressed,
                suppressedRows := r.suppressedRows, runLength := o.length,
                countSuppressedEvents := r.countSuppressedEvents, dataRows := r.dataRows)
    && r.countSuppressedEvents == st.countSuppressedEvents + o.summary
    && r.suppressedRows == st.suppressedRows + (if o.hidden then [FirstDataRow + |st.dataRows|] else [])
    && (o.hidden ==> r.dataRows == st.dataRows)
    && (r.dataRows == st.dataRows || (|r.dataRows| == |st.dataRows| + 1 && r.dataRows[..|st.dataRows|] == st.dataRows
                                      && r.dataRows[|st.dataRows|].NoteRow? && st.workbooks > 0))
  }

  /** What the stationary-run step changes: the run bookkeeping and at most one note row. */
  lemma SuppressEffect(cfg: Config, st: State, s: Sample, stamp: string)
    requires st.fatal.None? && Suppress(cfg, st, s, stamp).fatal.None?
    ensures RunStepped(st, Suppress(cfg, st, s, stamp), RunStep(cfg.suppressStationaryEvents, st.runLength, st.prev, MotionOf(s)))
  {
    var o := RunStep(cfg.suppressStationaryEvents, st.runLength, st.prev, MotionOf(s));
    if o.hidden {
      MarkHiddenStep(st, s, o);
      assert Suppress(cfg, st, s, stamp) == MarkHidden(st, s, o.length);
    } else if o.summary == 0 {
      assert Suppress(cfg, st, s, stamp) == st.(runLength := o.length);
    } else {
      SummariseStep(cfg, st, o, stamp);
      assert Suppress(cfg, st, s, stamp) == SummariseRun(cfg, st, o.summary, stamp);
    }
  }

  lemma MarkHiddenStep(st: State, s: Sample, o: RunOutcome)
    requires o.hidden && o.summary == 0
    ensures RunStepped(st, MarkHidden(st, s, o.length), o)
  {
  }

  lemma SummariseStep(cfg: Config, st: State, o: RunOutcome, stamp: string)
    requires st.fatal.None? && !o.hidden && o.length == 0
    requires SummariseRun(cfg, st, o.summary, stamp).fatal.None?
    ensures RunStepped(st, SummariseRun(cfg, st, o.summary, stamp), o)
  {
  }

  /** `write_record` on the data sheet, the previous-sample globals, and the analysis window. */
  function RecordSample(cfg: Config, st: State, s: Sample, isEpoch: bool): (r: State)
    requires st.fatal.None?
    ensures r.dataRows == st.dataRows + [SampleRow(s, WriteRecord(cfg, s, isEpoch, false))]
    ensures r.fatal.Some? ==> r.fatal == Some(EmptyAnalysisWindow) && cfg.inFlightAnalysisEnabled && cfg.ifaDequeMaxlen == 0
    ensures r == st.(dataRows := r.dataRows, prev := r.prev, prevBp := r.prevBp,
                     lastNonEpochWritten := r.lastNonEpochWritten, lastWritten := r.lastWritten,
                     window := r.window, inEvent := r.inEvent, analysisRows := r.analysisRows,
                     countInFlightAnalysis := r.countInFlightAnalysis, fatal := r.fatal)
    ensures r.prev == MotionOf(s) && r.prevBp == s.bp && r.lastWritten == Some((s.date, s.time))
    ensures r.lastNonEpochWritten == if isEpoch then st.lastNonEpochWritten else Some((s.date, s.time))
    ensures cfg.inFlightAnalysisEnabled && r.fatal.None? ==>
      r.window == Push(st.window, s, cfg.ifaDequeMaxlen)
      && r.inEvent == EventStep(cfg.ifaTmcThreshold, st.inEvent, MotionOf(s))
    ensures !cfg.inFlightAnalysisEnabled ==>
      r.window == st.window && r.inEvent == st.inEvent && r.analysisRows == st.analysisRows && r.fatal.None?
  {
    var dt := (s.date, s.time);
    var written := st.(
      dataRows := st.dataRows + [SampleRow(s, WriteRecord(cfg, s, isEpoch, false))],
      prev := MotionOf(s),
      prevBp := s.bp,
      lastNonEpochWritten := if isEpoch then st.lastNonEpochWritten else Some(dt),
      lastWritten := Some(dt));
    if cfg.inFlightAnalysisEnabled then Analyse(cfg, written.(window := Push(written.window, s, cfg.ifaDequeMaxlen)))
    else written
  }

  /** The analysis rows of a whole window, the newest one highlighted. */
  function WindowRows(cfg: Config, w: seq<Sample>): (rows: seq<AnalysisRow>)
    ensures |rows| == |w|
    ensures forall i | 0 <= i < |w| :: rows[i] == AnalysisRecord(w[i], WriteRecord(cfg, w[i], false, i == |w| - 1))
  {
    seq(|w|, i requires 0 <= i < |w| => AnalysisRecord(w[i], WriteRecord(cfg, w[i], false, i == |w| - 1)))
  }

  /** `perform_in_flight_analysis` on the newest sample of the window. */
  function Analyse(cfg: Config, st: State): (r: State)
    requires st.fatal.None?
    ensures st.window == [] ==> r == Fail(st, EmptyAnalysisWindow)
    ensures st.window != [] ==>
      r == st.(analysisRows := r.analysisRows, inEvent := r.inEvent, countInFlightAnalysis := r.countInFlightAnalysis)
      && r.inEvent == EventStep(cfg.ifaTmcThreshold, st.inEvent, MotionOf(st.window[|st.window| - 1]))
      && |st.analysisRows| <= |r.analysisRows| && r.analysisRows[..|st.analysisRows|] == st.analysisRows
  {
    if st.window == [] then Fail(st, EmptyAnalysisWindow)
    else
      var cur := st.window[|st.window| - 1];
      var m := MotionOf(cur);
      if st.inEvent then
        var row := AnalysisRecord(cur, WriteRecord(cfg, cur, false, !Closes(m)));
        if Closes(m) then
          st.(analysisRows := st.analysisRows + [row, EventEnd(st.countInFlightAnalysis), Spacer], inEvent := false)
        else st.(analysisRows := st.analysisRows + [row])
      else if !Triggers(cfg.ifaTmcThreshold, m) then st
      else
        var n := st.countInFlightAnalysis + 1;
        st.(countInFlightAnalysis := n,
            analysisRows := st.analysisRows + [EventStart(n)] + WindowRows(cfg, st.window),
            inEvent := true)
  }

  // ---------------------------------------------------------------------
  // main's read loop
  // ---------------------------------------------------------------------

  /** The logical lines of one raw line: trailing whitespace removed, split at form feeds. */
  function LogicalLines(raw: string): seq<string> {
    SplitOn(RStrip(raw), '\U{0C}')
  }

  function ProcessLines(cfg: Config, st: State, lines: seq<string>): State
    decreases |lines|
  {
    if lines == [] then st
    else ProcessLines(cfg, ProcessLine(cfg, st, lines[0]), lines[1..])
  }

  /** The whole input, raw line by raw line. */
  function ProcessInput(cfg: Config, st: State, raws: seq<string>): State
    decreases |raws|
  {
    if raws == [] then st
    else ProcessInput(cfg, ProcessLines(cfg, st, LogicalLines(raws[0])), raws[1..])
  }
}
