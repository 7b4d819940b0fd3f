/**
 * What single lines and whole inputs do to the parser's state: a stopped run
 * stays stopped, page and skip-listed lines write nothing, a wrong flag count
 * stops the run, the calibration is read once, an annotation appears on both
 * sheets with the same text, the interval column orders readings, and the
 * analysis sheet opens an event with the whole window.
 */
module Properties {
  import opened Wrappers
  import opened Text
  import opened Civil
  import opened Timestamps
  import opened Telemetry
  import opened Policies
  import opened Machine
  import opened Invariants

  // ---------------------------------------------------------------------
  // A stopped run
  // ---------------------------------------------------------------------

  lemma {:induction false} StoppedRunIgnoresLines(cfg: Config, st: State, lines: seq<string>)
    requires st.fatal.Some?
    ensures ProcessLines(cfg, st, lines) == st
    decreases |lines|
  {
    if lines != [] {
      StoppedRunIgnoresLines(cfg, ProcessLine(cfg, st, lines[0]), lines[1..]);
    }
  }

  /** After a fatal stop no further input changes anything. */
  lemma {:induction false} StoppedRunIgnoresInput(cfg: Config, st: State, raws: seq<string>)
    requires st.fatal.Some?
    ensures ProcessInput(cfg, st, raws) == st
    decreases |raws|
  {
    if raws != [] {
      StoppedRunIgnoresLines(cfg, st, LogicalLines(raws[0]));
      StoppedRunIgnoresInput(cfg, st, raws[1..]);
    }
  }

  // ---------------------------------------------------------------------
  // Lines that write nothing
  // ---------------------------------------------------------------------

  /** A page header line sets the current page to its fifth token and changes nothing else. */
  lemma PageLineSetsPage(cfg: Config, st: State, line: string, n: int)
    requires st.fatal.None? && Contains(line, "Page")
    requires |Words(line)| >= 5 && Words(line)[4] == IntToString(n)
    ensures ProcessLine(cfg, st, line) == st.(currentPage := n)
  {
    PageNumberRead(line, n);
    PageLineRead(cfg, st, line, n);
  }

  lemma PageLineRead(cfg: Config, st: State, line: string, n: int)
    requires st.fatal.None? && Contains(line, "Page") && GetPageNumber(line) == Some(n)
    ensures ProcessLine(cfg, st, line) == st.(currentPage := n)
  {
    assert line != [];
  }

  /** A page header line too short to hold a page number stops the run. */
  lemma PageLineWithoutNumber(cfg: Config, st: State, line: string)
    requires st.fatal.None? && Contains(line, "Page") && |Words(line)| < 5
    ensures ProcessLine(cfg, st, line) == Fail(st, MalformedPageNumber)
  {
    PageNumberMissing(line);
  }

  /** On the data pages a line holding any skip-list word is dropped whole. */
  lemma SkippedLineIgnored(cfg: Config, st: State, line: string, i: nat)
    requires st.fatal.None? && line != [] && !Contains(line, "Page") && st.oldPage > 1
    requires i < |cfg.skipListWords| && Contains(line, cfg.skipListWords[i])
    ensures ProcessLine(cfg, st, line) == st
  {
  }

  /** A data line with the wrong number of flags stops the run, reporting both counts. */
  lemma FlagMismatchStops(cfg: Config, st: State, line: string)
    requires st.fatal.None? && line != [] && !Contains(line, "Page") && st.oldPage > 1
    requires !SkipLineFound(cfg.skipListWords, line) && IsDigit(line[0])
    requires ParseSampleFields(cfg, line).Ok?
    requires |ParseSampleFields(cfg, line).value.flags| != cfg.numberOfFlagsExpected
    ensures ProcessLine(cfg, st, line)
         == Fail(st, FlagCountMismatch(cfg.numberOfFlagsExpected, |ParseSampleFields(cfg, line).value.flags|))
  {
    var e := FlagCountMismatch(cfg.numberOfFlagsExpected, |ParseSampleFields(cfg, line).value.flags|);
    assert ParseSample(cfg, line) == Err(e);
    assert ProcessSample(cfg, st, line) == Fail(st, e);
    assert DataPageLine(cfg, st, line) == Fail(st, e);
  }

  // ---------------------------------------------------------------------
  // The calibration and the workbook
  // ---------------------------------------------------------------------

  /** The diameter line: which fatal stop, or the calibration recorded. */
  lemma CalibrateOutcome(cfg: Config, st: State, line: string)
    requires st.fatal.None?
    ensures var r := Calibrate(cfg, st, line);
      && (st.locoNumber == "" ==> r.fatal == Some(NoLocomotiveNumber))
      && ((st.locoNumber != "" && st.locoNumber !in cfg.wheelDiaActualMm)
            ==> r.fatal == Some(NoWheelDiameter(st.locoNumber)))
      && (r.fatal.None? ==>
            && st.locoNumber in cfg.wheelDiaActualMm && Words(line) != []
            && var d := Words(line)[|Words(line)| - 1];
               DecimalText(d) && !ZeroText(d)
               && r == st.(calibration := Some(Calibration(cfg.wheelDiaActualMm[st.locoNumber], d))))
  {
    var r := Calibrate(cfg, st, line);
    if r.fatal.None? {
      assert st.locoNumber != "" && st.locoNumber in cfg.wheelDiaActualMm && Words(line) != [];
    }
  }

  /** A workbook is only set up once a calibration and a wheel entry exist, with empty sheets. */
  lemma CreateSinkOutcome(cfg: Config, st: State)
    requires st.fatal.None?
    ensures var r := CreateSink(cfg, st);
      && (r.fatal.None? <==> st.calibration.Some? && st.locoNumber in cfg.wheelDiaActualMm)
      && (r.fatal.None? ==>
            r.workbooks == st.workbooks + 1 && r.dataRows == [] && r.eventRows == [] && r.analysisRows == [])
  {
  }

  /** The globals a data-page line never touches. */
  function Setup(st: State): (string, Option<Calibration>, nat, int, int) {
    (st.locoNumber, st.calibration, st.workbooks, st.startEpoch, st.endEpoch)
  }

  predicate SetupKept(st: State, r: State) {
    Setup(r) == Setup(st)
  }

  lemma BrakePipeKeepsSetup(cfg: Config, st: State, s: Sample, stamp: string)
    requires st.fatal.None?
    ensures SetupKept(st, BrakePipeNote(cfg, st, s, stamp))
  {
    match BpTransition(st.prevBp, s.bp)
    case None =>
    case Some(change) =>
      var r := WriteAnnotation(cfg, st, BrakePipeText(cfg, st.prevBp, s.bp, change, stamp), true);
      assert SetupKept(st, r);
  }

  lemma SuppressRecordKeepSetup(cfg: Config, st: State, s: Sample, isEpoch: bool, stamp: string)
    requires st.fatal.None?
    ensures SetupKept(st, SuppressAndRecord(cfg, st, s, isEpoch, stamp))
  {
    var b := Suppress(cfg, st, s, stamp);
    if b.fatal.None? {
      SuppressEffect(cfg, st, s, stamp);
      assert SetupKept(st, RecordSample(cfg, b, s, isEpoch));
    }
  }

  lemma WriteSampleKeepsSetup(cfg: Config, st: State, s: Sample, isEpoch: bool, stamp: string)
    requires st.fatal.None?
    ensures SetupKept(st, WriteSample(cfg, st, s, isEpoch, stamp))
  {
    if st.workbooks > 0 {
      var first := if st.firstWritten.None? then st.(firstWritten := Some((s.date, s.time))) else st;
      BrakePipeKeepsSetup(cfg, first, s, stamp);
      var noted := BrakePipeNote(cfg, first, s, stamp);
      if noted.fatal.None? {
        SuppressRecordKeepSetup(cfg, noted, s, isEpoch, stamp);
      }
    }
  }

  lemma FilterSampleKeepsSetup(cfg: Config, st: State, s: Sample, stamp: string)
    requires st.fatal.None?
    ensures SetupKept(st, FilterSample(cfg, st, s, stamp))
  {
    match Admit(cfg, st, s)
    case None =>
    case Some(a) =>
      if a.accept {
        WriteSampleKeepsSetup(cfg, a.state, s, a.isEpoch, stamp);
      }
  }

  lemma DataLineKeepsSetup(cfg: Config, st: State, line: string)
    requires st.fatal.None? && line != []
    ensures SetupKept(st, DataPageLine(cfg, st, line))
  {
    if !SkipLineFound(cfg.skipListWords, line) && IsDigit(line[0]) {
      match ParseSample(cfg, line)
      case Err(e) =>
      case Ok(s) => FilterSampleKeepsSetup(cfg, st.(oldRecord := Some((s.date, s.time))), s, Slice(line, 0, 20));
    }
  }

  /** Once a non-zero calibration is read, no line changes it. */
  lemma CalibrationKept(cfg: Config, st: State, line: string)
    requires !FactorIsZero(st.calibration)
    ensures ProcessLine(cfg, st, line).calibration == st.calibration
  {
    if st.fatal.None? && line != [] && !Contains(line, "Page") && st.oldPage > 1 {
      DataLineKeepsSetup(cfg, st, line);
    }
  }

  lemma {:induction false} CalibrationKeptByLines(cfg: Config, st: State, lines: seq<string>)
    requires !FactorIsZero(st.calibration)
    ensures ProcessLines(cfg, st, lines).calibration == st.calibration
    decreases |lines|
  {
    if lines != [] {
      CalibrationKept(cfg, st, lines[0]);
      CalibrationKeptByLines(cfg, ProcessLine(cfg, st, lines[0]), lines[1..]);
    }
  }

  /** The first non-zero calibration is the one the whole run uses. */
  lemma {:induction false} CalibrationKeptByInput(cfg: Config, st: State, raws: seq<string>)
    requires !FactorIsZero(st.calibration)
    ensures ProcessInput(cfg, st, raws).calibration == st.calibration
    decreases |raws|
  {
    if raws != [] {
      CalibrationKeptByLines(cfg, st, LogicalLines(raws[0]));
      CalibrationKeptByInput(cfg, ProcessLines(cfg, st, LogicalLines(raws[0])), raws[1..]);
    }
  }

  // ---------------------------------------------------------------------
  // Annotations
  // ---------------------------------------------------------------------

  /** With a positive start bound, an annotation outside the date range is not written anywhere. */
  lemma AnnotationOutOfRangeDropped(cfg: Config, st: State, words: seq<string>, dt: DateTime, toEvents: bool, e: int)
    requires st.fatal.None? && |words| >= 2
    requires GetEpoch(cfg.filterDates, dt.0 + " " + dt.1) == Some(e)
    requires st.startEpoch > 0 && !InRange(e, st.startEpoch, st.endEpoch)
    ensures PlaceAnnotation(cfg, st, words, dt, toEvents) == st
  {
  }

  /**
   * An annotation written to the events sheet is also on the data sheet,
   * with the same date, time and text; only power events carry the interval,
   * whose columns are the previous sample's date and time.
   */
  lemma AnnotationOnBothSheets(cfg: Config, st: State, words: seq<string>, dt: DateTime)
    requires st.fatal.None? && |words| >= 2
    requires PlaceAnnotation(cfg, st, words, dt, true).fatal.None?
    requires PlaceAnnotation(cfg, st, words, dt, true).eventRows != st.eventRows
    ensures var r := PlaceAnnotation(cfg, st, words, dt, true);
      var text := Join(words[..|words| - 2], " ");
      var ev := r.eventRows[|st.eventRows|];
      && r.dataRows == st.dataRows + [NoteRow(dt.0, dt.1, text)]
      && ev.date == dt.0 && ev.time == dt.1 && ev.text == text
      && (ev.interval.Some? <==> StartsWith(words[0], "Power"))
      && (ev.interval.Some? ==>
            (ev.interval.value.prevDate, ev.interval.value.prevTime) == PrevColumns(st.oldRecord)
            && Some(ev.interval.value.offset) == IntervalOffset(cfg, st.oldRecord, dt))
  {
  }

  /** An annotation meant only for the data sheet never reaches the events sheet. */
  lemma DataOnlyAnnotation(cfg: Config, st: State, line: string)
    requires st.fatal.None?
    ensures WriteAnnotation(cfg, st, line, false).eventRows == st.eventRows
  {
  }

  lemma LastTwo<T>(s: seq<T>, init: seq<T>, a: T, b: T)
    requires s == init + [a, b]
    ensures |s| >= 2 && s[|s| - 2] == a && s[|s| - 1] == b && s[..|s| - 2] == init
  {
  }

  /** A line whose last two words are a convertible time and date is placed with them. */
  lemma AnnotationLineParsed(cfg: Config, st: State, line: string, toEvents: bool,
                             ws: seq<string>, tw: string, dw: string, d0: string, dt: DateTime)
    requires st.fatal.None?
    requires Words(line) == ws + [tw, dw]
    requires ConvertDate(dw) == Some(d0)
    requires ApplyTimeAdjustment(d0, RemoveAll(tw, '-'), cfg.tsAdjustment) == Some(dt)
    ensures WriteAnnotation(cfg, st, line, toEvents) == PlaceAnnotation(cfg, st, ws + [tw, dw], dt, toEvents)
  {
    LastTwo(Words(line), ws, tw, dw);
  }

  /**
   * With a workbook open and the reading inside the date range, an
   * annotation is written: its text, without the time and date, becomes a
   * note row on the data sheet and, when asked, an event row with the same
   * date, time and text.
   */
  lemma AnnotationPlaced(cfg: Config, st: State, words: seq<string>, dt: DateTime, toEvents: bool, e: int)
    requires st.fatal.None? && |words| >= 2 && st.workbooks > 0
    requires GetEpoch(cfg.filterDates, dt.0 + " " + dt.1) == Some(e)
    requires st.startEpoch > 0 ==> InRange(e, st.startEpoch, st.endEpoch)
    requires toEvents ==> IntervalOffset(cfg, st.oldRecord, dt).Some?
    ensures var r := PlaceAnnotation(cfg, st, words, dt, toEvents);
      var text := Join(words[..|words| - 2], " ");
      && r.fatal.None?
      && r.dataRows == st.dataRows + [NoteRow(dt.0, dt.1, text)]
      && |r.eventRows| == |st.eventRows| + (if toEvents then 1 else 0)
      && r.eventRows[..|st.eventRows|] == st.eventRows
      && (toEvents ==>
            var ev := r.eventRows[|st.eventRows|];
            ev.date == dt.0 && ev.time == dt.1 && ev.text == text
            && (ev.interval.None? <==> !StartsWith(words[0], "Power")))
  {
  }

  lemma StationaryConditionTokens()
    ensures Tokens(StationaryCondition())
  {
  }

  lemma SummaryHeadTokens(n: nat)
    ensures Tokens(["Suppressed", IntToString(n), "consecutive", if n == 1 then "event" else "events"])
  {
    IntToStringNoSpace(n);
  }

  lemma SummaryTailTokens(first: string, last: string)
    requires first != [] && NoSpace(first) && last != [] && NoSpace(last)
    ensures Tokens(["from", first, "to", last])
  {
  }

  /** The summary's words are split() tokens. */
  lemma SummaryWordsShape(n: nat, first: string, last: string)
    requires first != [] && NoSpace(first) && last != [] && NoSpace(last)
    ensures Tokens(SummaryWords(n, first, last))
  {
    var head := ["Suppressed", IntToString(n), "consecutive", if n == 1 then "event" else "events"];
    SummaryHeadTokens(n);
    StationaryConditionTokens();
    TokensAppend(head, StationaryCondition());
    SummaryTailTokens(first, last);
    TokensAppend(head + StationaryCondition(), ["from", first, "to", last]);
  }

  lemma BrakePipeLeadTokens()
    ensures Tokens(BrakePipeLead())
  {
    assert NoSpace("Brake") && NoSpace("pipe") && NoSpace("pressure");
    assert NoSpace("transitioned") && NoSpace("from");
  }

  lemma CompressorStartTokens()
    ensures Tokens(CompressorStart())
  {
  }

  lemma BrakePipeMidTokens(cfg: Config, prevBp: int, bp: int)
    ensures Tokens([IntToString(prevBp), PressureUnit(cfg), "to", IntToString(bp)])
  {
    IntToStringNoSpace(prevBp);
    IntToStringNoSpace(bp);
  }

  /** The brake-pipe words are split() tokens, and the first is not "Power...". */
  lemma BrakePipeWordsShape(cfg: Config, prevBp: int, bp: int, change: BpChange)
    ensures var ws := BrakePipeWords(cfg, prevBp, bp, change);
      ws != [] && !StartsWith(ws[0], "Power") && Tokens(ws)
  {
    var unit := PressureUnit(cfg);
    var mid := [IntToString(prevBp), unit, "to", IntToString(bp)];
    BrakePipeMidTokens(cfg, prevBp, bp);
    BrakePipeLeadTokens();
    TokensAppend(BrakePipeLead(), mid);
    var tail := match change case Rise => [unit] + CompressorStart() case Fall => [unit + "."];
    if change.Rise? {
      assert Tokens([unit]);
      CompressorStartTokens();
      TokensAppend([unit], CompressorStart());
    } else {
      assert Tokens([unit + "."]);
    }
    TokensAppend(BrakePipeLead() + mid, tail);
    assert BrakePipeWords(cfg, prevBp, bp, change) == BrakePipeLead() + mid + tail;
    assert BrakePipeWords(cfg, prevBp, bp, change)[0] == "Brake";
    assert !StartsWith("Brake", "Power") by {
      assert "Brake"[0] != "Power"[0];
    }
  }

  /**
   * When a stationary run ends with a workbook open and the sample's time
   * and date in range, the summary is written as one note row holding the
   * summary words, the count of hidden samples grows by the run's length and
   * the run is over.
   */
  lemma SummaryNoteWritten(cfg: Config, st: State, n: nat, stamp: string,
                           tw: string, dw: string, d0: string, dt: DateTime, e: int)
    requires st.fatal.None? && st.workbooks > 0
    requires st.firstSuppressed != [] && NoSpace(st.firstSuppressed)
    requires st.lastSuppressed != [] && NoSpace(st.lastSuppressed)
    requires Words(stamp) == [tw, dw]
    requires ConvertDate(dw) == Some(d0)
    requires ApplyTimeAdjustment(d0, RemoveAll(tw, '-'), cfg.tsAdjustment) == Some(dt)
    requires GetEpoch(cfg.filterDates, dt.0 + " " + dt.1) == Some(e)
    requires st.startEpoch > 0 ==> InRange(e, st.startEpoch, st.endEpoch)
    ensures var r := SummariseRun(cfg, st, n, stamp);
      && r.fatal.None?
      && r.dataRows == st.dataRows + [NoteRow(dt.0, dt.1, Join(SummaryWords(n, st.firstSuppressed, st.lastSuppressed), " "))]
      && r.countSuppressedEvents == st.countSuppressedEvents + n
      && r.runLength == 0
  {
    var ws := SummaryWords(n, st.firstSuppressed, st.lastSuppressed);
    SummaryWordsShape(n, st.firstSuppressed, st.lastSuppressed);
    WordsJoinThen(ws, stamp);
    AnnotationLineParsed(cfg, st, SummaryText(n, st.firstSuppressed, st.lastSuppressed, stamp), false, ws, tw, dw, d0, dt);
    AnnotationPlaced(cfg, st, ws + [tw, dw], dt, false, e);
    LastTwo(ws + [tw, dw], ws, tw, dw);
  }

  /**
   * A brake-pipe transition, with a workbook open and the sample's time and
   * date in range, writes the brake-pipe words as a note row and as an event
   * row with the same date, time and text and no interval.
   */
  lemma BrakePipeNoteWritten(cfg: Config, st: State, s: Sample, stamp: string, change: BpChange,
                             tw: string, dw: string, d0: string, dt: DateTime, e: int)
    requires st.fatal.None? && st.workbooks > 0
    requires BpTransition(st.prevBp, s.bp) == Some(change)
    requires Words(stamp) == [tw, dw]
    requires ConvertDate(dw) == Some(d0)
    requires ApplyTimeAdjustment(d0, RemoveAll(tw, '-'), cfg.tsAdjustment) == Some(dt)
    requires GetEpoch(cfg.filterDates, dt.0 + " " + dt.1) == Some(e)
    requires st.startEpoch > 0 ==> InRange(e, st.startEpoch, st.endEpoch)
    requires IntervalOffset(cfg, st.oldRecord, dt).Some?
    ensures var r := BrakePipeNote(cfg, st, s, stamp);
      var text := Join(BrakePipeWords(cfg, st.prevBp, s.bp, change), " ");
      && r.fatal.None?
      && r.dataRows == st.dataRows + [NoteRow(dt.0, dt.1, text)]
      && r.eventRows == st.eventRows + [EventRow(dt.0, dt.1, text, None)]
  {
    var ws := BrakePipeWords(cfg, st.prevBp, s.bp, change);
    var text := Join(ws, " ");
    BrakePipeWordsShape(cfg, st.prevBp, s.bp, change);
    WordsJoinThen(ws, stamp);
    BrakePipeNoteLine(cfg, st, s, stamp, change);
    AnnotationLineParsed(cfg, st, BrakePipeText(cfg, st.prevBp, s.bp, change, stamp), true, ws, tw, dw, d0, dt);
    AnnotationPlaced(cfg, st, ws + [tw, dw], dt, true, e);
    LastTwo(ws + [tw, dw], ws, tw, dw);
    var r := BrakePipeNote(cfg, st, s, stamp);
    AppendOne(r.eventRows, st.eventRows, EventRow(dt.0, dt.1, text, None));
  }

  lemma BrakePipeNoteLine(cfg: Config, st: State, s: Sample, stamp: string, change: BpChange)
    requires st.fatal.None? && BpTransition(st.prevBp, s.bp) == Some(change)
    ensures BrakePipeNote(cfg, st, s, stamp) == WriteAnnotation(cfg, st, BrakePipeText(cfg, st.prevBp, s.bp, change, stamp), true)
  {
  }

  lemma AppendOne<T>(r: seq<T>, s: seq<T>, x: T)
    requires |r| == |s| + 1 && r[..|s|] == s && r[|s|] == x
    ensures r == s + [x]
  {
  }

  /**
   * The interval is signed seconds between the two readings: positive
   * exactly when the previous sample is earlier, zero exactly when the two
   * readings are the same.
   */
  lemma IntervalOrdersReadings(cfg: Config, prior: DateTime, dt: DateTime, d: int)
    requires IntervalOffset(cfg, Some(prior), dt) == Some(Elapsed(d))
    ensures ParseTimestamp(prior.0 + " " + prior.1).Some? && ParseTimestamp(dt.0 + " " + dt.1).Some?
    ensures var a, b := ParseTimestamp(prior.0 + " " + prior.1).value, ParseTimestamp(dt.0 + " " + dt.1).value;
      && (d > 0 <==> Earlier(a, b))
      && (d == 0 <==> a == b)
  {
    var a, b := ParseTimestamp(prior.0 + " " + prior.1).value, ParseTimestamp(dt.0 + " " + dt.1).value;
    NaiveSecondsOrder(a, b);
    if d == 0 {
      NaiveSecondsInjective(a, b);
    }
  }

  /** Epoch-year readings, and annotations before any sample, get no interval value. */
  lemma IntervalNotApplicable(cfg: Config, prior: Option<DateTime>, dt: DateTime)
    ensures IntervalOffset(cfg, prior, dt) == Some(NotApplicable)
        <==> prior.None? || CheckForEpochYear(prior.value.0, cfg.epochYear) || CheckForEpochYear(dt.0, cfg.epochYear)
  {
  }

  // ---------------------------------------------------------------------
  // Samples
  // ---------------------------------------------------------------------

  /** The first sample written never produces a brake-pipe note: there is no previous pressure. */
  lemma FirstSampleNoBrakeNote(cfg: Config, st: State, s: Sample, stamp: string)
    requires st.fatal.None? && Valid(cfg, st) && st.countDataSamples == 0
    ensures BrakePipeNote(cfg, st, s, stamp) == st
  {
  }

  /** A sample the date filter rejects writes no row on any sheet. */
  lemma RejectedSampleWritesNothing(cfg: Config, st: State, line: string)
    requires st.fatal.None? && ParseSample(cfg, line).Ok?
    requires var s := ParseSample(cfg, line).value;
      var a := Admit(cfg, st.(oldRecord := Some((s.date, s.time))), s);
      a.Some? && !a.value.accept
    ensures var r := ProcessSample(cfg, st, line);
      r.dataRows == st.dataRows && r.eventRows == st.eventRows && r.analysisRows == st.analysisRows
      && r.suppressedRows == st.suppressedRows && r.countDataSamples == st.countDataSamples
  {
  }

  /** With filtering on, a written sample outside the epoch year lies within the date range. */
  lemma AcceptedSampleInRange(cfg: Config, st: State, s: Sample)
    requires cfg.filterDates && Admit(cfg, st, s).Some? && Admit(cfg, st, s).value.accept
    requires !Admit(cfg, st, s).value.isEpoch
    ensures InRange(GetEpoch(true, s.date + " " + s.time).value, st.startEpoch, st.endEpoch)
  {
  }

  // ---------------------------------------------------------------------
  // Event analysis
  // ---------------------------------------------------------------------

  /**
   * When an event opens, the analysis sheet gets its numbered start row and
   * the whole window in order, with only the newest sample highlighted.
   */
  lemma EventOpensWithWindow(cfg: Config, st: State)
    requires st.fatal.None? && st.window != [] && !st.inEvent
    requires Triggers(cfg.ifaTmcThreshold, MotionOf(st.window[|st.window| - 1]))
    ensures var r := Analyse(cfg, st);
      r.inEvent && r.countInFlightAnalysis == st.countInFlightAnalysis + 1
    ensures OpenedWith(Analyse(cfg, st).analysisRows, st.analysisRows, st.countInFlightAnalysis + 1, st.window)
  {
    var n := st.countInFlightAnalysis + 1;
    EventOpenRows(cfg, st);
    OpenedRows(cfg, st.window, st.analysisRows, n, Analyse(cfg, st).analysisRows);
  }

  /**
   * `after` is `before`, then the start row of event `n`, then one record
   * per sample of `window` in order, only the newest highlighted.
   */
  predicate OpenedWith(after: seq<AnalysisRow>, before: seq<AnalysisRow>, n: nat, window: seq<Sample>) {
    && |after| == |before| + 1 + |window|
    && after[..|before|] == before
    && after[|before|] == EventStart(n)
    && forall i | 0 <= i < |window| ::
         after[|before| + 1 + i].AnalysisRecord?
         && after[|before| + 1 + i].sample == window[i]
         && (after[|before| + 1 + i].cells.fillTmc <==> i == |window| - 1)
  }

  lemma EventOpenRows(cfg: Config, st: State)
    requires st.fatal.None? && st.window != [] && !st.inEvent
    requires Triggers(cfg.ifaTmcThreshold, MotionOf(st.window[|st.window| - 1]))
    ensures var r := Analyse(cfg, st);
      && r.inEvent && r.countInFlightAnalysis == st.countInFlightAnalysis + 1
      && r.analysisRows == st.analysisRows + [EventStart(st.countInFlightAnalysis + 1)] + WindowRows(cfg, st.window)
  {
  }

  lemma OpenedRows(cfg: Config, window: seq<Sample>, before: seq<AnalysisRow>, n: nat, after: seq<AnalysisRow>)
    requires after == before + [EventStart(n)] + WindowRows(cfg, window)
    ensures OpenedWith(after, before, n, window)
  {
    var rows := WindowRows(cfg, window);
    var pre := before + [EventStart(n)];
    assert |pre| == |before| + 1 && pre[..|before|] == before;
    forall i | 0 <= i < |window|
      ensures after[|before| + 1 + i].AnalysisRecord? && after[|before| + 1 + i].sample == window[i]
      ensures after[|before| + 1 + i].cells.fillTmc <==> i == |window| - 1
    {
      assert (pre + rows)[|pre| + i] == rows[i];
      assert rows[i] == AnalysisRecord(window[i], WriteRecord(cfg, window[i], false, i == |window| - 1));
    }
  }

  /** The sample that ends an event is written unhighlighted, then the end row and a spacer. */
  lemma EventClosesWithEndRow(cfg: Config, st: State)
    requires st.fatal.None? && st.window != [] && st.inEvent
    requires Closes(MotionOf(st.window[|st.window| - 1]))
    ensures var r := Analyse(cfg, st);
      var k := |st.analysisRows|;
      && !r.inEvent && r.countInFlightAnalysis == st.countInFlightAnalysis
      && |r.analysisRows| == k + 3 && r.analysisRows[..k] == st.analysisRows
      && r.analysisRows[k].AnalysisRecord? && r.analysisRows[k].sample == st.window[|st.window| - 1]
      && !r.analysisRows[k].cells.fillTmc
      && r.analysisRows[k + 1] == EventEnd(st.countInFlightAnalysis) && r.analysisRows[k + 2] == Spacer
  {
  }

  /**
   * Inside an event, a sample that does not close it is written as one
   * highlighted record row; the event stays open and its number is kept.
   */
  lemma EventContinuesWithRecord(cfg: Config, st: State)
    requires st.fatal.None? && st.window != [] && st.inEvent
    requires !Closes(MotionOf(st.window[|st.window| - 1]))
    ensures var r := Analyse(cfg, st);
      var k := |st.analysisRows|;
      && r == st.(analysisRows := r.analysisRows)
      && |r.analysisRows| == k + 1 && r.analysisRows[..k] == st.analysisRows
      && r.analysisRows[k].AnalysisRecord? && r.analysisRows[k].sample == st.window[|st.window| - 1]
      && r.analysisRows[k].cells == WriteRecord(cfg, st.window[|st.window| - 1], false, true)
      && r.analysisRows[k].cells.fillTmc && !r.analysisRows[k].cells.fillYear
  {
  }

  /** Outside an event, a sample that does not trigger one writes nothing to the analysis sheet. */
  lemma QuietSampleWritesNoAnalysis(cfg: Config, st: State)
    requires st.fatal.None? && st.window != [] && !st.inEvent
    requires !Triggers(cfg.ifaTmcThreshold, MotionOf(st.window[|st.window| - 1]))
    ensures Analyse(cfg, st) == st
  {
  }
}
