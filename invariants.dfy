/**
 * What stays true of the parser's state from line to line, as long as the
 * run has not stopped: the list of rows to hide names only stationary sample
 * rows of the data sheet, in increasing order; the suppression counters add
 * up; the analysis window holds the newest samples written and the event
 * flag is the one the written samples determine; the counters and the
 * previous-sample globals agree with the data sheet.
 */
module Invariants {
  import opened Wrappers
  import opened Text
  import opened Timestamps
  import opened Telemetry
  import opened Policies
  import opened Machine

  /** The samples on a data sheet, in order. */
  function Samples(rows: seq<DataRow>): (ss: seq<Sample>)
    ensures |ss| <= |rows|
    decreases |rows|
  {
    if rows == [] then []
    else Samples(rows[..|rows| - 1]) + (if rows[|rows| - 1].SampleRow? then [rows[|rows| - 1].sample] else [])
  }

  lemma SamplesAppend(rows: seq<DataRow>, row: DataRow)
    ensures Samples(rows + [row]) == Samples(rows) + (if row.SampleRow? then [row.sample] else [])
  {
    assert (rows + [row])[..|rows|] == rows;
  }

  function Motions(ss: seq<Sample>): (ms: seq<Motion>)
    ensures |ms| == |ss|
    ensures forall i | 0 <= i < |ss| :: ms[i] == MotionOf(ss[i])
  {
    seq(|ss|, i requires 0 <= i < |ss| => MotionOf(ss[i]))
  }

  lemma MotionsAppend(ss: seq<Sample>, s: Sample)
    ensures Motions(ss + [s]) == Motions(ss) + [MotionOf(s)]
  {
  }

  lemma EventOpenAppend(threshold: int, ms: seq<Motion>, m: Motion)
    ensures EventOpen(threshold, ms + [m]) == EventStep(threshold, EventOpen(threshold, ms), m)
  {
    assert (ms + [m])[..|ms|] == ms;
  }

  predicate AtRestRow(row: DataRow) {
    row.SampleRow? && AtRest(MotionOf(row.sample))
  }

  /** Every listed row is a stationary sample row of the sheet, and the list is increasing. */
  predicate HiddenRowsOk(hidden: seq<nat>, rows: seq<DataRow>) {
    && (forall i | 0 <= i < |hidden| ::
          FirstDataRow <= hidden[i] < FirstDataRow + |rows| && AtRestRow(rows[hidden[i] - FirstDataRow]))
    && (forall i, j | 0 <= i < j < |hidden| :: hidden[i] < hidden[j])
  }

  lemma HiddenRowsExtend(hidden: seq<nat>, rows: seq<DataRow>, more: seq<DataRow>)
    requires HiddenRowsOk(hidden, rows)
    ensures HiddenRowsOk(hidden, rows + more)
  {
    forall i | 0 <= i < |hidden|
      ensures FirstDataRow <= hidden[i] < FirstDataRow + |rows + more|
      ensures AtRestRow((rows + more)[hidden[i] - FirstDataRow])
    {
      assert (rows + more)[hidden[i] - FirstDataRow] == rows[hidden[i] - FirstDataRow];
    }
  }

  lemma HiddenRowsAdd(hidden: seq<nat>, rows: seq<DataRow>, s: Sample, cells: RecordRow)
    requires HiddenRowsOk(hidden, rows) && AtRest(MotionOf(s))
    ensures HiddenRowsOk(hidden + [FirstDataRow + |rows|], rows + [SampleRow(s, cells)])
  {
    HiddenRowsExtend(hidden, rows, [SampleRow(s, cells)]);
  }

  function LastSample(ss: seq<Sample>): Sample
    requires ss != []
  {
    ss[|ss| - 1]
  }

  /** The facts about one workbook's sheets. */
  predicate SheetInv(cfg: Config, st: State) {
    var ss := Samples(st.dataRows);
    && HiddenRowsOk(st.suppressedRows, st.dataRows)
    && |ss| == st.countDataSamples
    && (ss != [] ==> st.prev == MotionOf(LastSample(ss)) && st.prevBp == LastSample(ss).bp)
    && (cfg.inFlightAnalysisEnabled ==>
          && st.window == LastN(ss, cfg.ifaDequeMaxlen)
          && st.inEvent == EventOpen(cfg.ifaTmcThreshold, Motions(ss)))
  }

  /** The invariant of a live run. */
  predicate Valid(cfg: Config, st: State) {
    st.fatal.None? ==>
      && (st.runLength > 0 ==> cfg.suppressStationaryEvents && AtRest(st.prev))
      && st.countSuppressedEvents + st.runLength == |st.suppressedRows|
      && (cfg.inFlightAnalysisEnabled ==> |st.window| <= cfg.ifaDequeMaxlen)
      && (!cfg.inFlightAnalysisEnabled ==> st.window == [] && !st.inEvent && st.analysisRows == [])
      && (st.countDataSamples == 0 ==> st.prev == Motion(-1, -1, "") && st.prevBp == -1)
      && (st.workbooks == 0 ==>
            && st.dataRows == [] && st.eventRows == [] && st.analysisRows == [] && st.suppressedRows == []
            && st.window == [] && !st.inEvent && st.countDataSamples == 0)
      && (st.workbooks == 1 ==> SheetInv(cfg, st))
  }

  /** The invariant does not depend on the page, locomotive, filter or timestamp globals. */
  lemma ValidIgnores(cfg: Config, st: State, r: State)
    requires Valid(cfg, st)
    requires r.fatal == st.fatal && r.workbooks == st.workbooks
    requires r.runLength == st.runLength && r.prev == st.prev && r.prevBp == st.prevBp
    requires r.countSuppressedEvents == st.countSuppressedEvents && r.suppressedRows == st.suppressedRows
    requires r.window == st.window && r.inEvent == st.inEvent && r.countDataSamples == st.countDataSamples
    requires r.dataRows == st.dataRows && r.eventRows == st.eventRows && r.analysisRows == st.analysisRows
    ensures Valid(cfg, r)
  {
  }

  lemma InitValid(cfg: Config)
    ensures Valid(cfg, Init(cfg))
  {
  }

  // ---------------------------------------------------------------------
  // Annotations
  // ---------------------------------------------------------------------

  /** A note row leaves the sheet facts as they were. */
  lemma SheetInvNote(cfg: Config, st: State, r: State, note: DataRow)
    requires SheetInv(cfg, st) && note.NoteRow?
    requires r.dataRows == st.dataRows + [note] && r.suppressedRows == st.suppressedRows
    requires r.countDataSamples == st.countDataSamples && r.prev == st.prev && r.prevBp == st.prevBp
    requires r.window == st.window && r.inEvent == st.inEvent
    ensures SheetInv(cfg, r)
  {
    SamplesAppend(st.dataRows, note);
    assert Samples(r.dataRows) == Samples(st.dataRows);
    HiddenRowsExtend(st.suppressedRows, st.dataRows, [note]);
  }

  /** Appending a note row, and any event row, once a workbook exists keeps the invariant. */
  lemma NotesKeepValid(cfg: Config, st: State, r: State)
    requires st.fatal.None? && Valid(cfg, st)
    requires r == st.(dataRows := r.dataRows, eventRows := r.eventRows)
    requires r.dataRows == st.dataRows
          || (|r.dataRows| == |st.dataRows| + 1 && r.dataRows[..|st.dataRows|] == st.dataRows
              && r.dataRows[|st.dataRows|].NoteRow? && st.workbooks > 0)
    requires r.eventRows == st.eventRows || st.workbooks > 0
    ensures Valid(cfg, r)
  {
    if r.dataRows != st.dataRows {
      var note := r.dataRows[|st.dataRows|];
      assert r.dataRows == st.dataRows + [note];
      if st.workbooks == 1 {
        SheetInvNote(cfg, st, r, note);
      }
    } else {
      ValidIgnores(cfg, st, r.(eventRows := st.eventRows));
    }
  }

  lemma AnnotationKeepsValid(cfg: Config, st: State, line: string, toEvents: bool)
    requires st.fatal.None? && Valid(cfg, st)
    ensures Valid(cfg, WriteAnnotation(cfg, st, line, toEvents))
  {
    var r := WriteAnnotation(cfg, st, line, toEvents);
    if r.fatal.None? {
      NotesKeepValid(cfg, st, r);
    }
  }

  lemma BrakePipeKeepsValid(cfg: Config, st: State, s: Sample, stamp: string)
    requires st.fatal.None? && Valid(cfg, st)
    ensures var r := BrakePipeNote(cfg, st, s, stamp);
      && Valid(cfg, r)
      && (r.fatal.None? ==>
            r.workbooks == st.workbooks && r.runLength == st.runLength
            && r.prev == st.prev && r.suppressedRows == st.suppressedRows)
  {
    match BpTransition(st.prevBp, s.bp)
    case None =>
    case Some(change) => AnnotationKeepsValid(cfg, st, BrakePipeText(cfg, st.prevBp, s.bp, change, stamp), true);
  }

  // ---------------------------------------------------------------------
  // Samples
  // ---------------------------------------------------------------------

  /** The sheet facts after the suppression step and the sample row. */
  lemma SheetStep(cfg: Config, a: State, hidden: bool, supp: seq<nat>, data: seq<DataRow>,
                  s: Sample, cells: RecordRow, d: State)
    requires SheetInv(cfg, a)
    requires hidden ==> AtRest(MotionOf(s)) && data == a.dataRows
                        && supp == a.suppressedRows + [FirstDataRow + |a.dataRows|]
    requires !hidden ==> supp == a.suppressedRows
                         && (data == a.dataRows
                             || (|data| == |a.dataRows| + 1 && data[..|a.dataRows|] == a.dataRows
                                 && data[|a.dataRows|].NoteRow?))
    requires d.suppressedRows == supp && d.dataRows == data + [SampleRow(s, cells)]
    requires d.countDataSamples == a.countDataSamples + 1 && d.prev == MotionOf(s) && d.prevBp == s.bp
    requires cfg.inFlightAnalysisEnabled ==>
      d.window == Push(a.window, s, cfg.ifaDequeMaxlen)
      && d.inEvent == EventStep(cfg.ifaTmcThreshold, a.inEvent, MotionOf(s))
    ensures SheetInv(cfg, d)
  {
    var before := Samples(a.dataRows);
    assert Samples(data) == before by {
      if data != a.dataRows {
        assert data == a.dataRows + [data[|a.dataRows|]];
        SamplesAppend(a.dataRows, data[|a.dataRows|]);
      }
    }
    SamplesAppend(data, SampleRow(s, cells));
    assert Samples(d.dataRows) == before + [s];
    if hidden {
      HiddenRowsAdd(a.suppressedRows, a.dataRows, s, cells);
    } else if data == a.dataRows {
      HiddenRowsExtend(a.suppressedRows, a.dataRows, [SampleRow(s, cells)]);
    } else {
      assert d.dataRows == a.dataRows + [data[|a.dataRows|], SampleRow(s, cells)];
      HiddenRowsExtend(a.suppressedRows, a.dataRows, [data[|a.dataRows|], SampleRow(s, cells)]);
    }
    if cfg.inFlightAnalysisEnabled {
      PushKeepsLastN(before, s, cfg.ifaDequeMaxlen);
      MotionsAppend(before, s);
      EventOpenAppend(cfg.ifaTmcThreshold, Motions(before), MotionOf(s));
    }
  }

  /** The suppression step, the sample row and the analysis keep the invariant. */
  lemma SuppressRecordKeepValid(cfg: Config, a: State, s: Sample, isEpoch: bool, stamp: string)
    requires a.fatal.None? && Valid(cfg, a) && a.workbooks > 0
    ensures Valid(cfg, SuppressAndRecord(cfg, a, s, isEpoch, stamp))
  {
    var b := Suppress(cfg, a, s, stamp);
    if b.fatal.None? {
      SuppressEffect(cfg, a, s, stamp);
      RecordKeepsValid(cfg, a, b, s, isEpoch, RunStep(cfg.suppressStationaryEvents, a.runLength, a.prev, MotionOf(s)));
    }
  }

  /** The sample row and the analysis after a suppression step `b` that left the run as `o` says. */
  lemma RecordKeepsValid(cfg: Config, a: State, b: State, s: Sample, isEpoch: bool, o: RunOutcome)
    requires a.fatal.None? && Valid(cfg, a) && a.workbooks > 0
    requires o == RunStep(cfg.suppressStationaryEvents, a.runLength, a.prev, MotionOf(s))
    requires b == a.(firstSuppressed := b.firstSuppressed, lastSuppressed := b.lastSuppressed,
                     suppressedRows := b.suppressedRows, runLength := o.length,
                     countSuppressedEvents := b.countSuppressedEvents, dataRows := b.dataRows)
    requires b.countSuppressedEvents == a.countSuppressedEvents + o.summary
    requires b.suppressedRows == a.suppressedRows + (if o.hidden then [FirstDataRow + |a.dataRows|] else [])
    requires o.hidden ==> b.dataRows == a.dataRows
    requires b.dataRows == a.dataRows || (|b.dataRows| == |a.dataRows| + 1 && b.dataRows[..|a.dataRows|] == a.dataRows
                                          && b.dataRows[|a.dataRows|].NoteRow?)
    ensures var c := RecordSample(cfg, b, s, isEpoch);
      c.fatal.None? ==> Valid(cfg, c.(countDataSamples := c.countDataSamples + 1))
  {
    var c := RecordSample(cfg, b, s, isEpoch);
    if c.fatal.None? {
      var d := c.(countDataSamples := c.countDataSamples + 1);
      assert d.runLength == o.length && d.prev == MotionOf(s);
      assert d.countSuppressedEvents + d.runLength == |d.suppressedRows|;
      if a.workbooks == 1 {
        RecordKeepsSheet(cfg, a, b, s, isEpoch, o);
      }
    }
  }

  /** The sheet facts of `RecordKeepsValid`. */
  lemma RecordKeepsSheet(cfg: Config, a: State, b: State, s: Sample, isEpoch: bool, o: RunOutcome)
    requires a.fatal.None? && SheetInv(cfg, a)
    requires o.hidden ==> AtRest(MotionOf(s))
    requires b == a.(firstSuppressed := b.firstSuppressed, lastSuppressed := b.lastSuppressed,
                     suppressedRows := b.suppressedRows, runLength := o.length,
                     countSuppressedEvents := b.countSuppressedEvents, dataRows := b.dataRows)
    requires b.countSuppressedEvents == a.countSuppressedEvents + o.summary
    requires b.suppressedRows == a.suppressedRows + (if o.hidden then [FirstDataRow + |a.dataRows|] else [])
    requires o.hidden ==> b.dataRows == a.dataRows
    requires b.dataRows == a.dataRows || (|b.dataRows| == |a.dataRows| + 1 && b.dataRows[..|a.dataRows|] == a.dataRows
                                          && b.dataRows[|a.dataRows|].NoteRow?)
    ensures var c := RecordSample(cfg, b, s, isEpoch);
      c.fatal.None? ==> SheetInv(cfg, c.(countDataSamples := c.countDataSamples + 1))
  {
    var c := RecordSample(cfg, b, s, isEpoch);
    if c.fatal.None? {
      var d := c.(countDataSamples := c.countDataSamples + 1);
      SheetStep(cfg, a, o.hidden, b.suppressedRows, b.dataRows, s, WriteRecord(cfg, s, isEpoch, false), d);
    }
  }

  lemma WriteSampleKeepsValid(cfg: Config, st: State, s: Sample, isEpoch: bool, stamp: string)
    requires st.fatal.None? && Valid(cfg, st)
    ensures Valid(cfg, WriteSample(cfg, st, s, isEpoch, stamp))
  {
    if st.workbooks > 0 {
      var first := if st.firstWritten.None? then st.(firstWritten := Some((s.date, s.time))) else st;
      var noted := BrakePipeNote(cfg, first, s, stamp);
      BrakePipeKeepsValid(cfg, first, s, stamp);
      if noted.fatal.None? {
        SuppressRecordKeepValid(cfg, noted, s, isEpoch, stamp);
      }
    }
  }

  lemma FilterSampleKeepsValid(cfg: Config, st: State, s: Sample, stamp: string)
    requires st.fatal.None? && Valid(cfg, st)
    ensures Valid(cfg, FilterSample(cfg, st, s, stamp))
  {
    match Admit(cfg, st, s)
    case None =>
    case Some(a) =>
      ValidIgnores(cfg, st, a.state);
      if a.accept {
        WriteSampleKeepsValid(cfg, a.state, s, a.isEpoch, stamp);
      }
  }

  lemma ProcessSampleKeepsValid(cfg: Config, st: State, line: string)
    requires st.fatal.None? && Valid(cfg, st)
    ensures Valid(cfg, ProcessSample(cfg, st, line))
  {
    match ParseSample(cfg, line)
    case Err(e) =>
    case Ok(s) =>
      var parsed := st.(oldRecord := Some((s.date, s.time)));
      ValidIgnores(cfg, st, parsed);
      FilterSampleKeepsValid(cfg, parsed, s, Slice(line, 0, 20));
  }

  // ---------------------------------------------------------------------
  // Lines and the whole input
  // ---------------------------------------------------------------------

  lemma CreateSinkKeepsValid(cfg: Config, st: State)
    requires st.fatal.None? && Valid(cfg, st)
    ensures Valid(cfg, CreateSink(cfg, st))
  {
  }

  lemma CalibrateKeepsValid(cfg: Config, st: State, line: string)
    requires st.fatal.None? && Valid(cfg, st)
    ensures Valid(cfg, Calibrate(cfg, st, line))
  {
    var r := Calibrate(cfg, st, line);
    if r.fatal.None? {
      ValidIgnores(cfg, st, r);
    }
  }

  lemma BannerKeepsValid(cfg: Config, st: State, line: string)
    requires st.fatal.None? && Valid(cfg, st)
    ensures Valid(cfg, BannerLine(cfg, st, line))
  {
    if st.currentPage == 2 && st.oldPage == 1 {
      CreateSinkKeepsValid(cfg, st);
    } else {
      var st1 := st.(oldPage := st.currentPage);
      ValidIgnores(cfg, st, st1);
      if Contains(line, "Locomotive Number") {
        var words := Words(line);
        if words != [] {
          ValidIgnores(cfg, st, st1.(locoNumber := words[|words| - 1]));
        }
      } else if FactorIsZero(st1.calibration) && Contains(line, "Circumference") && Contains(line, "Diameter") {
        CalibrateKeepsValid(cfg, st1, line);
      }
    }
  }

  lemma DataPageKeepsValid(cfg: Config, st: State, line: string)
    requires st.fatal.None? && Valid(cfg, st) && line != []
    ensures Valid(cfg, DataPageLine(cfg, st, line))
  {
    if !SkipLineFound(cfg.skipListWords, line) {
      var next := if IsDigit(line[0]) then ProcessSample(cfg, st, line) else WriteAnnotation(cfg, st, line, true);
      if IsDigit(line[0]) {
        ProcessSampleKeepsValid(cfg, st, line);
      } else {
        AnnotationKeepsValid(cfg, st, line, true);
      }
      if next.fatal.None? {
        ValidIgnores(cfg, next, next.(oldPage := next.currentPage));
      }
    }
  }

  lemma ProcessLineKeepsValid(cfg: Config, st: State, line: string)
    requires Valid(cfg, st)
    ensures Valid(cfg, ProcessLine(cfg, st, line))
  {
    if st.fatal.None? && line != [] {
      if Contains(line, "Page") {
        match GetPageNumber(line)
        case None =>
        case Some(n) => ValidIgnores(cfg, st, st.(currentPage := n));
      } else if st.oldPage > 1 {
        DataPageKeepsValid(cfg, st, line);
      } else {
        BannerKeepsValid(cfg, st, line);
      }
    }
  }

  lemma {:induction false} ProcessLinesKeepValid(cfg: Config, st: State, lines: seq<string>)
    requires Valid(cfg, st)
    ensures Valid(cfg, ProcessLines(cfg, st, lines))
    decreases |lines|
  {
    if lines != [] {
      ProcessLineKeepsValid(cfg, st, lines[0]);
      ProcessLinesKeepValid(cfg, ProcessLine(cfg, st, lines[0]), lines[1..]);
    }
  }

  lemma {:induction false} ProcessInputKeepsValid(cfg: Config, st: State, raws: seq<string>)
    requires Valid(cfg, st)
    ensures Valid(cfg, ProcessInput(cfg, st, raws))
    decreases |raws|
  {
    if raws != [] {
      ProcessLinesKeepValid(cfg, st, LogicalLines(raws[0]));
      ProcessInputKeepsValid(cfg, ProcessLines(cfg, st, LogicalLines(raws[0])), raws[1..]);
    }
  }

  /**
   * After any input, unless the run stopped: every row listed for hiding is a
   * stationary sample row of the single workbook's data sheet, listed once and
   * in order, and the hidden rows are those already summarised plus the open run.
   */
  lemma RunKeepsValid(cfg: Config, raws: seq<string>)
    ensures Valid(cfg, ProcessInput(cfg, Init(cfg), raws))
  {
    InitValid(cfg);
    ProcessInputKeepsValid(cfg, Init(cfg), raws);
  }
}
