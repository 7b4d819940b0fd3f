/**
 * The parser as it runs: its module-level globals as the fields of one
 * object, updated in place line by line. Every method is proved to leave the
 * object in the state the matching step function of `Machine` computes from
 * the state before it.
 */
module Pipeline {
  import opened Wrappers
  import opened Text
  import opened Timestamps
  import opened Telemetry
  import opened Policies
  import opened Machine
  import opened Invariants

  /** The banner page's globals: the locomotive, its wheel calibration, and the workbooks created. */
  datatype Banner = Banner(locoNumber: string, calibration: Option<Calibration>, workbooks: nat)

  /** The page of the previous line and the page now being read. */
  datatype Pages = Pages(previous: int, current: int)

  /** The date filter's globals, with the count of epoch-year samples. */
  datatype Dates = Dates(oldRecord: Option<DateTime>, writing: bool, firstWritten: Option<DateTime>,
                         lastNonEpochWritten: Option<DateTime>, lastWritten: Option<DateTime>, epochEvents: nat)

  /** The previous written sample's speed, traction motor current, throttle and brake-pipe pressure. */
  datatype Previous = Previous(motion: Motion, bp: int)

  /** The open run of stationary samples, the rows hidden so far, and the samples summarised so far. */
  datatype StationaryRun = StationaryRun(length: nat, first: string, last: string, hiddenRows: seq<nat>, summarised: nat)

  /** The rows of the three sheets, with the count of sample rows written. */
  datatype Workbook = Workbook(data: seq<DataRow>, events: seq<EventRow>, analysis: seq<AnalysisRow>, samples: nat)

  /** The in-flight analysis window, whether an event is open, and the events opened so far. */
  datatype Flight = Flight(window: seq<Sample>, inEvent: bool, events: nat)

  class Extraction {
    const cfg: Config
    const startEpoch: int
    const endEpoch: int

    var banner: Banner
    var pages: Pages
    var dates: Dates
    var previous: Previous
    var run: StationaryRun
    var book: Workbook
    var flight: Flight
    var fatal: Option<Fatal>

    /** The globals as one value. */
    function Snapshot(): State
      reads this
    {
      State(startEpoch, endEpoch, banner.locoNumber, pages.previous, pages.current, banner.calibration,
            banner.workbooks, dates.oldRecord, dates.writing, dates.firstWritten, dates.lastNonEpochWritten,
            dates.lastWritten, previous.motion, previous.bp, run.length, run.first, run.last, run.hiddenRows,
            book.data, book.events, book.analysis, flight.window, flight.inEvent, book.samples,
            dates.epochEvents, run.summarised, flight.events, fatal)
    }

    /** The globals at import time, with the filter bounds read from the configuration. */
    constructor (cfg: Config)
      ensures this.cfg == cfg && Snapshot() == Init(cfg)
    {
      this.cfg := cfg;
      var start := GetEpoch(cfg.filterDates, cfg.startTimestamp);
      var end := GetEpoch(cfg.filterDates, cfg.endTimestamp);
      startEpoch := if start.Some? then start.value else 0;
      endEpoch := if end.Some? then end.value else 0;
      banner := Banner("", None, 0);
      pages := Pages(0, 0);
      dates := Dates(None, true, None, None, None, 0);
      previous := Previous(Motion(-1, -1, ""), -1);
      run := StationaryRun(0, "", "", [], 0);
      book := Workbook([], [], [], 0);
      flight := Flight([], false, 0);
      fatal := if start.None? || end.None? then Some(BadTimestamp) else None;
    }

    /** `main`'s read loop: every raw line, split at form feeds, one logical line at a time. */
    method Run(raws: seq<string>)
      modifies this
      ensures Snapshot() == ProcessInput(cfg, old(Snapshot()), raws)
    {
      ghost var target := ProcessInput(cfg, Snapshot(), raws);
      var i := 0;
      while i < |raws|
        invariant 0 <= i <= |raws|
        invariant ProcessInput(cfg, Snapshot(), raws[i..]) == target
      {
        assert raws[i..][1..] == raws[i + 1..];
        ProcessRaw(raws[i]);
        i := i + 1;
      }
    }

    /** The logical lines of one raw line, in order. */
    method ProcessRaw(raw: string)
      modifies this
      ensures Snapshot() == ProcessLines(cfg, old(Snapshot()), LogicalLines(raw))
    {
      var lines := LogicalLines(raw);
      ghost var target := ProcessLines(cfg, Snapshot(), lines);
      var j := 0;
      while j < |lines|
        invariant 0 <= j <= |lines|
        invariant ProcessLines(cfg, Snapshot(), lines[j..]) == target
      {
        assert lines[j..][1..] == lines[j + 1..];
        ProcessLine(lines[j]);
        j := j + 1;
      }
    }

    /** `process_line`. */
    method ProcessLine(line: string)
      modifies this
      ensures Snapshot() == Machine.ProcessLine(cfg, old(Snapshot()), line)
    {
      if fatal.Some? || line == [] {
        return;
      }
      if Contains(line, "Page") {
        var n := GetPageNumber(line);
        ghost var before := Snapshot();
        if n.None? {
          fatal := Some(MalformedPageNumber);
        } else {
          pages := pages.(current := n.value);
          assert Snapshot() == before.(currentPage := n.value);
        }
      } else if pages.previous > 1 {
        DataPageLine(line);
      } else {
        BannerLine(line);
      }
    }

    /** A line after the banner page: a sample, an annotation, or a skipped line. */
    method DataPageLine(line: string)
      requires fatal.None? && line != []
      modifies this
      ensures Snapshot() == Machine.DataPageLine(cfg, old(Snapshot()), line)
    {
      if SkipLineFound(cfg.skipListWords, line) {
        return;
      }
      if IsDigit(line[0]) {
        ProcessSample(line);
      } else {
        WriteAnnotation(line, true);
      }
      if fatal.None? {
        pages := pages.(previous := pages.current);
      }
    }

    /** A line of the banner page. */
    method BannerLine(line: string)
      requires fatal.None?
      modifies this
      ensures Snapshot() == Machine.BannerLine(cfg, old(Snapshot()), line)
    {
      if pages.current == 2 && pages.previous == 1 {
        CreateSink();
        return;
      }
      pages := pages.(previous := pages.current);
      if Contains(line, "Locomotive Number") {
        var words := Words(line);
        if words == [] {
          fatal := Some(MalformedField);
        } else {
          banner := banner.(locoNumber := words[|words| - 1]);
        }
      } else if FactorIsZero(banner.calibration) && Contains(line, "Circumference") && Contains(line, "Diameter") {
        Calibrate(line);
      }
    }

    /** `create_workbook`. */
    method CreateSink()
      requires fatal.None?
      modifies this
      ensures Snapshot() == Machine.CreateSink(cfg, old(Snapshot()))
    {
      if banner.calibration.None? || banner.locoNumber !in cfg.wheelDiaActualMm {
        fatal := Some(SinkSetup);
        return;
      }
      banner := banner.(workbooks := banner.workbooks + 1);
      book := book.(data := [], events := [], analysis := []);
      pages := pages.(previous := pages.current);
    }

    /** The wheel-diameter line. */
    method Calibrate(line: string)
      requires fatal.None?
      modifies this
      ensures Snapshot() == Machine.Calibrate(cfg, old(Snapshot()), line)
    {
      var loco := banner.locoNumber;
      if loco == "" {
        fatal := Some(NoLocomotiveNumber);
        return;
      }
      if loco !in cfg.wheelDiaActualMm {
        fatal := Some(NoWheelDiameter(loco));
        return;
      }
      var words := Words(line);
      if words == [] {
        fatal := Some(MalformedField);
        return;
      }
      var diameter := words[|words| - 1];
      if !DecimalText(diameter) || ZeroText(diameter) {
        fatal := Some(MalformedDiameter);
      } else {
        banner := banner.(calibration := Some(Calibration(cfg.wheelDiaActualMm[loco], diameter)));
      }
    }

    /** `write_annotation`: read the annotation's date and time from its last two words. */
    method WriteAnnotation(line: string, toEvents: bool)
      requires fatal.None?
      modifies this
      ensures Snapshot() == Machine.WriteAnnotation(cfg, old(Snapshot()), line, toEvents)
    {
      var words := Words(line);
      if words == [] {
        fatal := Some(MalformedField);
        return;
      }
      var date := ConvertDate(words[|words| - 1]);
      if date.None? || |words| < 2 {
        fatal := Some(MalformedField);
        return;
      }
      var dt := ApplyTimeAdjustment(date.value, RemoveAll(words[|words| - 2], '-'), cfg.tsAdjustment);
      if dt.None? {
        fatal := Some(BadTimestamp);
        return;
      }
      PlaceAnnotation(words, dt.value, toEvents);
    }

    /** The range check and the writes of an annotation whose date and time are known. */
    method PlaceAnnotation(words: seq<string>, dt: DateTime, toEvents: bool)
      requires fatal.None? && |words| >= 2
      modifies this
      ensures Snapshot() == Machine.PlaceAnnotation(cfg, old(Snapshot()), words, dt, toEvents)
    {
      var epoch := GetEpoch(cfg.filterDates, dt.0 + " " + dt.1);
      if epoch.None? {
        fatal := Some(BadTimestamp);
        return;
      }
      if startEpoch > 0 && !InRange(epoch.value, startEpoch, endEpoch) {
        return;
      }
      if banner.workbooks == 0 {
        fatal := Some(NoSink);
        return;
      }
      var text := Join(words[..|words| - 2], " ");
      var note := NoteRow(dt.0, dt.1, text);
      if !toEvents {
        book := book.(data := book.data + [note]);
        return;
      }
      var offset := IntervalOffset(cfg, dates.oldRecord, dt);
      if offset.None? {
        fatal := Some(BadTimestamp);
        return;
      }
      var prior := PrevColumns(dates.oldRecord);
      var interval := if StartsWith(words[0], "Power") then Some(Interval(prior.0, prior.1, offset.value)) else None;
      book := book.(data := book.data + [note], events := book.events + [EventRow(dt.0, dt.1, text, interval)]);
    }

    /** `process_sample`: parse, remember the sample's date and time, then filter and write. */
    method ProcessSample(line: string)
      requires fatal.None?
      modifies this
      ensures Snapshot() == Machine.ProcessSample(cfg, old(Snapshot()), line)
    {
      var parsed := ParseSample(cfg, line);
      if parsed.Err? {
        fatal := Some(parsed.error);
        return;
      }
      var s := parsed.value;
      ghost var before := Snapshot();
      dates := dates.(oldRecord := Some((s.date, s.time)));
      assert Snapshot() == before.(oldRecord := Some((s.date, s.time)));
      FilterSample(s, Slice(line, 0, 20));
    }

    /** The date filter on a parsed sample, and the writes when it passes. */
    method FilterSample(s: Sample, stamp: string)
      requires fatal.None?
      modifies this
      ensures Snapshot() == Machine.FilterSample(cfg, old(Snapshot()), s, stamp)
    {
      var ok, isEpoch, accept := Admit(s);
      if !ok {
        fatal := Some(BadTimestamp);
      } else if accept {
        WriteSample(s, isEpoch, stamp);
      }
    }

    /** The epoch-year count and the filter's verdict on a sample; `ok` is false where its timestamp cannot be read. */
    method Admit(s: Sample) returns (ok: bool, isEpoch: bool, accept: bool)
      requires fatal.None?
      modifies this
      ensures ok ==> Machine.Admit(cfg, old(Snapshot()), s) == Some(Admission(Snapshot(), isEpoch, accept))
      ensures !ok ==> Machine.Admit(cfg, old(Snapshot()), s).None? && Snapshot() == old(Snapshot())
    {
      ok, isEpoch, accept := false, false, false;
      var epoch := GetEpoch(cfg.filterDates, s.date + " " + s.time);
      if epoch.None? {
        return;
      }
      ok := true;
      isEpoch := CheckForEpochYear(s.date, cfg.epochYear);
      var v := FilterStep(cfg.filterDates, cfg.epochTimestampsAllowed, dates.writing, isEpoch,
                          InRange(epoch.value, startEpoch, endEpoch));
      dates := dates.(writing := v.writing, epochEvents := dates.epochEvents + (if isEpoch then 1 else 0));
      accept := v.accept;
    }

    /** The writes for a sample that passed the filter. */
    method WriteSample(s: Sample, isEpoch: bool, stamp: string)
      requires fatal.None?
      modifies this
      ensures Snapshot() == Machine.WriteSample(cfg, old(Snapshot()), s, isEpoch, stamp)
    {
      if banner.workbooks == 0 {
        fatal := Some(NoSink);
        return;
      }
      ghost var before := Snapshot();
      if dates.firstWritten.None? {
        dates := dates.(firstWritten := Some((s.date, s.time)));
      }
      assert Snapshot() == if before.firstWritten.None? then before.(firstWritten := Some((s.date, s.time))) else before;
      BrakePipeNote(s, stamp);
      if fatal.None? {
        SuppressAndRecord(s, isEpoch, stamp);
      }
    }

    /** After the brake-pipe note: the stationary-run step, the record, and the count of samples written. */
    method SuppressAndRecord(s: Sample, isEpoch: bool, stamp: string)
      requires fatal.None?
      modifies this
      ensures Snapshot() == Machine.SuppressAndRecord(cfg, old(Snapshot()), s, isEpoch, stamp)
    {
      Suppress(s, stamp);
      if fatal.Some? {
        return;
      }
      RecordSample(s, isEpoch);
      if fatal.Some? {
        return;
      }
      book := book.(samples := book.samples + 1);
    }

    /** The brake-pipe annotation, written before the suppression step. */
    method BrakePipeNote(s: Sample, stamp: string)
      requires fatal.None?
      modifies this
      ensures Snapshot() == Machine.BrakePipeNote(cfg, old(Snapshot()), s, stamp)
    {
      var change := BpTransition(previous.bp, s.bp);
      if change.Some? {
        WriteAnnotation(BrakePipeText(cfg, previous.bp, s.bp, change.value, stamp), true);
      }
    }

    /** The stationary-run step: remember the row to hide, or summarise the run that ended. */
    method Suppress(s: Sample, stamp: string)
      requires fatal.None?
      modifies this
      ensures Snapshot() == Machine.Suppress(cfg, old(Snapshot()), s, stamp)
    {
      var o := RunStep(cfg.suppressStationaryEvents, run.length, previous.motion, MotionOf(s));
      if o.hidden {
        MarkHidden(s, o.length);
      } else if o.summary == 0 {
        run := run.(length := o.length);
      } else {
        SummariseRun(o.summary, stamp);
      }
    }

    /** A hidden sample: its row is listed, and the run's first and last times are kept. */
    method MarkHidden(s: Sample, length: nat)
      modifies this
      ensures Snapshot() == Machine.MarkHidden(old(Snapshot()), s, length)
    {
      run := run.(first := if run.length == 0 then s.time else run.first, last := s.time,
                  hiddenRows := run.hiddenRows + [FirstDataRow + |book.data|], length := length);
    }

    /** The end of a run of `n` hidden samples: the summary note, then the counters. */
    method SummariseRun(n: nat, stamp: string)
      requires fatal.None?
      modifies this
      ensures Snapshot() == Machine.SummariseRun(cfg, old(Snapshot()), n, stamp)
    {
      WriteAnnotation(SummaryText(n, run.first, run.last, stamp), false);
      if fatal.None? {
        run := run.(summarised := run.summarised + n, length := 0);
      }
    }

    /** `write_record` on the data sheet, the previous-sample globals, and the analysis window. */
    method RecordSample(s: Sample, isEpoch: bool)
      requires fatal.None?
      modifies this
      ensures Snapshot() == Machine.RecordSample(cfg, old(Snapshot()), s, isEpoch)
    {
      book := book.(data := book.data + [SampleRow(s, WriteRecord(cfg, s, isEpoch, false))]);
      previous := Previous(MotionOf(s), s.bp);
      dates := dates.(lastNonEpochWritten := if isEpoch then dates.lastNonEpochWritten else Some((s.date, s.time)),
                      lastWritten := Some((s.date, s.time)));
      if cfg.inFlightAnalysisEnabled {
        flight := flight.(window := Push(flight.window, s, cfg.ifaDequeMaxlen));
        PerformInFlightAnalysis();
      }
    }

    /** `perform_in_flight_analysis` on the newest sample of the window. */
    method PerformInFlightAnalysis()
      requires fatal.None?
      modifies this
      ensures Snapshot() == Analyse(cfg, old(Snapshot()))
    {
      var w := flight.window;
      if w == [] {
        fatal := Some(EmptyAnalysisWindow);
        return;
      }
      var cur := w[|w| - 1];
      var m := MotionOf(cur);
      if flight.inEvent {
        var row := AnalysisRecord(cur, WriteRecord(cfg, cur, false, !Closes(m)));
        if Closes(m) {
          book := book.(analysis := book.analysis + [row, EventEnd(flight.events), Spacer]);
          flight := flight.(inEvent := false);
        } else {
          book := book.(analysis := book.analysis + [row]);
        }
      } else if Triggers(cfg.ifaTmcThreshold, m) {
        flight := flight.(events := flight.events + 1);
        book := book.(analysis := book.analysis + [EventStart(flight.events)]);
        WriteWindow();
        flight := flight.(inEvent := true);
      }
    }

    /** The records of the whole window, oldest first, the newest highlighted. */
    method WriteWindow()
      modifies this
      ensures book == old(book).(analysis := old(book.analysis) + WindowRows(cfg, flight.window))
      ensures banner == old(banner) && pages == old(pages) && dates == old(dates) && previous == old(previous)
      ensures run == old(run) && flight == old(flight) && fatal == old(fatal)
    {
      var w := flight.window;
      var i := 0;
      while i < |w|
        invariant 0 <= i <= |w| && w == flight.window
        invariant book == old(book).(analysis := old(book.analysis) + WindowRows(cfg, w)[..i])
        invariant banner == old(banner) && pages == old(pages) && dates == old(dates) && previous == old(previous)
        invariant run == old(run) && flight == old(flight) && fatal == old(fatal)
      {
        book := book.(analysis := book.analysis + [AnalysisRecord(w[i], WriteRecord(cfg, w[i], false, i == |w| - 1))]);
        assert WindowRows(cfg, w)[..i + 1] == WindowRows(cfg, w)[..i] + [WindowRows(cfg, w)[i]];
        i := i + 1;
      }
      assert WindowRows(cfg, w)[..i] == WindowRows(cfg, w);
    }
  }

  /**
   * The program from start to end: a fresh parser reads the whole input. The
   * result is what the step functions compute, and unless the run stopped the
   * invariant holds, so the rows it hides are stationary sample rows.
   */
  method Extract(cfg: Config, raws: seq<string>) returns (e: Extraction)
    ensures e.Snapshot() == ProcessInput(cfg, Init(cfg), raws)
    ensures Valid(cfg, e.Snapshot())
  {
    e := new Extraction(cfg);
    e.Run(raws);
    RunKeepsValid(cfg, raws);
  }
}
