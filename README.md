# Quantum data recorder text extraction, in Dafny

This project models the line-oriented state machine of `quantum_txt_extraction.py`.
The machine reads the paginated text export of a Quantum locomotive data recorder (QDP).
It turns each line into rows of a workbook:

- the data sheet: one row per accepted sample, plus annotation notes;
- the "Logger Events" sheet: one row per device annotation, with the interval columns for `Power…` entries;
- the "Event Analysis" sheet: the in-flight analysis of idle-throttle current events.

It also keeps the list of data-sheet rows to hide for stationary-locomotive suppression.
The workbook is modelled as three append-only sequences of row records and a sequence of hidden row numbers.
A `sys.exit` or an uncaught exception becomes a terminal `fatal` state that no later line changes.

The model is layered as the source is:

- `text.dfy` (`Text`): the Python string operations the parser relies on. These are `split()`, `split(c)`, `strip`, slicing, `in`, `int()`, `str()` and zero padding.
- `civil.dfy` (`Civil`): the proleptic Gregorian calendar of `datetime` for years 1 to 9999, and its correspondence with a count of naive seconds since 1970-01-01.
- `timestamps.dfy` (`Timestamps`): `convert_date`, `strptime`/`strftime` on `%Y/%m/%d %H:%M:%S`, `apply_time_adjustment`, `get_epoch` and `check_for_epoch_year`.
- `telemetry.dfy` (`Telemetry`): the configuration and the records:
  - the fixed-width sample parse;
  - `translate_tp`;
  - the Y/N flag marks of `write_record`;
  - `skip_line_found` and `get_page_number`.
- `policies.dfy` (`Policies`): the per-sample decisions as pure functions, with lemmas that say what each means over a whole run:
  - the date-range filter and its `writing_records_to_xls` flag;
  - brake-pipe transitions;
  - stationary-run suppression, including the `and`/`or` precedence of its exit test;
  - the bounded deque;
  - the event-of-interest machine.
- `machine.dfy` (`Machine`): the module globals as one `State` value. It defines `process_line` and everything it calls as functions from the old state to the new one, and the read loop of `main` over form-feed-split lines.
- `invariants.dfy` (`Invariants`): the invariant of a live run, proved to hold from the start and to be kept by every line. The invariant says:
  - every hidden row is a stationary sample row, and the list is increasing;
  - the suppressed-event counter plus the open run's length equals the number of hidden rows;
  - the analysis window holds the newest samples written;
  - the event flag is the one those samples determine;
  - the previous-sample globals describe the last sample row.
- `properties.dfy` (`Properties`): the behaviour the source promises, stated per line and per run.
- `pipeline.dfy` (`Pipeline`): the parser as it runs. A class `Extraction` holds the globals as fields updated in place. Each method is proved to produce the state the matching `Machine` function computes. `Extract` runs a whole input and returns an object whose state satisfies the run invariant.

Two details of the source that are easy to misread:

- An annotation's interval is measured from the last *parsed* sample. That sample's date and time are stored before the date filter runs (`quantum_txt_extraction.py:662-663`). It is neither the previous annotation nor the previous accepted record.
- The interval columns are written when the first word starts with the fixed text `Power`. No configured prefix is used.

The brake-pipe and summary annotation lines are built as their words joined by single spaces, then the sample's time and date. This is the same text as the concatenations at `quantum_txt_extraction.py:748`, `:751` and `:773`, written so that the model can state which words the note keeps.

## Model

| member | source | states |
|---|---|---|
| Text.ParseIntToString | quantum_txt_extraction.py:1133 | `int()` reads back every integer written by `str()` |
| Telemetry.TranslateTpOutcomes | quantum_txt_extraction.py:979-989 | a numeric throttle token is kept; the idle digit 0 is returned exactly for a non-numeric token starting with I or i when idle-as-digit is set; otherwise the translation of the upper-cased token, or the token with " (Unknown)" |
| Telemetry.FlagMark | quantum_txt_extraction.py:971-973 | a flag cell is "Y" or "N", and "Y" exactly when the flag is "1" |
| Telemetry.Marks | quantum_txt_extraction.py:971-973 | one mark per flag, in order, each the flag's mark |
| Telemetry.MarksRecoverFlags | quantum_txt_extraction.py:971-973 | the marks tell exactly which flags were "1" and which were not |
| Telemetry.SkipLineFound | quantum_txt_extraction.py:1081-1089 | a line is skipped exactly when some skip-list word occurs in it |
| Telemetry.PageNumberRead | quantum_txt_extraction.py:1128-1134 | the page number is the integer written as the fifth whitespace token |
| Telemetry.PageNumberMissing | quantum_txt_extraction.py:1128-1134 | a line with fewer than five tokens has no page number (the IndexError) |
| Telemetry.ParseSample | quantum_txt_extraction.py:646-707 | a parsed sample carries exactly the expected number of flags; a wrong flag count is the flag-count fatal error naming the expected and the found count |
| Timestamps.ConvertDate | quantum_txt_extraction.py:992-998 | the result is "invalid" exactly when the text does not split into three '/'-separated parts |
| Timestamps.ConvertUsDate | quantum_txt_extraction.py:992-998 | "mm/dd/yyyy" becomes "yyyy/mm/dd" with the same digits |
| Timestamps.ParseRender | quantum_txt_extraction.py:1120-1125 | `strptime` reads back every valid reading written by `strftime` |
| Timestamps.RenderParse | quantum_txt_extraction.py:1120-1125 | a text `strptime` accepts is exactly what `strftime` writes for its reading |
| Timestamps.Shift | quantum_txt_extraction.py:1121-1123 | a shifted reading is valid and lies exactly `offset` seconds later on the naive clock |
| Timestamps.ShiftReversible | quantum_txt_extraction.py:1121-1123 | shifting by k and then by -k restores the reading |
| Timestamps.ApplyTimeAdjustment | quantum_txt_extraction.py:1112-1126 | an adjustment succeeds only on a date and time that `strptime` accepts |
| Timestamps.AdjustedReading | quantum_txt_extraction.py:1112-1126 | the adjusted date and time parse to the original reading moved by the offset |
| Timestamps.AdjustByZero | quantum_txt_extraction.py:1112-1126 | a zero adjustment leaves a parseable date and time unchanged |
| Timestamps.AdjustReversible | quantum_txt_extraction.py:1112-1126 | adjusting by k and then by -k restores the date and time |
| Timestamps.GetEpochOrder | quantum_txt_extraction.py:1092-1098 | with filtering on, epoch seconds order timestamps exactly as they are ordered in time |
| Timestamps.FourDigitYearText | quantum_txt_extraction.py:1005 | `str()` of a four-digit year is its zero-padded year field |
| Timestamps.EpochYearIsYearField | quantum_txt_extraction.py:1001-1007 | on a date that `strftime` wrote, the epoch-year substring test holds exactly when the year is the epoch year |
| Civil.FromNaiveSeconds | quantum_txt_extraction.py:1123 | `fromtimestamp` succeeds exactly for seconds within years 1 to 9999, and gives the valid reading of that second |
| Civil.NaiveSecondsRoundTrip | quantum_txt_extraction.py:1121-1123 | `fromtimestamp(timestamp(d))` is `d` for every valid reading |
| Civil.NaiveSecondsInjective | quantum_txt_extraction.py:1121 | two readings with the same seconds are the same reading |
| Civil.NaiveSecondsOrder | quantum_txt_extraction.py:1097 | one reading precedes another exactly when its seconds are smaller |
| Policies.FilterStep | quantum_txt_extraction.py:718-734 | with filtering off every sample is written and the flag is unchanged; an epoch-year sample is dropped when epoch records are disallowed or the writing flag is false; an out-of-range non-epoch sample is dropped and clears the flag; every accepted sample leaves the flag true; a sample is accepted exactly in the three writing cases |
| Policies.WritingIsLastNonEpoch | quantum_txt_extraction.py:718-734 | after any sequence of samples the writing flag says whether the most recent non-epoch sample was in range |
| Policies.FilterReference | quantum_txt_extraction.py:718-734 | sample i is written exactly when it is an in-range non-epoch sample, or an epoch-year sample (when allowed) whose latest preceding non-epoch sample was in range |
| Policies.BpTransition | quantum_txt_extraction.py:747-751 | a rise is reported exactly on 0 to positive pressure, a fall exactly on positive to 0 |
| Policies.RunStep | quantum_txt_extraction.py:761-775 | a row is hidden exactly when suppression is on and it and the previous sample are at rest; the run length and the summarised count together grow by exactly the hidden row; a summary closes the run; an open run only ever follows at-rest samples with suppression on |
| Policies.PrecedenceSlipHarmless | quantum_txt_extraction.py:771 | while a run is open only with suppression on, the exit test as written (the setting guarding only the speed term) behaves as the fully guarded test |
| Policies.RunEndsWhenMoving | quantum_txt_extraction.py:771-775 | an open run is summarised, with its whole length, by the first sample not at rest |
| Policies.LastN | quantum_txt_extraction.py:282 | the window is a suffix of the history of at most maxlen elements, and exactly maxlen once the history is that long |
| Policies.Push | quantum_txt_extraction.py:808 | appending to the bounded deque never exceeds maxlen and puts the new sample last |
| Policies.PushKeepsLastN | quantum_txt_extraction.py:808 | a deque kept by appending holds the last maxlen samples ever appended |
| Policies.TriggerKeepsOpen | quantum_txt_extraction.py:837-875 | with a non-negative threshold a sample that opens an event cannot also close it |
| Policies.EventOpenReference | quantum_txt_extraction.py:837-904 | after a run of samples an event is open exactly when some sample triggered one and no later sample closed it |
| Policies.EventOpenWitness | quantum_txt_extraction.py:837-904 | an open event has a triggering sample with no closing sample after it |
| Policies.EventOpenFromWitness | quantum_txt_extraction.py:837-904 | a triggering sample with no closing sample after it leaves an event open |
| Machine.Calibrate | quantum_txt_extraction.py:456-472 | the diameter line changes only the calibration, or stops the run and changes nothing else |
| Machine.WriteAnnotation | quantum_txt_extraction.py:563-618 | an annotation appends at most one note to the data sheet and at most one row to the events sheet (never when only the data sheet is asked for), writes only once a workbook exists, and changes nothing else |
| Machine.PlaceAnnotation | quantum_txt_extraction.py:584-618 | the same frame once the date and time are known |
| Machine.Admit | quantum_txt_extraction.py:710-734 | the filter fails exactly on an unreadable timestamp; otherwise it classifies the epoch year, counts an epoch-year sample whether or not it is kept, sets the writing flag and the verdict as the filter step decides, and changes nothing else |
| Machine.Suppress | quantum_txt_extraction.py:761-775 | a failing suppression step stops the run and changes nothing else |
| Machine.MarkHidden | quantum_txt_extraction.py:761-766 | a hidden sample lists the row it is about to occupy, keeps the run's first time, records its time as the last, and changes nothing else |
| Machine.SummariseRun | quantum_txt_extraction.py:771-775 | a closed run adds its length to the suppressed-event count, resets the run, and writes at most one note to the data sheet (that the note is written, and its words, is Properties.SummaryNoteWritten) |
| Machine.SuppressEffect | quantum_txt_extraction.py:761-775 | the suppression step changes only the run bookkeeping and the count, by the run step's outcome, with one hidden-row entry exactly for a hidden sample and at most one summary note |
| Machine.RecordSample | quantum_txt_extraction.py:781-809 | the sample row is appended with its cells; the previous-sample and last-written globals take the sample's values; the deque and the event flag step as the policies say; analysis off leaves the analysis untouched; only a zero-length deque can fail |
| Machine.WindowRows | quantum_txt_extraction.py:883-902 | the whole deque is written oldest to newest, only the newest with its current cell highlighted |
| Machine.Analyse | quantum_txt_extraction.py:815-907 | an empty deque fails; otherwise the event flag takes one event-machine step on the newest sample, analysis rows are only appended, and nothing else but the event count changes (the rows of each case are stated by Properties.EventOpensWithWindow, Properties.EventContinuesWithRecord, Properties.EventClosesWithEndRow and Properties.QuietSampleWritesNoAnalysis) |
| Invariants.InitValid | quantum_txt_extraction.py:237-255 | the initial globals satisfy the run invariant |
| Invariants.NotesKeepValid | quantum_txt_extraction.py:563-618 | appending notes and event rows to a workbook keeps the invariant |
| Invariants.AnnotationKeepsValid | quantum_txt_extraction.py:563-618 | every annotation keeps the invariant |
| Invariants.BrakePipeKeepsValid | quantum_txt_extraction.py:747-751 | the brake-pipe note keeps the invariant and leaves the run bookkeeping alone |
| Invariants.SheetStep | quantum_txt_extraction.py:761-809 | one written sample, hidden or not, keeps the sheet invariant: hidden rows are stationary sample rows in increasing order, the deque and the event flag follow the written samples |
| Invariants.SuppressRecordKeepValid | quantum_txt_extraction.py:761-811 | suppression followed by the record and the sample count keeps the invariant |
| Invariants.RecordKeepsValid | quantum_txt_extraction.py:781-811 | the record and the count keep the invariant after any suppression step |
| Invariants.RecordKeepsSheet | quantum_txt_extraction.py:781-811 | the record and the count keep the sheet invariant after any suppression step |
| Invariants.WriteSampleKeepsValid | quantum_txt_extraction.py:737-811 | writing an accepted sample keeps the invariant |
| Invariants.FilterSampleKeepsValid | quantum_txt_extraction.py:710-811 | filtering a sample keeps the invariant |
| Invariants.ProcessSampleKeepsValid | quantum_txt_extraction.py:620-813 | a sample line keeps the invariant |
| Invariants.CreateSinkKeepsValid | quantum_txt_extraction.py:442-445 | creating the workbook keeps the invariant |
| Invariants.CalibrateKeepsValid | quantum_txt_extraction.py:456-472 | the diameter line keeps the invariant |
| Invariants.BannerKeepsValid | quantum_txt_extraction.py:438-473 | a banner-page line keeps the invariant |
| Invariants.DataPageKeepsValid | quantum_txt_extraction.py:424-437 | a line after the banner page keeps the invariant |
| Invariants.ProcessLineKeepsValid | quantum_txt_extraction.py:404-473 | every line keeps the invariant |
| Invariants.ProcessLinesKeepValid | quantum_txt_extraction.py:346-349 | the form-feed pieces of a raw line keep the invariant |
| Invariants.ProcessInputKeepsValid | quantum_txt_extraction.py:340-349 | a whole input keeps the invariant |
| Invariants.RunKeepsValid | quantum_txt_extraction.py:340-349 | after any input, the hidden rows are stationary sample rows, the count of suppressed events plus the open run equals the hidden rows, and the deque and event flag follow the samples written |
| Properties.StoppedRunIgnoresLines | quantum_txt_extraction.py:346-349 | after a fatal stop no further line changes anything |
| Properties.StoppedRunIgnoresInput | quantum_txt_extraction.py:340-349 | after a fatal stop no further input changes anything |
| Properties.PageLineSetsPage | quantum_txt_extraction.py:418-422 | a line containing "Page" changes only the current page, to its fifth token |
| Properties.PageLineWithoutNumber | quantum_txt_extraction.py:418-419 | a "Page" line with fewer than five tokens stops the run |
| Properties.SkippedLineIgnored | quantum_txt_extraction.py:424-427 | a data-page line containing a skip-list word changes nothing |
| Properties.FlagMismatchStops | quantum_txt_extraction.py:701-707 | a sample line with the wrong flag count stops the run with that count and writes nothing |
| Properties.CalibrateOutcome | quantum_txt_extraction.py:456-472 | a diameter line with no locomotive number, or one missing from the wheel table, is fatal; otherwise the calibration is set from the wheel table and the last token, and nothing else changes |
| Properties.CreateSinkOutcome | quantum_txt_extraction.py:442-445 | the workbook is created exactly when a calibration and a wheel entry exist, with empty sheets |
| Properties.BrakePipeKeepsSetup | quantum_txt_extraction.py:747-751 | the brake-pipe note keeps the locomotive, calibration, workbook and date bounds |
| Properties.SuppressRecordKeepSetup | quantum_txt_extraction.py:761-811 | suppression and recording keep them |
| Properties.WriteSampleKeepsSetup | quantum_txt_extraction.py:737-811 | writing a sample keeps them |
| Properties.FilterSampleKeepsSetup | quantum_txt_extraction.py:710-811 | filtering a sample keeps them |
| Properties.DataLineKeepsSetup | quantum_txt_extraction.py:424-437 | banner facts are never changed by lines after the banner page |
| Properties.CalibrationKept | quantum_txt_extraction.py:456 | once a non-zero calibration is set, no line changes it |
| Properties.CalibrationKeptByLines | quantum_txt_extraction.py:346-349 | nor do the pieces of a raw line |
| Properties.CalibrationKeptByInput | quantum_txt_extraction.py:340-349 | nor does any further input |
| Properties.AnnotationOutOfRangeDropped | quantum_txt_extraction.py:585-588 | with a positive start bound, an annotation outside the range changes nothing |
| Properties.AnnotationOnBothSheets | quantum_txt_extraction.py:590-616 | a logged annotation appends its note to the data sheet and its row to the events sheet with its date, time and text; the interval columns appear exactly for a first word starting with "Power" and hold the previous parsed sample and the interval to it |
| Properties.DataOnlyAnnotation | quantum_txt_extraction.py:595-596 | an annotation for the data sheet only leaves the events sheet unchanged |
| Properties.AnnotationLineParsed | quantum_txt_extraction.py:580-583 | a line whose last two words are a convertible time and date is written with that date and time, whatever precedes them |
| Properties.AnnotationPlaced | quantum_txt_extraction.py:584-616 | with a workbook open and the reading in range, the annotation's text (its words without the time and date) is appended as a data-sheet note and, when asked, as an event row with the same date, time and text, with interval columns exactly for a "Power" first word |
| Properties.SummaryWordsShape | quantum_txt_extraction.py:773 | the summary's words are whitespace-free and non-empty when the first and last hidden times are |
| Properties.BrakePipeWordsShape | quantum_txt_extraction.py:748-751 | the brake-pipe words are whitespace-free and non-empty, and the first is not a "Power" word |
| Properties.SummaryNoteWritten | quantum_txt_extraction.py:771-775 | when a run ends with a workbook open and the sample's time and date in range, exactly one note holding the summary words is appended to the data sheet, the count grows by the run's length and the run is reset |
| Properties.BrakePipeNoteWritten | quantum_txt_extraction.py:743-751 | a brake-pipe rise or fall, with a workbook open and the sample's time and date in range, appends the brake-pipe words as a data-sheet note and as an event row with the same date, time and text and no interval |
| Text.WordsJoinThen | quantum_txt_extraction.py:580 | `split()` of whitespace-free words joined by single spaces and followed by more text gives back those words, then the split of the rest |
| Properties.IntervalOrdersReadings | quantum_txt_extraction.py:601-604 | a computed interval is positive exactly when the previous sample is earlier, and zero exactly when the two readings coincide |
| Properties.IntervalNotApplicable | quantum_txt_extraction.py:601-606 | the interval is "N/A" exactly when no sample was parsed yet or either date contains the epoch year |
| Properties.FirstSampleNoBrakeNote | quantum_txt_extraction.py:747-751 | the first sample never produces a brake-pipe note |
| Properties.RejectedSampleWritesNothing | quantum_txt_extraction.py:718-734 | a sample the filter drops writes no row to any sheet, hides nothing and is not counted |
| Properties.AcceptedSampleInRange | quantum_txt_extraction.py:728-734 | an accepted non-epoch sample lies within the start and end bounds |
| Properties.EventOpensWithWindow | quantum_txt_extraction.py:867-904 | a triggering sample outside an event opens one: the event count grows by one, a start row is written, then the whole deque oldest to newest with only the newest highlighted |
| Properties.EventClosesWithEndRow | quantum_txt_extraction.py:837-863 | inside an event a closing sample is written unhighlighted, followed by the end row and a skipped row, and the event closes |
| Properties.EventContinuesWithRecord | quantum_txt_extraction.py:837-855 | inside an open event, a sample that does not close it is written as one record row with the sample's cells, the current highlighted; the event stays open, its number is kept and nothing else changes |
| Properties.QuietSampleWritesNoAnalysis | quantum_txt_extraction.py:867-875 | outside an event a sample that does not trigger changes nothing |
| Pipeline.Extraction.constructor | quantum_txt_extraction.py:237-255 | the new object holds the initial globals |
| Pipeline.Extraction.Run | quantum_txt_extraction.py:340-349 | reading raw lines updates the globals as the whole-input function says |
| Pipeline.Extraction.ProcessRaw | quantum_txt_extraction.py:346-349 | one raw line is split at form feeds and each piece processed in turn |
| Pipeline.Extraction.ProcessLine | quantum_txt_extraction.py:404-473 | the in-place update of one line is the line step |
| Pipeline.Extraction.DataPageLine | quantum_txt_extraction.py:424-437 | the in-place update of a data-page line |
| Pipeline.Extraction.BannerLine | quantum_txt_extraction.py:438-473 | the in-place update of a banner line |
| Pipeline.Extraction.CreateSink | quantum_txt_extraction.py:475-561 | the in-place workbook creation |
| Pipeline.Extraction.Calibrate | quantum_txt_extraction.py:456-472 | the in-place calibration |
| Pipeline.Extraction.WriteAnnotation | quantum_txt_extraction.py:563-618 | the in-place annotation |
| Pipeline.Extraction.PlaceAnnotation | quantum_txt_extraction.py:584-618 | the in-place range check and writes of an annotation |
| Pipeline.Extraction.ProcessSample | quantum_txt_extraction.py:620-813 | the in-place sample step |
| Pipeline.Extraction.FilterSample | quantum_txt_extraction.py:710-734 | the in-place filter and writes |
| Pipeline.Extraction.Admit | quantum_txt_extraction.py:710-734 | the epoch count and writing flag updated in place, with the verdict returned; nothing changes when the timestamp cannot be read |
| Pipeline.Extraction.WriteSample | quantum_txt_extraction.py:737-811 | the in-place writes of an accepted sample |
| Pipeline.Extraction.SuppressAndRecord | quantum_txt_extraction.py:761-811 | the in-place suppression, record and count |
| Pipeline.Extraction.BrakePipeNote | quantum_txt_extraction.py:743-751 | the in-place brake-pipe note |
| Pipeline.Extraction.Suppress | quantum_txt_extraction.py:761-775 | the in-place suppression step |
| Pipeline.Extraction.MarkHidden | quantum_txt_extraction.py:761-766 | the in-place hiding of a row |
| Pipeline.Extraction.SummariseRun | quantum_txt_extraction.py:771-775 | the in-place summary of a closed run |
| Pipeline.Extraction.RecordSample | quantum_txt_extraction.py:781-809 | the in-place record, previous-sample update and deque append |
| Pipeline.Extraction.PerformInFlightAnalysis | quantum_txt_extraction.py:815-907 | the in-place analysis step |
| Pipeline.Extraction.WriteWindow | quantum_txt_extraction.py:883-902 | the loop appends the window's rows, oldest first, and changes nothing else |
| Pipeline.Extract | quantum_txt_extraction.py:340-358 | a run over any input ends in the state the whole-input function gives, and that state satisfies the run invariant |

## Left out

- Floating point: the mileage (kept as its text), the speed scaling by 1.6 and the wheel calibration factor, and the kPa conversion (a configuration function standing for `round(p * psi_to_kpa_factor)`) are not computed. A calibration is kept as the measured diameter and the diameter text; only its once-only and error logic is modelled.
- `float()` on the mileage and the diameter is approximated by a decimal-numeral test. Exponents, `inf`, `nan` and underscores are not accepted.
- Time zones and daylight saving: `timestamp()` and `fromtimestamp()` are taken on a naive clock with no offset. Python's own limits on `fromtimestamp` for very large values are replaced by the year 1 to 9999 range of `datetime`.
- `strptime` is modelled strictly on zero-padded fields. Its acceptance of one-digit fields and surrounding whitespace is not modelled.
- The text of a `timedelta` (`str(e - s)`) is not produced; the interval is kept as a count of seconds.
- Which exception or exit stops the run is only approximated by the `Fatal` kinds. Only the fact of stopping, and that nothing changes after it, is modelled.
- The xlsx plumbing is not modelled: workbook and sheet creation, headers, column formats, the runtime modifiers sheet, cell fills beyond the two highlight flags, and the workbook's file name and save.
- Command-line handling, file opening and its I/O errors, and console output with its quiet levels are not modelled.
- What `main` does after the read loop is not modelled: the end-of-run statistics and the hiding of the listed rows. As a consequence, a stationary run still open at end of input is never summarised or counted, and an event still open is never closed. Both stay visible in the final state.
- The list of rows to hide and the deque are globals that `create_workbook` does not reset. The invariant is therefore proved for the first workbook only; a second page-1-to-2 transition is modelled but not covered by the sheet invariant.
- Machine.Suppress: states only the failure frame; what a successful step changes is stated by Machine.SuppressEffect.
- Policies.EventOpenReference: proved for a non-negative current threshold only. A negative threshold lets one sample both open and close an event.
- Composing two time adjustments into one (adjusting by a then b equals adjusting by a + b) is not proved; only the zero adjustment and the inverse adjustment are.
- Strings are handled as ASCII. `IsSpace` leaves out the non-ASCII whitespace that `split()` and `strip()` also treat as separators. `Upper` changes only `a` to `z`. The `isnumeric()` tests (`quantum_txt_extraction.py:430`, `:983`) become ASCII digit tests. `ParseInt` rejects the underscores and non-ASCII digits that `int()` accepts.
- `speed_adjustment_factor` is not a field of `Config`. Every run starts uncalibrated, as with the value 0 that `quantum_extraction_cfg.py` ships. With a non-zero configured factor the source skips the diameter line (`quantum_txt_extraction.py:456`) and `create_workbook` then fails for want of the diameter it reports (`:521-526`); that configuration is not modelled.
- quantum_pdf_extraction.py, its configuration and reader_test.py are not part of this model.
- The settings the core reads are the fields of the `Config` parameter: `ts_adjustment`, `wheel_dia_actual_mm`, `skip_list_words`, `filter_dates`, `start_timestamp`, `end_timestamp`, `epoch_timestamps_allowed`, `epoch_year`, `tp_translations`, `idle_as_digit`, `number_of_flags_expected`, `in_flight_analysis_enabled`, `ifa_deque_maxlen`, `ifa_tmc_threshold`, `suppress_stationary_events`, `report_kpa_pressures` and the kPa conversion. The file, workbook, header and protection settings (`source_file`, `workbook_name`, `worksheet_name`, `headers`, `protect_string`, `protection_mode`) belong to the xlsx and I/O plumbing left out above. `ifa_in_event_of_interest` is not configuration in the model: it is the state field `inEvent`, which starts false.
