# Heating monitor: event recorder and producers, in Dafny

This project models the logging core of an oil-fired central heating
monitor. Several producers sample a heating system, each at its own pace:
a manual temperature input driven by the display's buttons, a flame
detector and the thermometers. Each producer reports timestamped values
to an `EventCollectRecorder`. The recorder keeps one composite record per
event in a small time-ordered window. Once records are older than the
latest event time minus the cache duration, it writes them out oldest
first. Each written line holds one column per registered source,
separated by spaces.

The written log is in time order, and holds each record once, only while
two conditions hold. No event may be older than a record already written,
and no dump may fail part-way. An event that arrives later than that is
written after newer records. A dump that fails part-way writes some
records that a later dump writes again. "## Findings" shows both.

Three files, one module each (plus a small `Results` module):

- `text.dfy` (`Text`): Python's `str()` of an integer with its parse-back, joining and splitting columns on single spaces, and the `"{:2}"` field.
- `recorder.dfy` (`Recorder`): the `EventCollectRecorder` class, covering registration, snapshot insertion, updates, flushing and formatting. Each of its methods loops the way the program does and is proved against specification functions. Separate lemmas prove the recorder's invariants about those functions.
- `temperature.dfy` (`TemperatureRecording`): the DS2413 state decoding, the underline geometry, the `ManualThermInput` and `FlameDetector` classes, and the fixed column registration of the three producers.

The recorder's output stream is a sequence of written lines. Timestamps are integers. A producer's calls to `create_event` are recorded as an appended log of `Event(source, time, value)`.

The code is followed where the design intent differs from it. A second `create_event` at a timestamp already in the window does not reuse the existing record. It inserts a second record after it, and `Recorder.InsertAfterEqual` states this.

## Model

| member | source | states |
|---|---|---|
| Recorder.EventCollectRecorder.constructor | event_collect_recorder.py:5-11 | a new recorder has the given cache duration (2 by default), only "Time" at column 0, an empty template apart from time 0, an empty window and nothing written or created |
| Recorder.EventCollectRecorder.RegisterEventSource | event_collect_recorder.py:20-31 | the table and template after the call and its outcome are those of `Register`; the recorder stays valid (well-formed table, sorted window) |
| Recorder.RegisterOutcome | event_collect_recorder.py:20-31 | registration fails exactly when the column is taken or the name is already known ("Time" included); the table is padded with empty slots either way; on success the source owns the column, the template maps it to its default, and nothing else changes |
| Recorder.RegisterWellFormed | event_collect_recorder.py:20-31 | after a registration, successful or failed, "Time" is still column 0, every named column is in the template, and no name appears twice |
| Recorder.InitialRegistryWellFormed | event_collect_recorder.py:9-10 | the initial table is well formed and lists only "Time" |
| Recorder.TemplateComplete | event_collect_recorder.py:9-10 | the template of a well-formed registry holds a value for every registered column |
| Recorder.Sources | event_collect_recorder.py:71-72 | the registered column names, listed in column order, are never empty (an empty slot is not a column) |
| Recorder.FormatEventColumns | event_collect_recorder.py:69-74 | a formatted line is the values of the registered sources in column order, joined by single spaces, with no trailing space; it fails on the first registered source the record lacks |
| Recorder.CompleteFormats | event_collect_recorder.py:69-74 | a record holding every registered source always formats |
| Recorder.TimeFirst | event_collect_recorder.py:10 | in a well-formed registry the first column is "Time" |
| Recorder.FormatEventSplits | event_collect_recorder.py:69-74 | splitting a formatted line on spaces gives back one field per registered source, in column order, starting with the record's time, provided no value contains a space |
| Recorder.InsertIndex | event_collect_recorder.py:36-40 | the insertion point is after every record with time at most t and before the first record whose time is strictly greater |
| Recorder.InsertSorted | event_collect_recorder.py:36-41 | inserting into a sorted window keeps it sorted |
| Recorder.InsertContents | event_collect_recorder.py:41 | insertion adds exactly the new record (multiset) |
| Recorder.InsertAfterEqual | event_collect_recorder.py:36-41 | equal timestamps are not merged: records already at that time stay in place, unchanged, and the new record comes after them |
| Recorder.SortedSuffix | event_collect_recorder.py:65 | the kept suffix of a sorted window is sorted |
| Recorder.StampSnapshot | event_collect_recorder.py:34-35 | the snapshot has the event's time and message, keeps every other value of the template, and is complete when the template is |
| Recorder.StampWellFormed | event_collect_recorder.py:34-35 | stamping the template keeps the registry well formed and the template complete |
| Recorder.EventCollectRecorder.Snapshot | event_collect_recorder.py:34-41 | the template is stamped, and the window becomes the old window with a copy of the new template inserted at `InsertIndex`; the window stays sorted |
| Recorder.EventCollectRecorder.CreateEvent | event_collect_recorder.py:33-42 | the template is stamped; window, output and result are those of inserting the snapshot and dumping with horizon time - cache_duration; the records written are the first records of the new window, one per line; on success no kept record is older than that horizon, every event created stays accounted for exactly once, and the log stays in time order when the event is not older than the last record written |
| Recorder.CreateHorizon | event_collect_recorder.py:42 | after a successful create, every kept record is at or after time - cache_duration |
| Recorder.CreateBounded | event_collect_recorder.py:33-42 | after a successful create on a sorted window: the kept window is sorted and within the horizon; the removed records are a prefix that was written line by line in window order; removed plus kept records are the old window plus the snapshot |
| Recorder.FindTime | event_collect_recorder.py:46-47 | the index of the first record with exactly that time, or the window length when none has it |
| Recorder.UpdateScoping | event_collect_recorder.py:44-53 | the update fails exactly when no record has the time; otherwise only the first record at that time changes, and only in the one source; the window stays sorted |
| Recorder.EventCollectRecorder.UpdateEvent | event_collect_recorder.py:44-53 | failure with the window unchanged when no record has the time, else the window as `UpdateSpec` patches it; template and output are untouched; the log's order and accounting are kept |
| Recorder.FlushCount | event_collect_recorder.py:57-61 | the length of the longest prefix of records older than the horizon (all records without one) |
| Recorder.FormatBatchAppend | event_collect_recorder.py:57-60 | formatting two runs of records in turn is formatting them together, stopping at the first failure |
| Recorder.FormatBatchLines | event_collect_recorder.py:57-60 | without failures, one line per record, each the record's formatting |
| Recorder.FormatBatchComplete | event_collect_recorder.py:57-60 | complete records never fail to format |
| Recorder.EventCollectRecorder.DumpEvents | event_collect_recorder.py:55-67 | window, output and returned count are those of `DumpSpec`; the records written, also on failure, are the first records of the window, one per line; the window stays sorted |
| Recorder.DumpPrefix | event_collect_recorder.py:55-66 | prefix flush: the window splits into a written prefix of qualifying records and a kept suffix whose first record does not qualify; one line per written record, in order |
| Recorder.DumpHorizon | event_collect_recorder.py:58-65 | after a dump with a horizon, every kept record is at or after it and the kept records are sorted |
| Recorder.DumpAll | event_collect_recorder.py:55-67 | a successful dump without horizon empties the window and writes every record |
| Recorder.DumpCompleteSucceeds | event_collect_recorder.py:57-60 | a dump can fail only on a record lacking a registered source |
| Recorder.DumpFailureKeepsWindow | event_collect_recorder.py:57-65 | a failed dump keeps the window whole, and the lines written before the failure are those of the records before the faulty one |
| Recorder.EventCollectRecorder.Finalize | event_collect_recorder.py:13-18 | finalisation is `dump_events(None)`: on success the window is empty, every record held was written once, in window order, and the log's order and accounting are kept |
| Recorder.FormatBatchWritten | event_collect_recorder.py:57-60 | the lines written before a dump stops are the formatted first records, one each |
| Recorder.DumpWritten | event_collect_recorder.py:55-67 | the records a dump writes, whether it succeeds or fails, are the first records of the window; a success keeps the rest, a failure keeps the whole window |
| Recorder.DumpKeepsOrder | event_collect_recorder.py:57-65 | a successful dump extends an ordered log in order, and no kept record is older than the last one written |
| Recorder.DumpConserves | event_collect_recorder.py:57-65 | a successful dump writes exactly the records it removes, so written plus held records still account for every event once |
| Recorder.DumpFailureRecounts | event_collect_recorder.py:57-65 | as written, a failed dump counts the records written before the faulty one twice: written, and still held |
| Recorder.CreateKeepsOrder | event_collect_recorder.py:33-42 | a successful create whose event is not older than the last record written keeps the log in time order |
| Recorder.CreateConserves | event_collect_recorder.py:33-42 | a successful create keeps every created event, the new one included, accounted for exactly once |
| Recorder.UpdateKeepsLog | event_collect_recorder.py:44-50 | an update keeps every time in place, so the log's order and accounting are kept |
| Recorder.LateEventReordered | event_collect_recorder.py:36-42 | as written: with cache duration 2 and events at 10, 20, 5 and 30, every create succeeds and the log reads 10, 5, 20 |
| Recorder.FailedDumpRewrites | event_collect_recorder.py:57-65 | as written: a dump that fails after writing "1 x" keeps that record, and after the faulty record is patched the next dump writes "1 x" again |
| Recorder.DumpAtomicConserves | event_collect_recorder.py:55-67 | the all-or-nothing dump keeps the log ordered and every event accounted for exactly once, on success and on failure |
| Recorder.CreateCheckedInOrder | event_collect_recorder.py:33-42 | with events older than the last record written refused, every successful create keeps the log in time order |
| Text.IntToString | event_collect_recorder.py:73 | `str()` of an integer is non-empty and has no space |
| Text.IntToStringRoundTrip | event_collect_recorder.py:73 | the decimal text of a time parses back to the same integer |
| Text.SplitJoin | event_collect_recorder.py:73-74 | splitting space-joined columns that contain no spaces gives the columns back |
| Text.Pad2 | temperature_recording.py:229 | `"{:2}"`: at least two characters, the text right-aligned with spaces in front |
| TemperatureRecording.GetState | temperature_recording.py:47-53 | PIO A is bit 0 and PIO B is bit 2 of the first byte read; an empty read has no state |
| TemperatureRecording.Underline | temperature_recording.py:118-124 | the underline is horizontal, lies in the 16-pixel band of its text line, and is 8 pixels per character wide |
| TemperatureRecording.UnderlineCells | temperature_recording.py:233-235 | the current-slot underline spans character cells 3c and 3c+1 of the third line |
| TemperatureRecording.DisplayTextSlot | temperature_recording.py:225-231 | the display line is three characters per slot, and slot c is at characters 3c to 3c+2 |
| TemperatureRecording.SlotWidth | temperature_recording.py:228-231 | a slot in 30..99 renders as its two digits (or "--" for 99) followed by a space |
| TemperatureRecording.UnderlineMarksSlot | temperature_recording.py:225-237 | while editing, the underline sits exactly under the two characters of the current slot's value, on the third line |
| TemperatureRecording.ManualThermInput.constructor | temperature_recording.py:198-217 | starts on slot 0, not editing, both slots at the default 99, nothing reported |
| TemperatureRecording.ManualThermInput.UpdateDisplay | temperature_recording.py:225-237 | the line built slot by slot is `DisplayText` of the values, underlined at the current slot exactly while editing |
| TemperatureRecording.ManualThermInput.UpdateValue | temperature_recording.py:239-241 | stores the value in its slot and reports exactly one event with the slot's name, the press time and the value's text |
| TemperatureRecording.ManualThermInput.Left | temperature_recording.py:249-253 | when not editing nothing changes; otherwise the slot is reset to 99 (one event) and the cursor moves back with wrap-around; values stay in 30..99 |
| TemperatureRecording.ManualThermInput.Right | temperature_recording.py:255-260 | when not editing nothing changes; otherwise the slot is reset to 99 (one event) and the cursor moves forward with wrap-around |
| TemperatureRecording.ManualThermInput.Ok | temperature_recording.py:262-264 | always resets the current slot to 99 (one event) and toggles editing |
| TemperatureRecording.ManualThermInput.Plus | temperature_recording.py:266-271 | when editing: 99 becomes 30, any other value goes up by one, with one event; values stay in 30..99 |
| TemperatureRecording.ManualThermInput.Minus | temperature_recording.py:273-278 | when editing a non-default slot: down by one with one event, and below 30 a second event at the same time resets it to 99; otherwise nothing changes |
| TemperatureRecording.ManualThermInput.Handle | temperature_recording.py:207-213 | cursor, editing flag, values and the events reported are exactly those of `Press` for that button; UP and DOWN change nothing; at most two events, all at the press time and for the slot that was current |
| TemperatureRecording.ManualThermInput.EventDispatcher | temperature_recording.py:219-223 | stamps the press time, changes the input as `Press` says for that button at that time, and shows the resulting screen |
| TemperatureRecording.PressBounds | temperature_recording.py:243-278 | every press keeps the cursor on a slot and the values in 30..99, changes editing only on OK, leaves all alone on UP and DOWN, and reports at most two events for the current slot at the press time |
| TemperatureRecording.PlusMinusUndo | temperature_recording.py:266-278 | while editing, MINUS undoes PLUS on values below 98, and PLUS undoes MINUS above 30 |
| TemperatureRecording.LeftRightReturn | temperature_recording.py:249-260 | while editing, RIGHT after LEFT brings the cursor back to its slot |
| TemperatureRecording.DisplayWordFaithful | temperature_recording.py:294-306 | two reads show the same word exactly when they report the same state, and no read shows the initial empty word |
| TemperatureRecording.FlameLogAppend | temperature_recording.py:309-311 | a report that differs from the previous one keeps the flame log free of repeats |
| TemperatureRecording.FlameDetector.constructor | temperature_recording.py:281-289 | starts with state "False", no text, count 0 and nothing reported |
| TemperatureRecording.FlameDetector.Sense | temperature_recording.py:293-306 | flame bit set means "off", clear means "on"; missing device "device_error"; no permission "permission_error"; each with its display word |
| TemperatureRecording.FlameDetector.ReadOutputValue | temperature_recording.py:291-311 | reports the state exactly when the displayed word changes (always on the first read); consecutive reports differ; the display line is the spinner step and the word |
| TemperatureRecording.RegisterColumns | temperature_recording.py:215-216 | a producer's registration loop (the same shape at temperature_recording.py:286 and 329-331) leaves the recorder as the fold of `Register` over its columns, stopping at the first failure |
| TemperatureRecording.RegisterAllWellFormed | temperature_recording.py:215-216 | a sequence of registrations keeps the registry well formed |
| TemperatureRecording.AppRegistration | temperature_recording.py:417-420 | in the order `main` starts the producers (registrations at temperature_recording.py:216, 286 and 331) all six registrations succeed, with the listed columns and defaults |
| TemperatureRecording.AppColumns | temperature_recording.py:417-420 | the resulting columns are Time Flow Return Outside Flame ManFlow ManReturn |
| TemperatureRecording.ProducerLayout | temperature_recording.py:417-420 | no collision, a well-formed registry, that column order, and each source starting from its default |
| TemperatureRecording.LogLineFields | event_collect_recorder.py:69-74 | the fields of a written line are the record's time, then its values for the registered sources in column order |
| TemperatureRecording.AppLogLine | event_collect_recorder.py:69-74 | once the producers have registered, each complete line reads time, Flow, Return, Outside, Flame, ManFlow, ManReturn |

## Findings

| source | as written | input that shows it | evidently intended | confidence | as-written member | corrected member |
|---|---|---|---|---|---|---|
| event_collect_recorder.py:36-42 | an event older than a record already written is still inserted, and written after newer records | cache duration 2, only "Time" registered, events at 10, 20, 5, 30: the log reads 10, 5, 20 | the written log is in non-decreasing time order whatever order events arrive in | medium: late events need a producer to report a time that is already cache_duration behind; not executed | Recorder.LateEventReordered | Recorder.CreateCheckedInOrder |
| event_collect_recorder.py:57-65 | a KeyError in `format_event` leaves the lines before the faulty record written but the whole window kept, so those records are written again later | "Time" and "A" registered, window (1, A=x), (2, no A): the dump writes "1 x" and fails; after `update_event("A", 2, "y")` the next dump writes "1 x" again | a failed dump writes nothing and keeps the window, so each record is written exactly once | medium: a record lacks a source only when the source registers after the record was created; not executed | Recorder.FailedDumpRewrites | Recorder.DumpAtomicConserves |

`Recorder.DumpFailureRecounts` states the second row for every failed dump. The corrected definitions are `Recorder.CreateChecked` and `Recorder.DumpAtomic`. The recorder class keeps the behaviour as written, because that is what the program does.

## Left out

- Recorder.EventCollectRecorder.CreateEvent: promises the log's time order only for a successful create whose event is not older than the last record written. It promises that each event is written once only for a successful create. The design promises both for every sequence of calls, and the code does not deliver that (see "## Findings").
- File handling of the recorder (`open`, `seek`, `write`, `flush`, `close`): the output is a sequence of lines without the trailing newline.
- `__del__` runs when the garbage collector decides, and swallows every exception: it is modelled as an explicit `Finalize` that returns the dump's result.
- Recorder.EventCollectRecorder.UpdateEvent: requires a source other than "Time". The program would store the message string as the record's time and break later comparisons, and the model's integer time cannot hold a string.
- Recorder.EventCollectRecorder.UpdateEvent: the failure message indexes the window, which raises a different exception on an empty window. Both are modelled as the same failure.
- Recorder.EventCollectRecorder.RegisterEventSource: positions are natural numbers. Python's negative list indices are not modelled.
- Timestamps are integers, and `time.time()` readings are parameters. The floating-point thermometer parse and `{:4.1f}` display of `get_therm` and `print_therm` are not modelled.
- The producers' `create_event` calls are recorded as an event log rather than made on a recorder object. The recorder's handling of each event is `CreateEvent`.
- TemperatureRecording.ManualThermInput.constructor: registration and the first `update_display` are modelled apart, as `RegisterColumns` with `ManualRegistrations` and as `UpdateDisplay`.
- TemperatureRecording.GetState: takes the bytes read as a parameter. The asynchronous sysfs read is not modelled.
- Hardware and drawing are not modelled: `busio`/`board`, the SSD1306 display and PIL drawing, the `print_line*` calls, `BonnetButtons` and the GPIO pin map of `ButtonEvent`, and the display off-timer.
- Concurrency and orchestration are not modelled: the asyncio tasks, `ThermSensors.read_output_values` and `terminate`, signal handling and `main`. The column layout is proved for the order in which `main` starts the producers.
- test_exec.py (a print-and-traceback harness) is not part of this model.
