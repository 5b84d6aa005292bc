# PrintWatch telemetry, sampling and feedrate tracking

A Dafny model of the OctoPrint PrintWatch plugin (`octoprint_printwatch/__init__.py`). The
model covers:

- the `States` enumeration of printer states and their integer codes;
- the append-only feature log `AnomalyFeatures`;
- the row that `acquire_samples` builds from the printer's live data, the file listing with
  its print history, the printer profile and the plugin's own timers and feedrates, together
  with `get_lankyness_XYZ` and `check_last_same_job_success`;
- one iteration of the `_sampling` loop: warm-up gate, throttle, append, and write-out of the
  whole log once it holds more than five rows;
- `on_event` and `on_settings_save` over an abstract view of the collaborators;
- the feedrate tracker `check_fr`, with Python's `str.find` and slicing exactly as the code
  uses them.

Modules:

- `Wrappers`: Option and Result.
- `Text`: decimal rendering, join, character removal.
- `States`: the enumeration.
- `Features`: row values, Python indexing, the `AnomalyFeatures` class.
- `Assembler`: the snapshot datatypes and the row as a function `ExpectedRow`.
- `Serialise`: `str(row)` with its brackets removed.
- `Gcode`: `find` and slice.
- `Lifecycle`: the event transition function `Step`.
- `Plugin`: the `PrintWatchPlugin` class. Its methods build the row in a loop and are proved
  equal to `ExpectedRow`. They also run one sampling tick and handle events, settings saves
  and G-code.

The host's reports and the clock are parameters. Three things stay abstract:

- Python's `float()` is a parameter `toFloat: string -> Option<real>`. None stands for the
  ValueError it raises.
- `repr` of a float is a parameter `floatRepr`.
- The file written by the sampling loop is the ghost field `outputFile`, one string per line.

The model follows the code where the code may surprise a reader:

- `check_fr` reads the parameter as `cmd[idx+1 : cmd.find(' ', idx)]`. When the parameter is
  the last token, `find` returns -1, and the slice then drops the final character. So
  "G1 F1200" hands "120" to `float()`, and "M220 S50" hands it "5". It does not hand over
  "1200" or "50" (`Gcode.ExampleG1AtEnd`, `Gcode.ExampleM220AtEnd`).
- Selecting a file that is not listed, or that has no analysed dimensions, raises. So does a
  file with no history or an empty history, and so does an unknown state name. The sampling
  loop catches none of these, so its thread ends. The model returns `Crashed` and clears
  `samplerAlive`. There is no default of "false" for a missing history.
- `filename is not ''` is read as an inequality test on the string.

## Model

The contracts below are stated with a few plain definitions. Each transcribes one source
expression and needs no row of its own:
- `Plugin.SampleDue`: the gate of line 207.
- `Assembler.Active`: the file test of lines 87 and 114.
- `Gcode.IsMove` and `Gcode.IsFeedratePercent`: the command tests of lines 261 and 267.
- `Lifecycle.Halting`: the event group of lines 232-237.
- `Serialise.Repr`, `Serialise.ListText` and `Text.Join`: `repr`, `str(list)` and
  `", ".join` at line 215.

| member | source | states |
|---|---|---|
| States.Code | octoprint_printwatch/__init__.py:13-27 | every state has a code below 14 |
| States.Name | octoprint_printwatch/__init__.py:13-27 | every state has a non-empty member name |
| States.FromName | octoprint_printwatch/__init__.py:13-27 | `States[name]`: a name that is found names a state with exactly that name; any other name gives None (the KeyError) |
| States.FromCode | octoprint_printwatch/__init__.py:13-27 | a code is found exactly when it lies in 0..13, and the state found has that code |
| States.RoundTrips | octoprint_printwatch/__init__.py:13-27 | every state is found again from its name and from its code, so the mapping is total over the 14 names |
| States.Injective | octoprint_printwatch/__init__.py:13-27 | distinct states have distinct codes and distinct names |
| Features.PyIndex | octoprint_printwatch/__init__.py:43-44 | Python indexing is defined exactly for -len <= idx < len, and gives an element of the list |
| Features.LastIsNewest | octoprint_printwatch/__init__.py:43-44 | index -1, the default, is the element appended last |
| Features.NegativeIndex | octoprint_printwatch/__init__.py:43-44 | index k - len names the same element as index k |
| Features.AnomalyFeatures.constructor | octoprint_printwatch/__init__.py:34-35 | the log starts empty |
| Features.AnomalyFeatures.AppendRow | octoprint_printwatch/__init__.py:37-41 | a list grows the log by one, becomes the last row (retrieve_row(-1)), and leaves the earlier rows unchanged; a non-list raises BadRowException with the source's message and leaves the log unchanged |
| Features.AnomalyFeatures.RetrieveRow | octoprint_printwatch/__init__.py:43-44 | the index defaults to -1; a row is returned exactly for an index in range, and it is a row of the log |
| Features.AnomalyFeatures.RetrieveAllData | octoprint_printwatch/__init__.py:46-47 | the whole log, of the log's length, row i being the i-th row appended |
| Features.RetrieveAgrees | octoprint_printwatch/__init__.py:43-47 | retrieve_row(k) and retrieve_row(k - len) both give row k of retrieve_all_data |
| Assembler.Lankiness | octoprint_printwatch/__init__.py:113-123 | no file selected gives [0,0,0]; with a file selected it succeeds exactly when the file is listed with dimensions (an unlisted file raises), and the three values are width/depth, depth/height and width/height |
| Assembler.LastJobSuccess | octoprint_printwatch/__init__.py:125-129 | succeeds exactly when the file is listed with a non-empty history, and then gives the success flag of the newest entry |
| Assembler.BoolToInt | octoprint_printwatch/__init__.py:86-87 | `int(bool)` is 0 or 1, and 1 exactly for True |
| Assembler.OrZero | octoprint_printwatch/__init__.py:88-89 | `x if x else 0.0`: a known value is kept, an unknown one becomes 0.0 |
| Assembler.RecentFlag | octoprint_printwatch/__init__.py:94-95 | `int(now - t < 300.0)` is 1 exactly when the change is less than 300 s old and 0 exactly otherwise |
| Assembler.RecencyFlagBoundary | octoprint_printwatch/__init__.py:94-95 | the change flag is 1 at 299 s after the change and 0 at 300 s and 301 s |
| Assembler.HeaterFields | octoprint_printwatch/__init__.py:98-100 | actual, target and offset of a present heater, or three zeros for an absent one |
| Assembler.ChamberFields | octoprint_printwatch/__init__.py:101-103 | the chamber tests as written (truthiness for actual and offset, None for target) give the same three fields as the bed rule |
| Assembler.ExtruderCount | octoprint_printwatch/__init__.py:105-106 | the number of iterations of `range(count)`: 1 when the count is absent, the count when it is not negative, 0 otherwise |
| Assembler.ToolKey | octoprint_printwatch/__init__.py:107-109 | `'tool{}'.format(n)` is "tool" followed by decimal digits with no leading zero |
| Assembler.ToolKeyValue | octoprint_printwatch/__init__.py:107-109 | the digits after "tool" spell the tool's number |
| Assembler.ToolKeyInjective | octoprint_printwatch/__init__.py:107-109 | distinct tools look up distinct keys of the temperature map |
| Assembler.ToolFields | octoprint_printwatch/__init__.py:106-109 | the per-extruder block of n tools has 3n fields |
| Assembler.ToolFieldsAt | octoprint_printwatch/__init__.py:106-109 | fields 3t..3t+2 of the block are the readings of tool t |
| Assembler.ScalarList | octoprint_printwatch/__init__.py:84-104 | the list literal has 19 fields |
| Assembler.ScalarListFields | octoprint_printwatch/__init__.py:84-104 | what each of the 19 positions of the literal holds |
| Assembler.ScalarFields | octoprint_printwatch/__init__.py:82-104 | when the scalar part is built (no exception), it has 19 fields |
| Assembler.ExpectedFromScalars | octoprint_printwatch/__init__.py:84-109 | a row is its scalar fields followed by the per-extruder block |
| Assembler.RowPrefix | octoprint_printwatch/__init__.py:84-109 | a row is built exactly when its scalar part is, and its first 19 fields are that part |
| Assembler.ExpectedRow | octoprint_printwatch/__init__.py:84-109 | a built row has 19 + 3 × (extruder count) fields, the count defaulting to 1 |
| Assembler.ToolReadings | octoprint_printwatch/__init__.py:105-109 | tool t occupies fields 19+3t..19+3t+2 with its readings; a tool missing from the temperatures gives 0.0 in all three |
| Assembler.RowFields | octoprint_printwatch/__init__.py:84-104 | the schema of a built row: state code, sdReady, last-job success, print time, Z, the three ratios, resend ratio, the two change flags, feedrate, feedrate percentage, bed and chamber readings |
| Assembler.FirstFieldIsStateCode | octoprint_printwatch/__init__.py:85 | an unknown state name raises; otherwise the first field is the state's code |
| Assembler.InactiveFileDefaults | octoprint_printwatch/__init__.py:87 | with no file selected, a row is built exactly when the state is known, and its ratios are 0.0 and its last-job-success field is 0 |
| Assembler.ActiveFileFields | octoprint_printwatch/__init__.py:82-87 | with a file selected, a row is built exactly when the state is known and the file is listed with dimensions and a non-empty history; field 2 is then the newest success flag |
| Assembler.RecencyFields | octoprint_printwatch/__init__.py:94-95 | fields 9 and 10 are 1 exactly when now - change time < 300 and 0 exactly otherwise |
| Assembler.SharedAndHeaterFields | octoprint_printwatch/__init__.py:96-103 | fields 11 and 12 are the tracked feedrate and percentage; 13..18 are the bed and chamber readings, zeros when absent |
| Serialise.Reprs | octoprint_printwatch/__init__.py:215 | one rendering per field, in field order |
| Serialise.Line | octoprint_printwatch/__init__.py:215 | a written line holds no square bracket, whatever the fields render to |
| Serialise.Lines | octoprint_printwatch/__init__.py:213-215 | the whole log gives one line per row |
| Serialise.LineIsJoin | octoprint_printwatch/__init__.py:215 | if no float renders with a bracket, a line is the fields' renderings joined with ", " |
| Serialise.LinesAt | octoprint_printwatch/__init__.py:213-215 | the written output has exactly one line per row, line i rendering row i |
| Serialise.LinesSnoc | octoprint_printwatch/__init__.py:214-215 | writing one more row adds its line at the end |
| Text.NatToString | octoprint_printwatch/__init__.py:107 | a decimal rendering is non-empty, made of digits, and has no leading zero |
| Text.NatToStringValue | octoprint_printwatch/__init__.py:107 | the digits of the rendering of n spell n |
| Text.NatToStringInjective | octoprint_printwatch/__init__.py:107 | distinct numbers render differently |
| Text.IntToString | octoprint_printwatch/__init__.py:215 | `str(int)` starts with '-' exactly for a negative number, the digits after it spell the absolute value, and they have no leading zero |
| Text.RemoveChar | octoprint_printwatch/__init__.py:215 | `replace(c, '')` removes every c and adds no character |
| Text.RemoveCharAbsent | octoprint_printwatch/__init__.py:215 | replacing a character that does not occur changes nothing |
| Text.RemoveCharConcat | octoprint_printwatch/__init__.py:215 | replacing distributes over concatenation |
| Text.JoinAvoids | octoprint_printwatch/__init__.py:215 | a join of parts and a separator that lack c lacks c |
| Gcode.FindFrom | octoprint_printwatch/__init__.py:262-264 | the first index at or after the start holding the character, or -1 when there is none |
| Gcode.PyFind | octoprint_printwatch/__init__.py:262-264 | `str.find` returns -1 or an index of the character |
| Gcode.SliceBound | octoprint_printwatch/__init__.py:265 | a normalised slice bound lies within the string |
| Gcode.ParamText | octoprint_printwatch/__init__.py:262-265 | the text handed to `float()` is no longer than the command and, when the letter occurs, never holds a space |
| Gcode.PySlice | octoprint_printwatch/__init__.py:265 | `s[a:b]` is the plain slice for in-range bounds, and stops one short of the end for b = -1 |
| Gcode.FindsFirst | octoprint_printwatch/__init__.py:262 | `find` locates the first occurrence of the letter |
| Gcode.ParamBeforeSpace | octoprint_printwatch/__init__.py:262-265 | a parameter followed by a space is read whole |
| Gcode.ParamAtEnd | octoprint_printwatch/__init__.py:262-265 | a parameter that ends the command loses its last character |
| Gcode.NoParam | octoprint_printwatch/__init__.py:262-263 | a command without the letter gives -1, so a move leaves the feedrate alone |
| Gcode.ExampleG1Spaced | octoprint_printwatch/anomaly.py:20-40 | "G1 F1500.1 X5 Y8" hands "1500.1" to float() |
| Gcode.ExampleG0Spaced | octoprint_printwatch/anomaly.py:19-34 | "G0 F1200 X1 Y2" hands "1200" to float() |
| Gcode.ExampleG1AtEnd | octoprint_printwatch/__init__.py:262-265 | "G1 F1200" hands "120" to float() |
| Gcode.ExampleM220AtEnd | octoprint_printwatch/__init__.py:268-270 | "M220 S50" hands "5" to float() |
| Lifecycle.NameOf | octoprint_printwatch/__init__.py:219-253 | a name is one of the eight compared against exactly when the event is handled |
| Lifecycle.EventOf | octoprint_printwatch/__init__.py:219-253 | each name is sent to the event of that very name; a name outside the eight is an ignored event |
| Lifecycle.EventNames | octoprint_printwatch/__init__.py:219-253 | naming an event and looking the name up gives the event back |
| Lifecycle.Step | octoprint_printwatch/__init__.py:218-253 | the transition table: PRINT_STARTED starts the inferencer, kills comm, opens a ticket and sends resetPlot; RESUMED restarts only if triggered and starts the inferencer; PAUSED, CANCELLED, DONE and FAILED shut off only if triggered and kill the inferencer; PAUSED starts comm, the others kill it and send resetPlot; a filament or tool change records its time; nothing else changes |
| Lifecycle.SettingsSaved | octoprint_printwatch/__init__.py:161-166 | a cooldown begins exactly when a warning notification is active; onSave is always sent; nothing else changes |
| Lifecycle.ServicesExclusive | octoprint_printwatch/__init__.py:218-245 | after a service event the inferencer and comm do not both run, and other events keep that so |
| Lifecycle.ChangeEventsTouchOnlyTheirTimestamp | octoprint_printwatch/__init__.py:250-253 | a filament or tool change sets only its own timestamp |
| Lifecycle.StartPauseResume | octoprint_printwatch/__init__.py:219-241 | start, a triggered pause and a resume give one ticket, one shutoff and one restart, the inferencer running and comm stopped |
| Plugin.PrintWatchPlugin.constructor | octoprint_printwatch/__init__.py:60-74 | the initial timers (0.0) and feedrates (1.0); one row taken at once from the startup snapshot with those values, before any warm-up; a sampler exists exactly when that row was built, and an exception there leaves an empty log and no sampler |
| Plugin.PrintWatchPlugin.StartSampler | octoprint_printwatch/__init__.py:73-74 | the startup row is appended and the sampler started exactly when that row was built; an exception leaves the log empty and no sampler |
| Plugin.PrintWatchPlugin.InferencerFlags | octoprint_printwatch/__init__.py:163-238 | the inferencer sets the `triggered` and `warning_notification` flags the handlers read, and nothing else changes |
| Plugin.PrintWatchPlugin.ScalarRow | octoprint_printwatch/__init__.py:77-104 | the scalar fields, or the first exception, computed step by step, equal `ScalarFields` |
| Plugin.PrintWatchPlugin.AppendToolFields | octoprint_printwatch/__init__.py:107-109 | the three appends add the tool's readings, or zeros when it is absent |
| Plugin.PrintWatchPlugin.AppendExtruders | octoprint_printwatch/__init__.py:106-109 | the loop over `range(count)` appends the block of tools 0..count-1 |
| Plugin.PrintWatchPlugin.AssembleRow | octoprint_printwatch/__init__.py:77-110 | the assembled row, or exception, equals `ExpectedRow` |
| Plugin.PrintWatchPlugin.AcquireSamples | octoprint_printwatch/__init__.py:76-111 | an assembled row is appended to the log; an exception appends nothing |
| Plugin.PrintWatchPlugin.Flush | octoprint_printwatch/__init__.py:213-215 | the file holds one line per row of the whole log, in order |
| Plugin.PrintWatchPlugin.RecordSample | octoprint_printwatch/__init__.py:209 | the sample time becomes last_time and the spacing invariant is kept |
| Plugin.PrintWatchPlugin.RecordAndFlush | octoprint_printwatch/__init__.py:209-215 | after an append the sample time becomes last_time, and a log of more than 5 rows is written out one line per row |
| Plugin.PrintWatchPlugin.Tick | octoprint_printwatch/__init__.py:205-216 | a closed gate changes nothing; an open gate appends `ExpectedRow`, sets last_time to now and, with more than 5 rows, writes every row as a line; an exception ends the sampler with nothing appended; loop samples stay more than 2 s apart and after warm-up; the log holds the startup row plus one row per loop sample, so the first write-out follows the fifth loop sample |
| Plugin.PrintWatchPlugin.OnEvent | octoprint_printwatch/__init__.py:218-253 | the plugin's fields move exactly as `Lifecycle.Step` says |
| Plugin.PrintWatchPlugin.OnSettingsSave | octoprint_printwatch/__init__.py:161-166 | the plugin's fields move exactly as `Lifecycle.SettingsSaved` says |
| Plugin.PrintWatchPlugin.CheckFr | octoprint_printwatch/__init__.py:260-271 | a G0-G3 command with an F sets only the feedrate to float() of its parameter text; M220 sets only the percentage from S; any other command changes neither; a float() failure leaves the field as it was |

## Left out

- The write to `/output_file.txt`: the file is the ghost sequence of its lines. No newline
  characters are modelled, and file-system errors are not modelled.
- The sampling thread: `Thread`, `sleep(0.1)`, `while True` and the sharing of the plugin's
  fields between threads. One iteration is a method call with `now` as a parameter.
- Repeated clock reads: the source calls `time()` several times per iteration and
  per row. The model uses one `now` for all of them.
- Plugin.PrintWatchPlugin.constructor: `plugin_start` and the startup row read the clock
  separately in the source; the model uses one `now` for both. An exception there escapes
  `on_after_startup` to the host, which the model shows only as the missing sampler.
- The collaborators `CommManager`, `Inferencer`, `VideoStreamer` and `PrinterControl`. Their
  code is not part of this model. They appear only as running flags, the two inferencer flags
  the handlers read, and counters of the calls with visible effect. `kill_service` on a
  channel that is already stopped is treated as idempotent.
- The collaborator calls `start_service`, `kill_service`, `shutoff_event`, `restart` and
  `begin_cooldown` are taken to leave the inferencer's `triggered` and `warning_notification`
  flags as they were. Those flags change only through `InferencerFlags`.
- The initial values of the collaborator flags, which their constructors set. The model starts
  with everything stopped and the counters at zero.
- The host's settings handling inside `on_settings_save`: the call to
  `SettingsPlugin.on_settings_save(self, data)` (line 162) and `self._settings.save()` (line 165).
  The construction of the four collaborators (lines 62-65) is left out as well.
- Plugin glue and logging: `get_settings_defaults`, `get_template_configs`, `get_assets`,
  `get_update_information`, `get_api_commands`, `on_api_command`, `on_shutdown`, the plugin
  metadata and every `_logger` call.
- Floating point: temperatures, ratios and feedrates are `real`. `float()` and the rendering
  of floats are uninterpreted parameters.
- Assembler.Lankiness: division by zero is excluded by the precondition `NoZeroDivision`. The
  ZeroDivisionError it would raise is not modelled.
- Heater readings are three numbers. A reading of None inside a heater's dictionary is not
  modelled. So the `is not None` test on the chamber target, and the truthiness test on its
  actual and offset values, are modelled only on numbers.
- In the source, the list from `retrieve_all_data` is the log itself, not a copy. The model
  returns the value, so aliasing is not modelled.
- `append_row` with a non-list: the model's `RowArg` stands for the `isinstance` test. The
  types of the list's elements are not checked, as in the source.
- The module-level script in `octoprint_printwatch/anomaly.py` is used only for its two
  example commands.
