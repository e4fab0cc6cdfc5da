# Creality Connect printer-state coordinator

A Home Assistant integration for Creality K1-series printers keeps one
record of the printer's state (21 canonical fields: state, file name,
durations, temperatures, position, speeds, fans, layers, light). The
record is fed from a WebSocket that delivers messages in two formats:

- the **Creality flat format**, recognised by any of `nozzleTemp`,
  `bedTemp0` or `TotalLayer`. The handler builds a sparse fragment from the
  keys present and merges it over the record.
- the **Moonraker `notify` format**. The handler rebuilds the whole record
  from the nested status and merges it, but only when a record is already
  held.

Any other message is dropped, as is any message whose conversion raises.
The coordinator also:

- serves a default record before any data has arrived;
- starts and stops its reconnect task;
- sends `{"method": "set", "params": ...}` commands over the connection it
  holds.

Two sensors show the elapsed and remaining print time as `H:MM:SS`.

The Dafny modules:

- `Options`: the option type.
- `Json`: decoded JSON values and Python's conversion rules for `int()`,
  `float()` and `str()`.
- `Text`: the string operations the handler uses: `in`, `split(sep)[1]`,
  `split()[0]` and `split("/")[-1]`.
- `PrinterState`: the canonical fields, the record and the default record.
- `Creality`: the flat-format fragment, specified field by field. A method
  builds it block by block, as the handler does.
- `Moonraker`: the notify format and the record it rebuilds.
- `Coordinator`: message dispatch and merge as a function, and the
  coordinator, socket and task as classes whose methods update their
  fields.
- `Sensor`: `_format_time` and the two formatted-duration sensors.

Python's text-to-number parsing and `str()` of a non-string value are not
modelled. They are a parameter (`Json.Builtins`) that every conversion
reads. `round(x, n)` is kept symbolic as `Rounded(x, n)`, and arithmetic on
numbers is exact.

A notify message that is applied overwrites every field except
`print_time_remaining`, because `_process_printer_data` never writes that
field. `print_time_remaining` keeps the value it had before (see
`Coordinator.NotifyOverwrites`).

## Model

| member | source | states |
|---|---|---|
| PrinterState.DefaultRecord | coordinator.py:49-71 | the default record populates all 21 canonical fields, each with its default value |
| PrinterState.DefaultRecordValues | coordinator.py:49-71 | default values: state "idle", filename "", speed_factor 100, light_on False, every other field 0 |
| PrinterState.UpdateData | coordinator.py:44-71 | the refresh returns the held record unchanged when there is one, and otherwise exactly the default record; the result is never empty |
| PrinterState.KeysDistinct | coordinator.py:49-71 | distinct canonical fields are stored under distinct dictionary keys |
| Coordinator.Classify | coordinator.py:168 | the Creality path is taken exactly when nozzleTemp, bedTemp0 or TotalLayer is a key; the notify path exactly when none is and method equals "notify" |
| Coordinator.Handle | coordinator.py:163-235 | handling a message never removes a field from the record |
| Coordinator.OnlyRecognisedMessagesChangeState | coordinator.py:163-235 | only a Creality message, or a notify message arriving while a record is held, can change the record |
| Creality.Reading | coordinator.py:172-214 | temperatures and progress are rounded to 1 digit, positions and speed to 2, the speed factor to 0; times and layers are ints; the file name always converts and the state converts unless its code is a list or dict, both to text |
| Creality.Fragment | coordinator.py:170-214 | when the conversions succeed, the fragment's fields are exactly those whose source keys are present |
| Creality.AddTemperatures | coordinator.py:172-179 | the temperature block leaves the fragment that the first four conditional insertions specify, or abandons it when a conversion raises |
| Creality.AddTimes | coordinator.py:181-188 | the time block leaves the fragment the next four insertions specify, the sum only when both times are present |
| Creality.AddFileAndState | coordinator.py:190-195 | the file-name and state block leaves the fragment the next two insertions specify |
| Creality.AddPosition | coordinator.py:197-204 | the position block leaves the fragment the three axis insertions specify |
| Creality.AddSpeed | coordinator.py:206-209 | the speed block leaves the fragment the next two insertions specify |
| Creality.AddLayers | coordinator.py:211-214 | the layer block leaves the fragment the last two insertions specify |
| Creality.PrefixDefined | coordinator.py:170-214 | after k insertions a fragment exists exactly when every field written so far converts |
| Creality.PrefixContents | coordinator.py:170-214 | after k insertions the fragment holds exactly the fields written so far, each with its reading |
| Creality.AbandonedStaysAbandoned | coordinator.py:165-235 | once a conversion has raised, no later insertion revives the fragment |
| Creality.PrefixIsFragment | coordinator.py:170-214 | all insertions together build exactly the specified fragment: every written field with its reading, or nothing when any conversion raises |
| Creality.BuildFragment | coordinator.py:170-214 | the fragment built by successive conditional insertions is exactly the specified fragment |
| Creality.FragmentFields | coordinator.py:170-214 | the fragment's fields are exactly those whose source keys are present; a Creality message always writes at least one |
| Creality.TotalDurationIsSum | coordinator.py:183-188 | print_time_remaining is written exactly when printLeftTime is present; total_duration exactly when printJobTime is present too, and then it equals the sum of the two integer times |
| Creality.FilenameIsLastSegment | coordinator.py:190-191 | the file name kept has no '/', ends the original text right after its last '/', and a name without '/' is kept whole |
| Creality.StateNameOfCode | coordinator.py:193-195 | codes 0 to 3 name idle, printing, paused and complete; every other integer code gives idle |
| Creality.DeviceStateTakesPrecedence | coordinator.py:192-195 | the state comes from deviceState when present, and from state otherwise; the name written is always one of the four known names |
| Creality.AbsentAxisIsZero | coordinator.py:199-201 | an axis whose label does not occur in curPosition reads "0" |
| Creality.AxisIsTokenAfterLabel | coordinator.py:199-201 | an axis whose label occurs reads a whitespace-free token that follows the label's first occurrence after only whitespace, and ends at whitespace, the label's next occurrence or the end of the text; the token never contains the label; there is no reading exactly when the text after the label is all whitespace |
| Creality.OversizedReadingDropsMessage | coordinator.py:172-173 | a nozzle temperature given as an int beyond the float range makes `float()` raise, and the message is discarded |
| Creality.MissingAxisTokenDropsMessage | coordinator.py:197-204 | an axis label with no token after it makes the whole fragment fail, and the message is discarded |
| Text.SecondPiece | coordinator.py:199-201 | split(label)[1]: the text after the first occurrence, up to the next occurrence or the end, and holding no occurrence |
| Text.SecondPieceHasNoInnerOccurrence | coordinator.py:199-201 | no occurrence of the label starts inside the second piece, so it is the piece Python returns even for a label that overlaps itself |
| Text.FirstToken | coordinator.py:199-201 | split()[0]: none exactly when the text is all whitespace; otherwise a non-empty whitespace-free token |
| Text.FirstTokenPlace | coordinator.py:199-201 | the token sits in the text right after a run of whitespace, and is followed by whitespace or the end of the text |
| Text.AfterLastSlash | coordinator.py:191 | split("/")[-1]: a '/'-free suffix preceded by '/' unless it is the whole text |
| Coordinator.CrealityMergeFrame | coordinator.py:216-219 | after a Creality message the written fields take their readings, every other field held is unchanged, and with no record held the fragment becomes the record |
| Coordinator.CrealityFailureKeepsState | coordinator.py:165-235 | a Creality message whose conversion raises leaves the record unchanged |
| Moonraker.NotifyStatus | coordinator.py:224-226 | a message without params gives the empty status; a status exists exactly when params is truthy and a list or string; for a list it is the first element |
| Moonraker.SectionsOf | coordinator.py:75-81 | the seven sections are the status's entries (or empty when absent); the lookup fails exactly when one of them is not a dict |
| Moonraker.ReadingsOf | coordinator.py:88 | progress is 100 times the virtual_sdcard reading, for an int and for a float |
| Moonraker.TemperatureSources | coordinator.py:89-92 | the nozzle and bed temperatures and targets are the extruder and heater_bed numbers (default 0) rounded to 1 digit |
| Moonraker.PositionSources | coordinator.py:93-95 | the axes are the first three entries of the toolhead position (default [0, 0, 0, 0]) rounded to 2 digits |
| Moonraker.SpeedSources | coordinator.py:96-98 | the speed is the gcode_move speed (default 0) over 60; the speed factor and fan speed are the gcode_move and fan numbers (defaults 1.0 and 0) |
| Moonraker.ReadingsOfDefined | coordinator.py:88-98 | the readings are taken exactly when progress is neither None nor a dict, the temperatures, speed factor and fan speed are numbers, the position is a list starting with three numbers, and the speed is a number whose sixtieth is in the float range |
| Moonraker.Assemble | coordinator.py:83-104 | the literal holds every field but print_time_remaining, each with the value the literal gives it |
| Moonraker.AssembledConstants | coordinator.py:99-103 | auxiliary_fan and case_fan are 0 and light_on is False |
| Moonraker.AssembledPassThrough | coordinator.py:84-102 | state, filename and the durations are the print_stats entries with defaults idle, "", 0, 0; progress is the reading; the layers are the status entries with default 0 |
| Moonraker.ProcessPrinterData | coordinator.py:73-104 | when building succeeds, the record holds every field but print_time_remaining and resets auxiliary_fan and case_fan to 0 and light_on to False |
| Moonraker.ProcessedPassThrough | coordinator.py:84-102 | a built record's state, filename, print_duration and total_duration are the print_stats entries with defaults idle, "", 0 and 0, and its layers are the status entries with default 0 |
| Moonraker.ProcessedProgress | coordinator.py:88 | a built record's progress is 100 times the virtual_sdcard reading, unrounded |
| Moonraker.ProcessedTemperatures | coordinator.py:89-92 | a built record's nozzle and bed temperatures and targets are the extruder and heater_bed readings (default 0) rounded to 1 digit |
| Moonraker.ProcessedPosition | coordinator.py:93-95 | a built record's position is the first three entries of the toolhead position (default [0, 0, 0, 0]) rounded to 2 digits |
| Moonraker.ProcessedSpeed | coordinator.py:96 | a built record's speed is the gcode_move speed (default 0) over 60 rounded to 2 digits |
| Moonraker.ProcessedPercentages | coordinator.py:97-98 | a built record's speed factor (default 1.0) and fan speed (default 0) are times 100 rounded to 0 digits |
| Moonraker.ProcessedExactly | coordinator.py:73-104 | building succeeds exactly when the status is a dict whose seven sections are absent or dicts holding readings of the accepted kinds |
| Moonraker.EmptyStatus | coordinator.py:73-104 | the empty status builds an idle record: state idle, filename "", zero durations, progress and layers, zero readings and speed factor 100 |
| Coordinator.NotifyNeedsPriorState | coordinator.py:223-230 | a notify message arriving while no record is held is dropped |
| Coordinator.NotifyApplied | coordinator.py:223-230 | with a record held, a notify message is merged exactly when its status builds, and is dropped otherwise |
| Coordinator.NotifyMerged | coordinator.py:228-230 | with a record held, a built notify record is merged over it |
| Coordinator.BareNotifyResets | coordinator.py:223-230 | a notify message without params resets state, file name, durations, progress and layers to idle values, and keeps print_time_remaining |
| Coordinator.NotifyOverwrites | coordinator.py:223-230 | an applied notify overwrites every field but print_time_remaining with the rebuilt record, which keeps its prior value; the two extra fans and the light end up 0, 0 and False |
| Coordinator.UnrecognizedDropped | coordinator.py:223 | a message of neither format leaves the record unchanged |
| Coordinator.HandleKeepsComplete | coordinator.py:163-235 | once every field is populated, any message keeps every field populated |
| Coordinator.HandleKeepsDurationsExact | coordinator.py:183-186 | print_duration and print_time_remaining are never rounded values, whatever the messages |
| Coordinator.CrealityCoordinator.constructor | coordinator.py:33-35 | no connection, no task, not running, no data |
| Coordinator.CrealityCoordinator.Refresh | coordinator.py:44-71 | the stored data after a refresh is the held record, or the default record when none was held |
| Coordinator.CrealityCoordinator.StartWebsocket | coordinator.py:106-112 | a no-op when already running; otherwise the coordinator is running with a fresh, uncancelled task |
| Coordinator.CrealityCoordinator.Connected | coordinator.py:118-119 | the loop's open connection becomes the held connection |
| Coordinator.CrealityCoordinator.ConnectionLost | coordinator.py:127-129 | after a connection error no connection is held |
| Coordinator.CrealityCoordinator.HandleMessage | coordinator.py:163-230 | the record after the handler equals the dispatch-and-merge specification applied to the record before |
| Coordinator.CrealityCoordinator.SendCommand | coordinator.py:237-251 | returns false with no connection held; otherwise appends the message with method "set" and the given params to what was sent when the connection accepts it |
| Coordinator.CrealityCoordinator.Shutdown | coordinator.py:257-271 | afterwards the coordinator is not running and holds no connection or task; the old connection is closed with what was sent unchanged, and the old task is cancelled |
| Json.TruncTowardZero | sensor.py:35 | `int()` of a float truncates toward zero: the result lies within one of the input, on the input's side of zero |
| Sensor.FormatTime | sensor.py:30-40 | the text is the clock of the whole seconds the input stands for (0 for None and for non-positive input) |
| Sensor.FormattedValue | sensor.py:105-122 | the shown text always reads back as a clock; a missing duration shows "0:00:00" |
| Sensor.Digits | sensor.py:40 | the hours are printed as unpadded decimal digits, without a leading zero unless zero |
| Sensor.TwoDigits | sensor.py:40 | minutes and seconds are printed as exactly two digits that denote the value |
| Sensor.DigitsRoundTrip | sensor.py:40 | reading the hour digits back gives the hours |
| Sensor.ClockArithmetic | sensor.py:35-38 | minutes are below 60 and hours*3600 + minutes*60 + seconds equals the input |
| Sensor.ClockFields | sensor.py:35-40 | a rendering with minutes and seconds below 60 that add up to the input is the only one: hours is the input div 3600 |
| Sensor.ClockRoundTrip | sensor.py:35-40 | the H:MM:SS text reads back as hours*3600 + minutes*60 + seconds, which equals the input |
| Sensor.FormatTimeRoundTrip | sensor.py:30-40 | the formatted text reads back as the input truncated to whole seconds, or 0 for None and non-positive input |
| Sensor.FormatTimeZero | sensor.py:32-35 | "0:00:00" exactly when the input is None, not positive, or a fraction below one second |
| Sensor.FormattedDurations | sensor.py:105-122 | a missing print_duration or print_time_remaining shows "0:00:00"; a stored whole number of seconds shows as the clock of that many seconds, or of 0 if it is negative |

## Left out

- The reconnect loop, the subscribe message and the socket I/O (coordinator.py:114-161) are not modelled. The loop's effect on the coordinator's fields is modelled by `Connected` and `ConnectionLost`. The 5-second sleeps and logging are left out.
- `json.loads`, and messages whose top-level JSON value is not an object, are not modelled. The handler takes an already decoded object.
- Parsing text with `int()` and `float()`, and `str()` of non-string values, are a parameter of the model. The model's conversions of numbers, booleans, None, lists and dicts follow Python's rules as far as the model's number types reach.
- JSON's NaN, Infinity and -Infinity are not modelled, because `Number` holds a real. `int()` of an infinite float raising OverflowError is therefore not represented.
- Floats are exact reals: a float product (`* 100`, `float()` of a huge decimal text) that would overflow to infinity stays finite in the model. `float()` and `/ 60` of an int beyond the float range are modelled as raising (`Json.FitsFloat`, `Moonraker.Sixtieth`).
- `round(x, n)`, `/ 60` and `* 100` are not computed in floating point. Rounding stays symbolic, and the arithmetic is exact on reals.
- `async_set_updated_data` listener notification is modelled only as replacing the record.
- Coordinator.CrealityCoordinator.SendCommand: a send that raises for reasons other than a closed connection is not modelled. Such failures are network I/O.
- Sensor.FormattedValue: a duration field holding a rounded value is not modelled. Neither handler writes one there (`Coordinator.HandleKeepsDurationsExact`).
- Moonraker.ProcessedTemperatures, Moonraker.ProcessedPosition, Moonraker.ProcessedSpeed, Moonraker.ProcessedPercentages: each rounded reading is stated as the symbolic term `Rounded(x, n)` of its source number. The decimal value of the rounding depends on floating-point arithmetic and is not computed.
- Host, port and URL fields of the coordinator are not modelled. They only feed the connection.
