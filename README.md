# JogTrainer: host link, G-code streamer and firmware command handler

JogTrainer drives a two-axis stepper rig over a serial line. A Raspberry Pi
host runs a GRBL-style controller stack. `GRBLController` opens the serial
port, writes one command at a time and runs a reader loop that turns every
line from the board into log, status and position events. `GcodeSender`
loads a G-code program from a file and streams it line by line under the
user's pause, resume and stop requests. On the Arduino side, `GCodeHandler`
reads one line at a time. It recognises jog words, feed hold, pause, cycle
start, reset and home, and G0/G1 moves. It keeps the step position of each
axis and four motion flags, and drives the steppers with an integer
Bresenham loop gated by the two limit switches.

The model has four modules:

- `Text` (`text.dfy`) holds the string operations the sources rely on: Python's
  `str.strip` and Arduino's `String::trim`, `toUpperCase`, `startswith`,
  `endswith`, `in`, `split`, and `indexOf`. It also holds a small `Options`
  module.
- `GrblSerial` (`grbl_serial.dfy`) models the link manager:
  - the per-line dispatcher as the pure function `DispatchLine`;
  - the reader loop as `ReaderEvents`/`ReaderConsumed` over a sequence of read
    outcomes;
  - `connect`, `disconnect` and `send_command` as methods on the class
    `GrblController`, specified by the value-level `DisconnectStep` and
    `SendStep`.

  The port's behaviour (opening, flushing, writing and reading succeed or
  raise) comes in as parameters.
- `GcodeSending` (`gcode_sender.dfy`) models the streamer:
  - `load_file` as `FilterProgram`;
  - the flag calls `start`, `stop`, `pause` and `resume` as methods of
    `GcodeSender`;
  - `_send_gcode` as the method `SendGcode`, specified by `StreamRun`.

  Each line's controller answer comes from `SendCommand` on the real
  `GrblController`. The user's calls that land before each line's checks are
  an input schedule.
- `Firmware` (`gcode_handler.dfy`) models the command handler. The class
  `GCodeHandler` has the fields of the C++ class, and each handler method is
  proved equal to a value-level specification (`JogSpec`, `MoveSpec`,
  `HomeSpec`, `LineSpec`, …). What a handler prints and drives goes into an
  output sequence of `Effect`s. A limit switch is a `nat -> bool` input: its
  k-th value is the k-th `isPressed()` reading taken while one line is
  handled.

Where the code and its design notes differ, the model follows the code:

- The streamer's flow control judges each line by the return value of
  `send_command`, not by a reply from the board. That value is `"Sent"` or
  `"Not connected"`, and neither contains `ok`, so with the real controller a
  run halts after its first line. `FirstWriteHalts`, `NotConnectedHalts` and
  `AcceptedNeedsOkError` state this; it is not corrected.
- On a `SerialException` the reader calls `disconnect()` from its own thread.
  `disconnect` sets `stop_thread` and then joins the current thread, which
  raises `RuntimeError` and ends the reader before the port is closed. The
  link therefore stays marked connected with an open port and a stop
  request. `ReadFromPort` states exactly that, not a clean disconnect.
- `disconnect()` on a link that is not open still sets `stop_thread`.
- `start()` does not refuse while a run is already going, and `pause()` and
  `resume()` act in every state.
- `WPos:` fields are passed on as text; nothing parses them into numbers.
- A `flushInput` failure in `connect` leaves the opened port in `ser` while the
  link is reported not connected.
- In `moveTo` the loop advances `x` (or `y`) before it reads that axis's
  switch. A switch that ends the loop therefore leaves the written-back
  position one step ahead of the motor on that axis (`WalkIssued`).
- `moveTo`'s interrupt check inside the loop (`GCodeHandler.cpp:118-121`) can
  never fire: nothing changes a flag during the loop, and the flags were
  checked on entry. The model keeps the branch, and it verifies as dead code.
- A homing run sets both positions to zero even when it was interrupted.

## Model

| member | source | states |
|---|---|---|
| `Text.StripShape` | source/raspberry/JogTrainer/controller/grbl_serial.py:91-92 | a stripped string neither starts nor ends with whitespace, and it is empty exactly when the original is all whitespace |
| `Text.StripIsSlice` | source/raspberry/JogTrainer/controller/gcode_sender.py:18 | a stripped string is a slice of the original, and everything cut off on either side is whitespace |
| `Text.StripIdempotent` | source/raspberry/JogTrainer/controller/gcode_sender.py:18 | stripping a stripped string changes nothing |
| `Text.UpperCaseShape` | source/arduino/JogTrainer/GCodeHandler.cpp:164-165 | upper-casing keeps the length, leaves no lower-case letter, keeps every non-letter and keeps whitespace at the same places |
| `Text.FirstIndex` | source/arduino/JogTrainer/GCodeHandler.cpp:66-67 | `indexOf` gives -1 exactly when the character is absent, and otherwise an index holding it with no earlier occurrence |
| `Text.SplitShape` | source/raspberry/JogTrainer/controller/grbl_serial.py:97 | no piece of a split contains the separator, and joining the pieces with it gives the string back |
| `Text.SplitJoin` | source/raspberry/JogTrainer/controller/grbl_serial.py:97 | splitting the join of separator-free pieces gives those pieces back |
| `Text.FirstPiece` | source/raspberry/JogTrainer/controller/grbl_serial.py:97-98 | the first piece of a split is the text before the first separator, or all of it when there is none |
| `Text.NoOk` | source/raspberry/JogTrainer/controller/gcode_sender.py:56 | a string with no `o` immediately followed by `k` does not contain `ok` |
| `Text.OkAfterPrefix` | source/raspberry/JogTrainer/controller/gcode_sender.py:56 | a prefix that has no `ok` and does not end in `o` leaves `prefix + e` containing `ok` exactly when `e` does |
| `GrblSerial.WPosEventsPositions` | source/raspberry/JogTrainer/controller/grbl_serial.py:101-105 | a report yields at most one event per field, and every one of them is a position event |
| `GrblSerial.WPosEventsEmpty` | source/raspberry/JogTrainer/controller/grbl_serial.py:101-105 | a report yields no position event exactly when no field starts with `WPos:` |
| `GrblSerial.WPosEventsFromFields` | source/raspberry/JogTrainer/controller/grbl_serial.py:101-105 | every position event carries a field of the report with its 5-character `WPos:` prefix removed |
| `GrblSerial.WPosEventsAppend` | source/raspberry/JogTrainer/controller/grbl_serial.py:101-105 | position events keep field order |
| `GrblSerial.WPosEventsSingle` | source/raspberry/JogTrainer/controller/grbl_serial.py:102-105 | one field yields one event, `PositionUpdate(field[5:])`, when it starts with `WPos:`, and none otherwise |
| `GrblSerial.WPosEvents` | source/raspberry/JogTrainer/controller/grbl_serial.py:101-105 | defines the position events of a report's fields: one `PositionUpdate` per field that starts with `WPos:`, in field order |
| `GrblSerial.StatusTag` | source/raspberry/JogTrainer/controller/grbl_serial.py:97-98 | defines the status as the text between the brackets, up to the first `\|` |
| `GrblSerial.IsStatusReportFraming` | source/raspberry/JogTrainer/controller/grbl_serial.py:95 | a line is a status report exactly when it starts with `<` and ends with `>` (so it has at least two characters) |
| `GrblSerial.ReportEvents` | source/raspberry/JogTrainer/controller/grbl_serial.py:97-105 | defines a report's events as its status paired with the whole line, then its position events |
| `GrblSerial.ReportEventsShape` | source/raspberry/JogTrainer/controller/grbl_serial.py:97-105 | a report's first event is its status (the text before the first `\|` inside the brackets) paired with the whole line, and every later event is a position event |
| `GrblSerial.DispatchLine` | source/raspberry/JogTrainer/controller/grbl_serial.py:91-105 | defines the events of one decoded line: none once it strips to nothing, otherwise the log event of the stripped line, followed by the report's events when it is framed |
| `GrblSerial.DispatchBlank` | source/raspberry/JogTrainer/controller/grbl_serial.py:91-92 | a line yields no event exactly when it is blank once stripped |
| `GrblSerial.DispatchOrder` | source/raspberry/JogTrainer/controller/grbl_serial.py:92-100 | a non-blank line's first event is the log event `"GRBL: " + line`; a status event can only be second, and no later event is a log event |
| `GrblSerial.DispatchFraming` | source/raspberry/JogTrainer/controller/grbl_serial.py:95-105 | a framed line yields exactly one status event, second, then the position events of its fields in order; an unframed line yields its log event alone |
| `GrblSerial.StatusReportWithPosition` | source/raspberry/JogTrainer/controller/grbl_serial.py:91-105 | the line `<S\|WPos:P>` yields the log event, status `S` and position `P`, and nothing else |
| `GrblSerial.ReportWithPosition` | source/raspberry/JogTrainer/controller/grbl_serial.py:97-105 | the report events of `<S\|WPos:P>` are status `S` and then position `P` |
| `GrblSerial.StatusReportWithoutPosition` | source/raspberry/JogTrainer/controller/grbl_serial.py:95-105 | a report with no `WPos:` field yields its log event and its status event, and no position event |
| `GrblSerial.ReadEvents` | source/raspberry/JogTrainer/controller/grbl_serial.py:90-123 | defines the events of one pass: a decoded line's events, a log plus an "Error" status for a `SerialException`, and one log line for a decode or any other error |
| `GrblSerial.ReaderEvents` | source/raspberry/JogTrainer/controller/grbl_serial.py:89-123 | defines the events of a running loop: each read's events in read order, with nothing after the first `SerialException` |
| `GrblSerial.ReaderConsumed` | source/raspberry/JogTrainer/controller/grbl_serial.py:89-123 | the reader never processes more reads than it is given |
| `GrblSerial.ReaderConsumedAll` | source/raspberry/JogTrainer/controller/grbl_serial.py:106-123 | without a `SerialException` every read is processed; decode and other errors do not end the loop |
| `GrblSerial.ReaderEventsAppend` | source/raspberry/JogTrainer/controller/grbl_serial.py:89-123 | events come out in read order: before any `SerialException`, the events of `a + b` are those of `a` followed by those of `b` |
| `GrblSerial.ReaderStopsAtSerialError` | source/raspberry/JogTrainer/controller/grbl_serial.py:106-112 | nothing read after a `SerialException` produces an event |
| `GrblSerial.SendResponse` | source/raspberry/JogTrainer/controller/grbl_serial.py:60-86 | defines the answer: `"Not connected"`, `"Sent"`, `"Serial error: " + e` or `"Communication error: " + e` |
| `GrblSerial.SendResponseOk` | source/raspberry/JogTrainer/controller/grbl_serial.py:60-86 | `"Not connected"` and `"Sent"` never contain `ok`; an error answer contains `ok` exactly when the exception's own text does |
| `GrblSerial.DisconnectStep` | source/raspberry/JogTrainer/controller/grbl_serial.py:50-58 | defines `disconnect()` on a link: `stop_thread` is set, and an open port is closed with one "Disconnected" status |
| `GrblSerial.DisconnectStepShape` | source/raspberry/JogTrainer/controller/grbl_serial.py:50-58 | disconnecting always sets `stop_thread` and leaves no open port; an open port is closed, the link is no longer connected, and exactly one "Disconnected" status is emitted; otherwise only `stop_thread` changes |
| `GrblSerial.DisconnectIdempotent` | source/raspberry/JogTrainer/controller/grbl_serial.py:50-58 | disconnecting twice is the same as disconnecting once |
| `GrblSerial.SendStep` | source/raspberry/JogTrainer/controller/grbl_serial.py:60-86 | defines `send_command` on a link: a log line when not connected; otherwise the write with its log, or the error log and status, a `SerialException` also disconnecting |
| `GrblSerial.SendStepShape` | source/raspberry/JogTrainer/controller/grbl_serial.py:60-86 | not connected: the answer is `"Not connected"` and only a log line is added. Connected: exactly `command + "\n"` is written when the write completes, a `SerialException` disconnects, any other failure keeps the link connected, and events are only appended |
| `GrblSerial.GrblController.constructor` | source/raspberry/JogTrainer/controller/grbl_serial.py:8-15 | a new controller has no port, is not connected, has no stop request, and has written and emitted nothing |
| `GrblSerial.GrblController.Connect` | source/raspberry/JogTrainer/controller/grbl_serial.py:29-48 | on success the link is connected with `stop_thread` cleared, emits "Connected" and answers true; on failure it is not connected, emits one "Error" status and answers false; nothing is written |
| `GrblSerial.GrblController.Disconnect` | source/raspberry/JogTrainer/controller/grbl_serial.py:50-58 | the new state is `DisconnectStep` of the old one, and a well-formed controller stays well formed |
| `GrblSerial.GrblController.SendCommand` | source/raspberry/JogTrainer/controller/grbl_serial.py:60-86 | the new state and the answer are those of `SendStep`, and a well-formed controller stays well formed |
| `GrblSerial.GrblController.ReadFromPort` | source/raspberry/JogTrainer/controller/grbl_serial.py:88-123 | a reader on a stopped or disconnected link does nothing; otherwise it emits `ReaderEvents` of the reads, processes `ReaderConsumed` of them, and sets `stop_thread` exactly when a `SerialException` occurred; the port and the connected flag are never changed |
| `GcodeSending.FilterProgram` | source/raspberry/JogTrainer/controller/gcode_sender.py:18 | a program has no more lines than its file |
| `GcodeSending.FilterProgramClean` | source/raspberry/JogTrainer/controller/gcode_sender.py:18 | every program line is stripped, not empty and not a `;` comment |
| `GcodeSending.Keeps` | source/raspberry/JogTrainer/controller/gcode_sender.py:18 | defines a kept file line: stripped, it is neither empty nor starts with `;` |
| `GcodeSending.Kept` | source/raspberry/JogTrainer/controller/gcode_sender.py:18 | defines what one file line contributes: itself stripped when kept, nothing otherwise |
| `GcodeSending.KeptShape` | source/raspberry/JogTrainer/controller/gcode_sender.py:18 | a file line contributes exactly when, stripped, it is neither empty nor a comment, and then it contributes one clean line |
| `GcodeSending.FilterProgramAppend` | source/raspberry/JogTrainer/controller/gcode_sender.py:18 | loading keeps file order: the program of `a + b` is the program of `a` followed by that of `b` |
| `GcodeSending.FilterProgramSingle` | source/raspberry/JogTrainer/controller/gcode_sender.py:18 | one file line gives itself stripped when it is kept, and nothing otherwise |
| `GcodeSending.FilterProgramIdempotent` | source/raspberry/JogTrainer/controller/gcode_sender.py:18 | loading a loaded program gives it back unchanged |
| `GcodeSending.Call` | source/raspberry/JogTrainer/controller/gcode_sender.py:32-41 | defines the three calls: `pause` sets `is_paused`, `resume` clears it, `stop` clears `is_running` |
| `GcodeSending.ApplyUi` | source/raspberry/JogTrainer/controller/gcode_sender.py:32-41 | defines the flags after a sequence of calls made in order |
| `GcodeSending.ApplyUiRunning` | source/raspberry/JogTrainer/controller/gcode_sender.py:32-41 | after a sequence of calls the sender is running exactly when it was running and no call was a stop |
| `GcodeSending.ApplyUiPaused` | source/raspberry/JogTrainer/controller/gcode_sender.py:37-41 | the last pause or resume decides `is_paused`, and stops alone leave it as it was |
| `GcodeSending.ApplyUiNoPause` | source/raspberry/JogTrainer/controller/gcode_sender.py:37-41 | calls without a `pause()` never set `is_paused` |
| `GcodeSending.LineStep` | source/raspberry/JogTrainer/controller/gcode_sender.py:45-63 | one pass either continues, running, not paused, reporting `(i + 1, total)` when a callback is set, with the link `SendStep` makes of line i; or it halts waiting (running and paused) or stopped with the link untouched, or rejected after sending line i on an answer without `ok` |
| `GcodeSending.StreamRun` | source/raspberry/JogTrainer/controller/gcode_sender.py:43-65 | a run hands over at most the remaining lines; a completed run handed over every line, and a rejected run at least one |
| `GcodeSending.SendAll` | source/raspberry/JogTrainer/controller/grbl_serial.py:60-86 | `send_command` called on each line in turn only ever appends to what the port was written, at most one write per line |
| `GcodeSending.SendAllWritten` | source/raspberry/JogTrainer/controller/grbl_serial.py:66-71 | on a connected link whose writes all complete, the port receives every line followed by `"\n"`, in order, and nothing else |
| `GcodeSending.RunSendsInOrder` | source/raspberry/JogTrainer/controller/gcode_sender.py:45-59 | a run hands exactly the lines from its start up to `sent` to `send_command`, in program order and once each: its link is `SendAll` of those lines on the starting link |
| `GcodeSending.StreamRunFlags` | source/raspberry/JogTrainer/controller/gcode_sender.py:49-65 | every run that does not end waiting ends with `is_running` false; a waiting run is running and paused; a rejected answer has no `ok` |
| `GcodeSending.StreamRunKeepsLinkValid` | source/raspberry/JogTrainer/controller/gcode_sender.py:54 | streaming keeps the controller's link well formed: connected implies an open port |
| `GcodeSending.StreamRunSilent` | source/raspberry/JogTrainer/controller/gcode_sender.py:61-63 | without a progress callback nothing is reported |
| `GcodeSending.StreamRunReports` | source/raspberry/JogTrainer/controller/gcode_sender.py:56-63 | the reports are exactly one per accepted line, in order, as (line number, total); a rejected line is not reported |
| `GcodeSending.Reports` | source/raspberry/JogTrainer/controller/gcode_sender.py:61-63 | there is one report per accepted line |
| `GcodeSending.ReportsAt` | source/raspberry/JogTrainer/controller/gcode_sender.py:61-63 | the k-th report after line `from` is `(from + k + 1, total)`, so the count rises by exactly one each time |
| `GcodeSending.StopEndsRun` | source/raspberry/JogTrainer/controller/gcode_sender.py:46-51 | a stop that lands before line k ends the run with fewer than k + 1 lines handed over, so by `RunSendsInOrder` no line from k on reaches `send_command`, and the run does not complete |
| `GcodeSending.PauseHoldsRun` | source/raspberry/JogTrainer/controller/gcode_sender.py:46-47 | a pause that is the last call before line k holds the run before line k: by `RunSendsInOrder` no line from k on reaches `send_command` |
| `GcodeSending.AcceptedNeedsOkError` | source/raspberry/JogTrainer/controller/gcode_sender.py:54-59 | a line is accepted only if its write raised an exception whose text contains `ok`, since no other answer of `send_command` contains `ok` |
| `GcodeSending.FirstWriteHalts` | source/raspberry/JogTrainer/controller/gcode_sender.py:54-59 | over a connected link whose first write completes, the run sends `line + "\n"`, gets `"Sent"`, is rejected after one line and reports nothing |
| `GcodeSending.NotConnectedHalts` | source/raspberry/JogTrainer/controller/gcode_sender.py:54-59 | over a disconnected link the run is rejected with `"Not connected"` at the first line and writes nothing |
| `GcodeSending.AllOkCompletes` | source/raspberry/JogTrainer/controller/gcode_sender.py:43-65 | a running, unpaused sender on a connected link, whose every answer contains `ok` and which the user neither pauses nor stops, sends every line and completes |
| `GcodeSending.CompletedReportsAll` | source/raspberry/JogTrainer/controller/gcode_sender.py:43-63 | a running, unpaused sender on a connected link whose every answer contains `ok`, with a progress callback and no pause or stop, completes and reports every line in order: the k-th report is `(k + 1, total)`, so the last is `(total, total)` |
| `GcodeSending.Fraction` | source/raspberry/JogTrainer/controller/gcode_sender.py:62 | defines the reported fraction as lines sent over total lines, as a real number |
| `GcodeSending.FractionRange` | source/raspberry/JogTrainer/controller/gcode_sender.py:62 | the reported fraction lies in (0, 1] and is 1 exactly for the last line |
| `GcodeSending.GcodeSender.constructor` | source/raspberry/JogTrainer/controller/gcode_sender.py:6-13 | a new sender has no file, an empty program, and is neither running nor paused |
| `GcodeSending.GcodeSender.LoadFile` | source/raspberry/JogTrainer/controller/gcode_sender.py:15-19 | the loaded program is `FilterProgram` of the file's lines; the flags are untouched |
| `GcodeSending.GcodeSender.Start` | source/raspberry/JogTrainer/controller/gcode_sender.py:21-30 | it launches exactly when the program is non-empty and the controller is connected, and then the sender is running and not paused; otherwise nothing changes |
| `GcodeSending.GcodeSender.Stop` | source/raspberry/JogTrainer/controller/gcode_sender.py:32-35 | only `is_running` is cleared; the program is untouched |
| `GcodeSending.GcodeSender.Pause` | source/raspberry/JogTrainer/controller/gcode_sender.py:37-38 | only `is_paused` is set |
| `GcodeSending.GcodeSender.Resume` | source/raspberry/JogTrainer/controller/gcode_sender.py:40-41 | only `is_paused` is cleared |
| `GcodeSending.GcodeSender.ApplyCalls` | source/raspberry/JogTrainer/controller/gcode_sender.py:32-41 | a sequence of calls leaves the flags at `ApplyUi` of the old ones and touches nothing else |
| `GcodeSending.GcodeSender.SendLine` | source/raspberry/JogTrainer/controller/gcode_sender.py:45-63 | one pass of the loop leaves the flags, the controller and the progress log as `LineStep` says |
| `GcodeSending.GcodeSender.SendGcode` | source/raspberry/JogTrainer/controller/gcode_sender.py:43-66 | the whole loop ends with the halt, flags, controller state and progress of `StreamRun` |
| `Firmware.NormalizeIdempotent` | source/arduino/JogTrainer/GCodeHandler.cpp:145-147 | normalising a normalised line changes nothing, so `handleGcode` re-trimming the line `handleLine` trimmed is harmless |
| `Firmware.Normalize` | source/arduino/JogTrainer/GCodeHandler.cpp:163-165 | defines normalising a line: trim, then upper-case |
| `Firmware.RouteGcode` | source/arduino/JogTrainer/GCodeHandler.cpp:166-179 | a line reaches `handleGcode` exactly when it starts with `G`, since no command word does |
| `Firmware.RouteOf` | source/arduino/JogTrainer/GCodeHandler.cpp:166-181 | defines which handler a normalised line reaches, in the order the words are tested: jog word, hold, pause, cycle start, reset, home, a leading `G`, or none |
| `Firmware.JogGated` | source/arduino/JogTrainer/GCodeHandler.cpp:20-23 | with any motion flag set, a jog only prints the "Jog ignored" notice |
| `Firmware.JogSpec` | source/arduino/JogTrainer/GCodeHandler.cpp:19-63 | defines `jogCommand`: refused under a flag; `X+`/`Y+` refused on a pressed switch, otherwise 200 steps; `X-`/`Y-` always 200 steps back; `LIM?`, `BUZ`, `CLOCK` and anything else print only |
| `Firmware.JogMoves` | source/arduino/JogTrainer/GCodeHandler.cpp:24-59 | `X+` adds 200 to X only with the X switch open, `X-` subtracts 200, Y likewise; the other axis and the flags never change, and `LIM?`/`BUZ`/`CLOCK` move nothing |
| `Firmware.FeedHoldSpec` | source/arduino/JogTrainer/GCodeHandler.cpp:185-188 | defines feed hold: print the notice and set `isFeedHold` |
| `Firmware.PauseSpec` | source/arduino/JogTrainer/GCodeHandler.cpp:190-193 | defines pause: print the notice and set `isPaused` |
| `Firmware.CycleStartSpec` | source/arduino/JogTrainer/GCodeHandler.cpp:195-203 | defines cycle start: with hold or pause set, clear both and print the resume notice; otherwise print "Not paused or held. Nothing to resume." |
| `Firmware.ResetSpec` | source/arduino/JogTrainer/GCodeHandler.cpp:205-214 | defines reset: print the notice, clear hold, pause and resetting, and set both positions to 0 |
| `Firmware.CycleStartFlags` | source/arduino/JogTrainer/GCodeHandler.cpp:195-203 | cycle start clears hold and pause when either is set, and otherwise leaves every flag and the position as they were |
| `Firmware.HoldAndPauseOwnFlag` | source/arduino/JogTrainer/GCodeHandler.cpp:185-193 | feed hold sets only `isFeedHold`, and pause sets only `isPaused` |
| `Firmware.FirstPressed` | source/arduino/JogTrainer/GCodeHandler.cpp:231 | the index where a homing loop stops is the first pressed reading |
| `Firmware.HomingRun` | source/arduino/JogTrainer/GCodeHandler.cpp:231-238 | defines one homing loop: one "Homing interrupted." line when a flag is raised and the switch reads open, otherwise one backward step per open reading before the first pressed one |
| `Firmware.HomingTrail` | source/arduino/JogTrainer/GCodeHandler.cpp:228-253 | defines `doHome`: enable X, home X, enable Y, home Y, then disable both drivers |
| `Firmware.HomeSpec` | source/arduino/JogTrainer/GCodeHandler.cpp:216-226 | defines `handleHome`: refused while homing; otherwise the start message, the homing trail, the completion message and both positions 0 |
| `Firmware.ResetAndHomeZero` | source/arduino/JogTrainer/GCodeHandler.cpp:205-250 | reset leaves hold, pause and resetting false and both positions 0; a homing run that starts ends with `isHoming` false and both positions 0, interrupted or not |
| `Firmware.HomeWhileHeldTakesNoStep` | source/arduino/JogTrainer/GCodeHandler.cpp:228-250 | homing under a hold or pause drives no step, yet zeroes both positions |
| `Firmware.MoveGeometry` | source/arduino/JogTrainer/GCodeHandler.cpp:79-84 | defines a move's distances and directions, and sets each switch's first loop reading to 1 when that axis travels and 0 when it does not |
| `Firmware.TickX` | source/arduino/JogTrainer/GCodeHandler.cpp:122-129 | defines the `x` half of an iteration: when `e2 > -dy`, advance `x` and the error, then stop on a pressed X switch or drive one X step |
| `Firmware.TickY` | source/arduino/JogTrainer/GCodeHandler.cpp:130-136 | defines the `y` half likewise, when `e2 < dx` |
| `Firmware.Tick` | source/arduino/JogTrainer/GCodeHandler.cpp:122-136 | each loop iteration advances x by 0 or 1 and y by 0 or 1 |
| `Firmware.Walk` | source/arduino/JogTrainer/GCodeHandler.cpp:117-138 | defines the loop variables after `n` iterations, fewer when a switch ended the loop |
| `Firmware.WalkNext` | source/arduino/JogTrainer/GCodeHandler.cpp:117-138 | an iteration the loop runs is exactly one `Tick` |
| `Firmware.WalkStays` | source/arduino/JogTrainer/GCodeHandler.cpp:126-134 | once a switch has ended the loop, nothing changes any more |
| `Firmware.StepWindowX` | source/arduino/JogTrainer/GCodeHandler.cpp:122-136 | with X the long axis, one iteration keeps the error term in its window: X always advances, and Y advances only while short of its target |
| `Firmware.EndWindowX` | source/arduino/JogTrainer/GCodeHandler.cpp:122-136 | after `\|dx\|` iterations that window leaves Y exactly on its target |
| `Firmware.StepWindowY` | source/arduino/JogTrainer/GCodeHandler.cpp:122-136 | the mirrored window is kept when Y is the long axis |
| `Firmware.EndWindowY` | source/arduino/JogTrainer/GCodeHandler.cpp:122-136 | after `\|dy\|` iterations it leaves X exactly on its target |
| `Firmware.TickMajorX` | source/arduino/JogTrainer/GCodeHandler.cpp:122-136 | with X the long axis and the switches open over the travel, an iteration is never stopped, advances X and keeps the window |
| `Firmware.WalkMajorX` | source/arduino/JogTrainer/GCodeHandler.cpp:117-138 | so the X window holds through every iteration |
| `Firmware.TickMajorY` | source/arduino/JogTrainer/GCodeHandler.cpp:122-136 | with Y the long axis, likewise |
| `Firmware.WalkMajorY` | source/arduino/JogTrainer/GCodeHandler.cpp:117-138 | so the Y window holds through every iteration |
| `Firmware.WalkReachesTarget` | source/arduino/JogTrainer/GCodeHandler.cpp:106-138 | with both switches open, `max(\|dx\|, \|dy\|)` iterations advance x exactly `\|dx\|` times and y exactly `\|dy\|` times |
| `Firmware.WalkIdleAxis` | source/arduino/JogTrainer/GCodeHandler.cpp:115-136 | an axis with nothing to travel never advances, whatever the switches read |
| `Firmware.TickXIssued` | source/arduino/JogTrainer/GCodeHandler.cpp:122-129 | the `x` half drives one X step per X advance, except one its switch stopped, and drives no Y step |
| `Firmware.TickYIssued` | source/arduino/JogTrainer/GCodeHandler.cpp:130-136 | the `y` half likewise with the axes exchanged |
| `Firmware.WalkIssued` | source/arduino/JogTrainer/GCodeHandler.cpp:122-136 | every advance of a counter is matched by one driven step, except the last advance on the axis whose switch ended the loop |
| `Firmware.MoveRefused` | source/arduino/JogTrainer/GCodeHandler.cpp:75-94 | a move refused by a flag or by a pressed switch on an axis that must travel prints one message, no `ok`, and keeps the position |
| `Firmware.MoveSpec` | source/arduino/JogTrainer/GCodeHandler.cpp:74-142 | defines `moveTo`: refused under a flag, refused when a travelling axis's switch reads pressed, "No move" and `ok` for a zero move, otherwise the loop's steps, `ok`, and positions advanced by the loop's counters |
| `Firmware.OpenDuringWindow` | source/arduino/JogTrainer/GCodeHandler.cpp:87-136 | switches open at every reading a move takes pass the start checks and stay open over the loop's whole window on each axis |
| `Firmware.MoveGeometryDistance` | source/arduino/JogTrainer/GCodeHandler.cpp:79-84 | a move's geometry has distances `\|dx\|` and `\|dy\|`, and the loop runs at least once exactly when the target differs from the position |
| `Firmware.MoveReachesTarget` | source/arduino/JogTrainer/GCodeHandler.cpp:87-141 | with no flag raised and both switches open at every reading the move takes, a move ends exactly on its target and prints `ok` last; only the position and the output change |
| `Firmware.MoveIssuesDistance` | source/arduino/JogTrainer/GCodeHandler.cpp:111-141 | under the same conditions a move adds exactly `\|dx\|` single X steps and `\|dy\|` single Y steps to the output |
| `Firmware.WalkIssuesDistance` | source/arduino/JogTrainer/GCodeHandler.cpp:117-138 | with the switches open over the travel, the loop drives exactly `\|dx\|` X steps and `\|dy\|` Y steps |
| `Firmware.TravelOut` | source/arduino/JogTrainer/GCodeHandler.cpp:96-141 | a travelling move that passes its start checks prints exactly the loop's steps followed by `ok` |
| `Firmware.MoveKeepsIdleAxis` | source/arduino/JogTrainer/GCodeHandler.cpp:79-141 | an axis whose target is its current position keeps it |
| `Firmware.MoveKeepsFlags` | source/arduino/JogTrainer/GCodeHandler.cpp:74-142 | a move changes only the position and the output |
| `Firmware.RunEnd` | source/arduino/JogTrainer/GCodeHandler.cpp:69-70 | the scan ends between its start and the end of the line |
| `Firmware.RunEndShape` | source/arduino/JogTrainer/GCodeHandler.cpp:69-70 | the scanned run consists of digits, `.` and `-`, and cannot be extended |
| `Firmware.TokenAbsent` | source/arduino/JogTrainer/GCodeHandler.cpp:66-67 | the fallback is used exactly when the letter is absent |
| `Firmware.TokenExtent` | source/arduino/JogTrainer/GCodeHandler.cpp:66-71 | otherwise the token is the maximal run of digits, `.` and `-` right after the letter's first occurrence |
| `Firmware.Token` | source/arduino/JogTrainer/GCodeHandler.cpp:65-72 | defines the text `parseGcodeValue` converts: none without the letter, otherwise the run of digits, `.` and `-` right after its first occurrence |
| `Firmware.GcodeSpec` | source/arduino/JogTrainer/GCodeHandler.cpp:144-159 | defines `handleGcode`: a G0/G1 line moves to the X and Y targets, an absent letter keeping that axis; any other line prints the notice and `ok` |
| `Firmware.GcodeAxes` | source/arduino/JogTrainer/GCodeHandler.cpp:148-158 | a line that is not G0/G1 prints the notice and `ok` and nothing else; in a G0/G1 line an axis whose letter is absent keeps its position |
| `Firmware.GcodeKeepsFlags` | source/arduino/JogTrainer/GCodeHandler.cpp:144-159 | a G-code line changes only the position and the output |
| `Firmware.BlankLines` | source/arduino/JogTrainer/GCodeHandler.cpp:162-181 | an empty line is ignored; a non-empty all-whitespace line trims to nothing and gets the unknown-command reply |
| `Firmware.LineSpec` | source/arduino/JogTrainer/GCodeHandler.cpp:161-183 | defines `handleLine`: a zero-length line is ignored; otherwise the normalised line goes to the handler `RouteOf` names, or gets the unknown-command reply |
| `Firmware.LineNormalized` | source/arduino/JogTrainer/GCodeHandler.cpp:163-165 | case and surrounding whitespace do not matter: a line is handled as its normalised form is |
| `Firmware.LineKeepsQuiet` | source/arduino/JogTrainer/GCodeHandler.cpp:161-250 | no line leaves `isHoming` or `isResetting` raised for the next one |
| `Firmware.GCodeHandler.constructor` | source/arduino/JogTrainer/GCodeHandler.cpp:9-14 | a new handler stands at step position (0, 0) with every flag lowered |
| `Firmware.GCodeHandler.HandleLine` | source/arduino/JogTrainer/GCodeHandler.cpp:161-183 | the new state is `LineSpec` of the old one: zero-length input is ignored, and otherwise the normalised line goes to exactly one handler in the listed order |
| `Firmware.GCodeHandler.JogCommand` | source/arduino/JogTrainer/GCodeHandler.cpp:19-63 | the new state is `JogSpec` of the old one |
| `Firmware.GCodeHandler.ParseGcodeValue` | source/arduino/JogTrainer/GCodeHandler.cpp:65-72 | the index loop hands back `Token(line, code)`: no token without the letter, otherwise the maximal numeric run after it |
| `Firmware.GCodeHandler.MoveTo` | source/arduino/JogTrainer/GCodeHandler.cpp:74-142 | the new state is `MoveSpec` of the old one |
| `Firmware.GCodeHandler.StepX` | source/arduino/JogTrainer/GCodeHandler.cpp:122-129 | the `x` half of one iteration does what `TickX` says to the loop variables |
| `Firmware.GCodeHandler.StepY` | source/arduino/JogTrainer/GCodeHandler.cpp:130-136 | the `y` half does what `TickY` says |
| `Firmware.GCodeHandler.StepLoop` | source/arduino/JogTrainer/GCodeHandler.cpp:111-138 | the loop ends with the steps and the position of `Walk` after `max(\|dx\|, \|dy\|)` iterations |
| `Firmware.GCodeHandler.HandleGcode` | source/arduino/JogTrainer/GCodeHandler.cpp:144-159 | the new state is `GcodeSpec` of the old one |
| `Firmware.GCodeHandler.HandleFeedHold` | source/arduino/JogTrainer/GCodeHandler.cpp:185-188 | the new state is `FeedHoldSpec` of the old one |
| `Firmware.GCodeHandler.HandlePause` | source/arduino/JogTrainer/GCodeHandler.cpp:190-193 | the new state is `PauseSpec` of the old one |
| `Firmware.GCodeHandler.HandleCycleStart` | source/arduino/JogTrainer/GCodeHandler.cpp:195-203 | the new state is `CycleStartSpec` of the old one |
| `Firmware.GCodeHandler.HandleReset` | source/arduino/JogTrainer/GCodeHandler.cpp:205-214 | the new state is `ResetSpec` of the old one |
| `Firmware.GCodeHandler.HandleHome` | source/arduino/JogTrainer/GCodeHandler.cpp:216-226 | the new state is `HomeSpec` of the old one |
| `Firmware.GCodeHandler.HomeAxis` | source/arduino/JogTrainer/GCodeHandler.cpp:231-238 | one homing loop drives single backward steps up to the first pressed reading, or prints "Homing interrupted." when a flag is raised and the switch is open |
| `Firmware.GCodeHandler.DoHome` | source/arduino/JogTrainer/GCodeHandler.cpp:228-253 | both axes are homed in turn between the driver enables and disables, and both positions become 0 |

## Left out

- Threads, the daemon flag, `thread.join`, the 2-second settle delay and the 100 ms pause poll: the model is sequential. The reader is a loop over given read outcomes. The user's calls that land before each line of a run are a given schedule.
- `GcodeSending.GcodeSender.SendGcode`: when the calls before a line leave the sender paused and running, the source thread waits for a later call from another thread. The model ends the run there with `Waiting`.
- pyserial (`serial.Serial`, `readline`, `flushInput`, `write`, `list_ports`) and UTF-8 decoding are inputs: the outcome of each open, write and read is a parameter. `list_ports` is not modelled.
- Logging, `print` output and `__del__`: these are console plumbing with no effect on state.
- The callbacks are assumed to be set: every status, position and log callback is recorded as an event. The sender's optional `on_progress` is a flag.
- The `thread` field and `filepath` file reading: the file's lines are an input to `LoadFile`.
- main.py and the user-interface widgets: these are presentation.
- The hardware drivers (StepperModule, LimitSwitch, PiezoBuzzer, ClockModule, Pins.h): a driver call is recorded as an `Effect`, a switch is a sequence of readings, and the clock's printed time is an input string. GCodeHandler.h holds only declarations.
- Float arithmetic in `moveTo`: the distance, feedrate, step delay and `delayMicroseconds`. The `dist_mm < 0.001` test is modelled as `dx == 0 && dy == 0`, which is what it means for step sizes above one thousandth of a millimetre. The `F` word is therefore not parsed either.
- `toFloat`, `* stepsPerMM` and `lround` in `handleGcode`: the conversion of a token to a step target is an input function (`Scale`). The model proves the token's extent, not its value.
- `GcodeSending.Fraction`: the Python float `(i + 1) / total_lines` is modelled as an exact real quotient, without float rounding.
- `GcodeSending.FractionRange`: states the range of that exact quotient, not of the rounded float.
- Arduino `long` is 32 bits. Position and error arithmetic is modelled on unbounded integers, without wrap-around.
- `getXSteps`/`getYSteps`: these are plain reads of the position fields, which `State()` exposes.
- `LIM?` and `CLOCK` print their line in several `Serial.print` calls. The model records the completed line as one `Println`.
- `Firmware.GCodeHandler.DoHome`: requires that each switch eventually reads pressed unless a hold, pause or reset flag is raised. Without that, the source's homing loop never ends.
- `Firmware.GCodeHandler.HandleHome`: has the same requirement, for the same reason.
- `Firmware.GCodeHandler.HandleLine`: carries the same requirement for a `HOME` line only.
