# LED array controller: the serial protocol core

This is a Dafny model of the protocol core of `led_array_controller_gui.py`. That program is a Tkinter controller for a daisy chain of microcontrollers on one serial link. The first device is the master. A servo angle (0..180) or a 10-bit DAC value is sent either to every device (id `000`) or to one selected device (`001`, `002`, ...).

The model covers:

- **The serial reader's per-line classifier.** A stripped line becomes tagged queue items. The first is an echo of the line. Then come device counts, an init-complete notice, a master-started notice, a device-initialized notice and a system state, in the order of the checks. The reader's `total_devices` is updated on the way.
- **The message queue and the GUI consumer (`update_gui`).** The consumer drains the queue front to back. It sets the count and state labels, rebuilds the device dropdowns and appends log lines.
- **The dropdown rebuild (`update_device_lists`).** It offers the ids `001`..`NNN` for the current total, or `["001"]`, and repairs each selection.
- **The command path.**
  - `send_command`.
  - The range-checked servo and DAC buttons, with the `"{id},servo,{angle}"` and `"{id},dac,{raw}"` lines.
  - The percent-to-raw conversion `int(percent / 100.0 * 1023)`.
  - The raw-value label.
  - The manual device count.
- **`send_command_with_recovery`.** It writes "status" and then the command. It then polls the shared queue, popping at most one item per poll. If a popped line carries the firmware's `WARNING: Command timeout`, it writes "reinit" and the command once more.
- **Connecting and disconnecting.** Disconnecting resets the labels but keeps the device total.

The Python object becomes the class `Controller.Session`. Its methods change its fields step by step, as the program does. The exception is an unreadable servo or DAC field: there the servo button, the DAC button and the raw label run the corrected handlers (see "## Findings"). Each method is proved equal to a step function on a `Snapshot` of the fields, and the properties are lemmas about the step functions. The pure parts (pattern checks, formatting, conversion, queue draining, the detection window) are functions with lemmas.

The port is reduced to two fields:

- `written`: the lines written to the port, each with its newline.
- `writeError`: the error a write on the port raises, if any. It is fixed when the port is opened.

Popups are an `Option<string>` result. The log is a sequence of message texts without timestamps.

The 3-second detection window becomes a poll budget. `arrivals[i]` holds the raw lines the reader delivers while the sender sleeps after poll `i`, so `|arrivals|` is the number of polls. The reader thread's writes to the shared queue and to `total_devices` are sequentialised at those points.

Where the program's help text or comments and its code disagree, the model follows the code. Where the code itself is evidently wrong, "## Findings" records it: the model states the code as written and uses the corrected behaviour. The disagreements with the program's texts are:

- **The help text's DAC examples.** The help text (lines 808-809) says 50% and 75% give raw values 512 and 768. The code truncates (`int(...)`, not rounding), so it sends 511 and 767 (`Commands.DacRawSamples`).
- **System-state items.** A system-state item changes only the state label. Unlike every other item, it writes no log line.
- **The device-id search.** It looks for the leftmost `ID:` followed by digits anywhere in the line. That `ID:` need not be the one in "Device initialized as ID:".
- **Device-count items.** A device-count item rebuilds the dropdowns from the reader's current total, not from the number it carries.

## Model

| member | source | states |
|---|---|---|
| Text.TrimStart | led_array_controller_gui.py:426 | leading whitespace is dropped: the result is a suffix preceded only by whitespace, and it does not start with whitespace |
| Text.TrimEnd | led_array_controller_gui.py:426 | trailing whitespace is dropped: the result is a prefix followed only by whitespace, and it does not end with whitespace |
| Text.Strip | led_array_controller_gui.py:426 | the stripped line is no longer than the raw one and neither starts nor ends with whitespace |
| Text.SkipSpace | led_array_controller_gui.py:432 | the `\s*` of a pattern: the position reached is past whitespace only and stops at the end or at a non-space |
| Text.NatToString | led_array_controller_gui.py:478 | `str(n)` is a non-empty run of digits without a leading zero |
| Text.IntToString | led_array_controller_gui.py:744 | `str(i)` is non-empty and neither starts nor ends with whitespace |
| Text.ParseDigits | led_array_controller_gui.py:744 | `int()` of a digit string is its decimal value |
| Text.StripIsTrimmedSlice | led_array_controller_gui.py:426 | the stripped line is a slice of the raw line with only whitespace outside it, and it neither starts nor ends with whitespace |
| Text.StripEmptyIff | led_array_controller_gui.py:426-427 | a line strips to the empty string exactly when it is empty or all whitespace |
| Text.StripIdempotent | led_array_controller_gui.py:426 | stripping twice is stripping once |
| Text.Contains | led_array_controller_gui.py:431 | a phrase is only found in a line at least as long as it |
| Text.ContainsIff | led_array_controller_gui.py:431 | the left-to-right substring scan (`in`) holds exactly when the phrase occurs at some position |
| Text.Search | led_array_controller_gui.py:459-461 | the search finds nothing exactly when no position matches marker, whitespace, class character; otherwise it returns the maximal run after the leftmost match |
| Text.SearchNumber | led_array_controller_gui.py:432-434 | the number read is the decimal value of the digit run after the leftmost match, and None exactly when nothing matches |
| Text.SearchNumberAt | led_array_controller_gui.py:432-434 | whatever the leftmost match is, the search reads the number after it |
| Text.SearchAlike | led_array_controller_gui.py:432-439 | two markers of one width that match at the same places give the same search result |
| Text.NatToStringRoundTrip | led_array_controller_gui.py:478 | `int(str(n)) == n` for the decimal text of a count |
| Text.CanonicalRoundTrip | led_array_controller_gui.py:478 | `str(int(s)) == s` exactly for numerals without a leading zero |
| Text.NatToStringInjective | led_array_controller_gui.py:478 | distinct counts have distinct decimal texts |
| Text.Pad3RoundTrip | led_array_controller_gui.py:503 | a zero-padded id has at least three digits and reads back as its number |
| Text.Pad3Injective | led_array_controller_gui.py:503 | distinct numbers give distinct padded ids |
| Text.ParseInt | led_array_controller_gui.py:744 | a field that is empty or only whitespace is not a number |
| Text.ParseIntRoundTrip | led_array_controller_gui.py:744 | `int(str(i)) == i` for every integer, negative ones included |
| Text.ParseIntStripped | led_array_controller_gui.py:744 | surrounding whitespace does not change what `int(text)` reads |
| Classifier.CountStep | led_array_controller_gui.py:431-435 | the count check yields nothing and keeps the total, or yields exactly one device count equal to the new total, which is the number the `Total [Dd]evices:` search reads |
| Classifier.InitStep | led_array_controller_gui.py:438-443 | the init check yields nothing and keeps the total, or a device count of the new total followed by init-complete, the total being the number the lower-case search reads |
| Classifier.MasterStep | led_array_controller_gui.py:446-448 | the master check yields nothing or exactly one master-started notice |
| Classifier.DeviceIdStep | led_array_controller_gui.py:451-455 | the device-id check yields nothing or exactly one device-initialized notice |
| Classifier.StateStep | led_array_controller_gui.py:458-461 | the state check yields nothing or exactly one system-state item |
| Classifier.Classify | led_array_controller_gui.py:427-428 | an empty stripped line enqueues nothing and keeps the total; any other line is enqueued first as its own echo |
| Classifier.CountStepSpec | led_array_controller_gui.py:431-435 | the count check fires exactly when either spelling is followed by optional whitespace and a digit somewhere, and then reads the number after the leftmost such place |
| Classifier.InitStepSpec | led_array_controller_gui.py:438-443 | the init check fires exactly when "Initialization complete" occurs and the lower-case marker is followed by a digit, and reads the number after the leftmost lower-case match |
| Classifier.DeviceIdStepSpec | led_array_controller_gui.py:451-455 | the device-id check fires exactly when the phrase occurs and some `ID:` is followed by digits, and reports the number after the leftmost such `ID:` |
| Classifier.StateStepSpec | led_array_controller_gui.py:458-461 | the state check fires exactly when "Current State:" is followed by a word character, and reports the word there |
| Classifier.ClassifyOrder | led_array_controller_gui.py:427-461 | items come in check order (echo, device counts, init-complete, master-started, device-initialized, system state), and only the first item is an echo |
| Classifier.ClassifyTotal | led_array_controller_gui.py:433-442 | the reader's new total is the payload of the last device count enqueued, and the old total when none was |
| Classifier.ClassifyCountKinds | led_array_controller_gui.py:431-443 | a device count is enqueued exactly when a count marker is followed by a digit; init-complete exactly when moreover the completion phrase and a lower-case match occur |
| Classifier.ClassifyNoticeKinds | led_array_controller_gui.py:446-461 | each notice is enqueued exactly when its check fires; a marker with no number or word after it yields nothing |
| Classifier.ClassifyShapes | led_array_controller_gui.py:431-461 | each check contributes its expected shape of items, and the count check's total feeds the init check |
| Classifier.ClassifyRanks | led_array_controller_gui.py:431-461 | each kind of item occurs in a line's items exactly when the check that produces it fires |
| Classifier.InitCompleteFollowsCount | led_array_controller_gui.py:441-443 | every init-complete item comes directly after a device count |
| Classifier.LowerOnlySameCount | led_array_controller_gui.py:432-439 | without the capitalised marker, both count searches read the same number |
| Classifier.CompletionCountsTwice | led_array_controller_gui.py:431-443 | a completion line without the capitalised marker enqueues, after its echo, the same count twice and then init-complete, and sets the total to it |
| Classifier.CompletionCountsOnly | led_array_controller_gui.py:431-461 | a completion line with the lower-case count and none of the other notices enqueues exactly its echo, the count twice and init-complete, nothing more |
| Classifier.CompletionLine | led_array_controller_gui.py:431-443 | "Initialization complete. Total devices: 2" enqueues its echo, `device_count(2)` twice and `init_complete`, and sets the total to 2 |
| Commands.IndexOf | led_array_controller_gui.py:576 | the position returned is the first comma, and None exactly when there is none |
| Commands.JoinSplit | led_array_controller_gui.py:576-582 | three comma-free fields joined by commas split back into themselves |
| Commands.CommandRoundTrip | led_array_controller_gui.py:603-609 | a command line splits back into its id, its kind and the decimal text of its value |
| Commands.TargetRoundTrip | led_array_controller_gui.py:572-582 | with the broadcast id or a comma-free selected id, the line splits back into that id |
| Commands.CommandInjective | led_array_controller_gui.py:576-609 | different targets, kinds or values never give the same command line |
| Commands.DacRaw | led_array_controller_gui.py:598 | a percent in 0..100 gives a raw value in 0..1023, and a negative percent none above 0 |
| Commands.DacRawIsFloor | led_array_controller_gui.py:598 | for a non-negative percent the raw value is the floor of percent * 1023 / 100 |
| Commands.DacRawRange | led_array_controller_gui.py:596-598 | every accepted percentage gives a raw value in 0..1023 |
| Commands.DacRawMonotone | led_array_controller_gui.py:598 | a larger percentage never gives a smaller raw value |
| Commands.DacRawOdd | led_array_controller_gui.py:673 | a negative percent gives the negated raw value (truncation toward zero) |
| Commands.DacRawSamples | led_array_controller_gui.py:598 | 0 gives 0, 100 gives 1023, 25 gives 255, 50 gives 511, 75 gives 767 |
| Commands.DacRawExact | led_array_controller_gui.py:598 | within 0..100 the exact quotient percent * 1023 / 100 is whole only at 0 and 100; this is the premise on which the exact floor stands in for the float product, which the model does not compute |
| Commands.ServoRequest | led_array_controller_gui.py:566-588 | accepted exactly for an angle in 0..180; unreadable and out-of-range values give their popups; an accepted line splits back into the target id, "servo" and the angle |
| Commands.DacRequest | led_array_controller_gui.py:590-615 | accepted exactly for a percent in 0..100; both error popups; the line carries a raw value in 0..1023 that is the floor of percent * 10.23 |
| Commands.RawLabel | led_array_controller_gui.py:669-676 | the label reads back as the raw value of the percent, or is "0" when the field cannot be read |
| Commands.ServoRequestAsWritten | led_array_controller_gui.py:566-570 | an unreadable angle ends the handler with no popup; a readable one is range-checked as above |
| Commands.DacRequestAsWritten | led_array_controller_gui.py:590-594 | an unreadable percent ends the handler with no popup; a readable one is range-checked as above |
| Commands.RawLabelAsWritten | led_array_controller_gui.py:669-676 | an unreadable percent leaves the label as it was |
| Commands.UnreadableFieldAsWritten | led_array_controller_gui.py:566-594 | for an unreadable field the handlers as written show no popup and leave the raw label stale, while the corrected handlers show the popup and reset the label |
| Commands.ManualCount | led_array_controller_gui.py:741-753 | the count is taken exactly when the text reads as an integer in 1..10, with the two popups otherwise |
| Commands.ManualCountOfNumeral | led_array_controller_gui.py:743-745 | typing the decimal text of n sets the count to n exactly when n is in 1..10 |
| DeviceLists.IdsUpTo | led_array_controller_gui.py:503 | n ids, the i-th being the padded number i + 1 |
| DeviceLists.Rebuilt | led_array_controller_gui.py:498-521 | the values become the ids for the total; the selection stays when still offered, otherwise it moves to the first id; the result is consistent |
| DeviceLists.NoDevicesLikeOne | led_array_controller_gui.py:502-521 | with no device known the dropdown offers what it offers for one device |
| DeviceLists.DeviceIdsNumbered | led_array_controller_gui.py:503 | the offered ids are distinct numerals of at least three digits, and the i-th reads back as i + 1 |
| DeviceLists.RebuiltIdempotent | led_array_controller_gui.py:498-521 | rebuilding twice for one total is rebuilding once |
| DeviceLists.RebuiltKeepsLowerIds | led_array_controller_gui.py:505-508 | a selection still offered survives a rebuild for a larger total |
| Consumer.LogLine | led_array_controller_gui.py:474-490 | every item writes a log line except a system-state item |
| Consumer.Apply | led_array_controller_gui.py:474-490 | one item never touches the connection or raw labels; only a device count changes the count label and the dropdowns, only a system state changes the state label; the log keeps its lines and gains at most one |
| Consumer.Drain | led_array_controller_gui.py:471-493 | draining never touches the connection or raw labels, and adds at most one log line per item |
| Consumer.DrainAppend | led_array_controller_gui.py:471-493 | draining a + b is draining a and then b (FIFO) |
| Consumer.DrainLog | led_array_controller_gui.py:474-490 | the log grows by exactly the items' log lines, in queue order |
| Consumer.DrainCount | led_array_controller_gui.py:477-480 | the count label shows the last device count drained, and is untouched when none was |
| Consumer.DrainState | led_array_controller_gui.py:481-482 | the state label shows the word of the last system-state item drained, and is untouched when none was |
| Consumer.DrainPickers | led_array_controller_gui.py:477-479 | the dropdowns are rebuilt for the reader's total exactly when a device count was drained, and untouched otherwise |
| Consumer.DrainConsistent | led_array_controller_gui.py:469-493 | draining never leaves a dropdown showing a value it does not offer |
| Recovery.Deliver | led_array_controller_gui.py:424-461 | a batch that enqueues nothing leaves the device total as it was |
| Recovery.DeliverAppend | led_array_controller_gui.py:421-462 | delivering two batches back to back is delivering the first and then the second from the total the first ends with |
| Recovery.PollConserves | led_array_controller_gui.py:633-645 | the popped items followed by what is left are the old queue followed by everything the reader appended: nothing is lost or reordered |
| Recovery.PollPopsAtMostOnePerPoll | led_array_controller_gui.py:636-645 | no more items are popped than there are polls |
| Recovery.PollStopsAtFirstWarning | led_array_controller_gui.py:639-642 | the window is detected exactly when its last pop is a timeout warning, and no earlier pop was one |
| Recovery.PollFindsQueuedWarning | led_array_controller_gui.py:633-645 | a warning at position k behind no other is found when the budget exceeds k; exactly the items up to it are discarded and those after it stay queued |
| Recovery.PollWithoutWarning | led_array_controller_gui.py:633-645 | with no warning queued or delivered, the window ends undetected |
| Controller.Session.constructor | led_array_controller_gui.py:37-62 | the session starts in the startup state |
| Controller.Session.LogMessage | led_array_controller_gui.py:912-918 | exactly one message is appended to the log |
| Controller.Session.Connect | led_array_controller_gui.py:361-396 | the new state and popup are those of the connect step |
| Controller.Session.ReceiveLine | led_array_controller_gui.py:424-461 | the new state is that of one reader step on the line |
| Controller.Session.ReadFailure | led_array_controller_gui.py:464-466 | a read error is queued only while connected |
| Controller.Session.ReceiveLines | led_array_controller_gui.py:422-461 | a batch of lines appends exactly the items the reader produces for them and leaves the reader's final total |
| Controller.Session.UpdateDeviceLists | led_array_controller_gui.py:498-521 | both dropdowns become the rebuilt dropdowns for the current total |
| Controller.Session.UpdateGui | led_array_controller_gui.py:469-493 | the queue ends empty and the display is the drain of the old queue |
| Controller.Session.ApplyItem | led_array_controller_gui.py:474-490 | one popped item changes the display exactly as the consumer's rule for it |
| Controller.Session.SendCommand | led_array_controller_gui.py:551-564 | the new state, result and popup are those of the send step |
| Controller.Session.PollOnce | led_array_controller_gui.py:638-646 | one poll pops the head of the queue if there is one; it reports a hit exactly when that item is the timeout warning, and otherwise the reader appends its lines for the poll |
| Controller.Session.WatchForTimeout | led_array_controller_gui.py:631-645 | the polling loop leaves the queue and total of the detection window and reports whether it saw the warning |
| Controller.Session.SendCommandWithRecovery | led_array_controller_gui.py:617-659 | the new state, result and popup are those of the recovering send |
| Controller.Session.SendServoCommand | led_array_controller_gui.py:566-588 | the new state and popup are those of the servo step |
| Controller.Session.SendDacCommand | led_array_controller_gui.py:590-615 | the new state and popup are those of the DAC step |
| Controller.Session.SendRequest | led_array_controller_gui.py:572-586 | a checked request is sent with recovery and its note logged only once it went out |
| Controller.Session.UpdateDacRawValue | led_array_controller_gui.py:669-676 | the raw-value label becomes the label for the percent |
| Controller.ServoAsWritten | led_array_controller_gui.py:566-588 | the servo button as written: an unreadable field changes nothing and shows nothing; a readable one is handled as by the corrected button |
| Controller.DacAsWritten | led_array_controller_gui.py:590-615 | the DAC button as written: the same, for the percent field |
| Controller.RawUpdatedAsWritten | led_array_controller_gui.py:669-676 | the raw label as written: an unreadable field leaves the session as it was; a readable one updates the label as the corrected handler does |
| Controller.Session.SetManualDeviceCount | led_array_controller_gui.py:741-753 | the new state and popup are those of the manual-count step |
| Controller.Session.Disconnect | led_array_controller_gui.py:398-419 | the new state is that of the disconnect step |
| Controller.Send | led_array_controller_gui.py:551-564 | a send goes out exactly when connected with a working port; only when not connected is a popup shown; the connection, queue, total and dropdowns are untouched |
| Controller.Recover | led_array_controller_gui.py:617-659 | the recovering send succeeds exactly when connected with a working port; only when not connected is a popup shown; the connection, port error and dropdowns are untouched |
| Controller.Request | led_array_controller_gui.py:566-615 | a rejected request changes nothing and shows its popup; an accepted one shows a popup exactly when not connected; the connection, port error and dropdowns are untouched |
| Controller.Connected | led_array_controller_gui.py:361-396 | the session is connected afterwards exactly when it was or a port was given and opened; the total, queue and dropdowns are untouched |
| Controller.Disconnected | led_array_controller_gui.py:398-419 | the session is disconnected with consistent dropdowns; the total, queue and written lines are untouched |
| Controller.SendOnceOrNot | led_array_controller_gui.py:551-564 | a send succeeds exactly when connected with a working port; it then writes exactly the command and a newline and records exactly the command; otherwise it writes and records nothing; not connected leaves the state unchanged with the popup |
| Controller.SendOk | led_array_controller_gui.py:557-560 | on a working port one line is written and one command recorded, with queue, total and dropdowns unchanged |
| Controller.RecoverOk | led_array_controller_gui.py:617-656 | on a working port the recovering send succeeds, writes "status", the command, and "reinit" and the command again exactly when the warning was popped, and leaves the window's queue and total |
| Controller.RecoverWrites | led_array_controller_gui.py:617-659 | not connected: no change and false; connected: true exactly on a working port; a failing port writes, records and pops nothing; the retry is not recorded in the history; popped items plus the queue left are the old queue plus the reader's items |
| Controller.RecoverRetriesOnQueuedWarning | led_array_controller_gui.py:639-656 | a queued warning behind no other triggers the retry; the queue left is what followed it plus what the reader appended |
| Controller.RecoverNoRetryWithoutWarning | led_array_controller_gui.py:633-656 | with no warning to pop, only "status" and the command are written |
| Controller.ServoRangeChecked | led_array_controller_gui.py:566-588 | the servo button writes only for an angle in 0..180; otherwise no change and a popup; in range it writes the recovery lines of the servo command for the broadcast or selected id |
| Controller.DacRangeChecked | led_array_controller_gui.py:590-615 | the DAC button writes only for a percent in 0..100; otherwise no change and a popup; in range it writes the recovery lines of the DAC command carrying the raw value in 0..1023 |
| Controller.ManualCountApplied | led_array_controller_gui.py:741-753 | the count is applied exactly for a text reading as 1..10; it then becomes the total and the label, the dropdowns offer its ids, and nothing is written; otherwise no change |
| Controller.DisconnectResets | led_array_controller_gui.py:398-419 | disconnected, labels "Disconnected", "0" and "Unknown", the total kept, the dropdowns rebuilt for it, the queue and the written lines untouched |
| Controller.DisconnectedIsSilent | led_array_controller_gui.py:553-554 | after disconnecting, neither send writes and the reader enqueues nothing |
| Controller.ReceivedItems | led_array_controller_gui.py:426-428 | a blank raw line changes nothing; any other line enqueues its stripped echo first |
| Controller.ReceiveThenDrain | led_array_controller_gui.py:431-479 | a line read and then drained leaves the queue empty, and when it carried a device count, the count label shows the reader's new total and the dropdowns are rebuilt for it |
| Controller.ValidSends | led_array_controller_gui.py:551-659 | every send keeps both dropdowns consistent |
| Controller.ValidRequest | led_array_controller_gui.py:566-615 | a button send keeps both dropdowns consistent |
| Controller.ValidRecover | led_array_controller_gui.py:617-659 | the recovering send keeps both dropdowns consistent |
| Controller.ValidPreserved | led_array_controller_gui.py:498-521 | reading, draining, the raw label, the manual count, disconnecting and connecting keep both dropdowns consistent |
| Controller.ConnectOutcome | led_array_controller_gui.py:361-396 | no port: no change and its popup; an open failure: only the failure logged, with its popup; otherwise connected, and "status" is the one line written on a working port |
| Controller.StartupState | led_array_controller_gui.py:37-62 | the fresh session is disconnected, consistent, and offers the ids for no devices |

## Left out

- Widget construction and layout, the mode toggles that only relabel buttons, the preset buttons, the port refresh and the help window: they are UI with no protocol meaning.
- pyserial itself: port scanning, opening the port, `in_waiting`, `readline()` and UTF-8 decoding with `errors='ignore'`. A connect takes the opening error, if any, as a parameter, and the reader takes decoded lines.
- The reader thread's loop, its `stop_threads` flag and its sleeps. Reader steps are sequentialised at the points where the GUI looks at the queue.
- Controller.Session.ReadFailure: after a read error the reader thread leaves its loop. The model queues the error but does not stop later lines from being received.
- Wall-clock timing: the 2 s wait after connecting, the 3 s detection window, the 0.1 s polls and the 2 s settle after "reinit". The window is a poll budget (`arrivals`).
- Timestamps, trimming of the log widget and log export. The log is the sequence of message texts.
- `update_servo_display` and `update_dac_display`: they are float conversions for the sliders.
- The reading of the Tk integer variables. An angle or percent arrives as an integer, or as None when the field cannot be read. The truncation `IntVar.get()` applies to a text like "12.7" is not modelled.
- Commands.RawLabel: the label is modelled with the exact truncated quotient, not the float product `percent / 100.0 * 1023`. Floats are not modelled. `Commands.DacRawExact` proves only the premise for 0..100: there the exact quotient is whole only at 0 and 100. For percentages far outside 0..100 the float product can truncate differently.
- Text.ParseInt: Python's `int()` also accepts underscores between digits and non-ASCII digits. The model reads ASCII numerals with an optional sign and surrounding ASCII whitespace.
- `\s`, `\d` and `\w` are restricted to ASCII in the pattern checks.
- Text.Strip: only ASCII whitespace is dropped. Python's `str.strip()` also drops Unicode whitespace such as U+00A0 and U+2028; the model works on ASCII lines.
- Controller.Session.SendServoCommand: runs the corrected handler. For an unreadable angle field it shows "Invalid servo angle value", where the code as written stops with no popup (see Findings; `Controller.ServoAsWritten` is the as-written step).
- Controller.Session.SendDacCommand: runs the corrected handler. For an unreadable percent field it shows "Invalid DAC percentage value", where the code as written stops with no popup (`Controller.DacAsWritten` is the as-written step).
- Controller.Session.UpdateDacRawValue: runs the corrected handler. For an unreadable percent field it sets the label to "0", where the code as written leaves it stale (`Controller.RawUpdatedAsWritten` is the as-written step).
- Controller.Session.Connect: the baud-rate conversion error and the open error are one parameter. `writeError` is fixed for the life of the connection, so a port that fails one write fails them all.

## Findings

| source | as written | input that shows it | evidently intended | confidence | as-written member | corrected member |
|---|---|---|---|---|---|---|
| led_array_controller_gui.py:566-570 | the angle is read from the Tk integer variable before the `try`; an unreadable entry raises a Tcl error that `except ValueError` does not catch, so the handler stops with no popup | angle field text "abc" | the popup "Invalid servo angle value" | not executed; rests on `IntVar.get` raising `TclError`, which is outside this model | Commands.ServoRequestAsWritten, Commands.UnreadableFieldAsWritten, Controller.ServoAsWritten | Commands.ServoRequest |
| led_array_controller_gui.py:590-594 | the same unguarded read in the DAC handler | percent field text "abc" | the popup "Invalid DAC percentage value" | not executed; same assumption | Commands.DacRequestAsWritten, Commands.UnreadableFieldAsWritten, Controller.DacAsWritten | Commands.DacRequest |
| led_array_controller_gui.py:669-676 | the read is inside the `try`, but its error is not among the two caught, so the label keeps its old value | percent field cleared to "" | the label reset to "0" | not executed; same assumption | Commands.RawLabelAsWritten, Commands.UnreadableFieldAsWritten, Controller.RawUpdatedAsWritten | Commands.RawLabel |
