# Barcode scanner relay controller — Dafny model

This project models the scan-validation and relay-command engine of the
barcode-scanner desktop application. A barcode scanner delivers lines on an
input serial port. The application checks each scan, then drives a two-relay
I/O controller on an output serial port:

- A valid scan that differs from the previous one (`last_barcode`) sends a
  pulse on the configured switch: `@ON0s$\r\n`, then the same command with
  "ON" replaced by "OFF".
- A repeat of `last_barcode` sends nothing. This is the debounce.
- An invalid scan sends `@OFF01$\r\n` and `@OFF02$\r\n`, ends the reading
  loop and stops listening. Stopping sends the two OFF frames once more while
  the output port is open.

The application comes in two variants, and each has its own validator:

- **Queue variant** (`iocontroller.py`, module `QueueController`). The master
  list is a queue loaded from a text widget. A scan is valid only when it
  equals the head, and a valid scan pops that head. While idle, the list
  lines can be moved up or down and the list can be cleared.
- **Length variant** (`iocontroller/iocontroller.py`, module
  `LengthController`). A scan is valid when its stripped text has the length
  typed in the "Barcode Length" entry.

Shared modules:

- `Text` models Python's `strip`, `split('\n')` / `'\n'.join`, the
  strip-and-drop-empty cleaning of list lines, decimal parsing, the two Tk
  entry validators and `extract_port_name`.
- `Relay` models the frames, `str.replace('ON', 'OFF')`, the dispatch
  decision both variants share, and the effect of frames on the two relays.
- `Keyboard` models the USB-keyboard buffer.

Each variant's `Controller` class holds the application's fields:

- the list and its widget text (queue variant) or the length entry;
- the switch entry, `last_barcode` and `running`;
- whether each port is open;
- the frames written so far, as a `seq<string>`;
- the USB buffer.

Its methods update these fields in place. The reading loop (`Listen`, with
the queue variant's loop proper in `ReadLines`) and its body (`ProcessLine`)
are proved against the pure `Scan` and `Run` functions of their module. The properties of the loop are lemmas about
those functions.

## Model

| member | source | states |
|---|---|---|
| Text.StripSpec | iocontroller.py:577 | `strip()` yields the empty string exactly for all-white-space input; otherwise it begins and ends with a non-space; it adds no line break |
| Text.StripLeftSpec | iocontroller.py:605 | the left strip is the suffix left after a run of white space, and starts with a non-space |
| Text.StripRightSpec | iocontroller.py:605 | the right strip is the prefix before a run of white space, and ends with a non-space |
| Text.StripFixpoint | iocontroller.py:605-607 | stripping leaves a string unchanged exactly when it is empty or has no outer white space |
| Text.StripIdempotent | iocontroller.py:434 | stripping twice is stripping once, so `data.strip()` on already stripped data is the data |
| Text.JoinSplit | iocontroller.py:600 | joining the split lines with `'\n'` gives back the text |
| Text.SplitJoin | iocontroller.py:613 | lines without line breaks, joined with `'\n'`, split back into the same lines |
| Text.SplitNoNewlines | iocontroller.py:600 | no split line holds a line break |
| Text.CleanLinesEntries | iocontroller.py:603-607 | every cleaned line is non-empty and has no outer white space |
| Text.CleanLinesAppend | iocontroller.py:603-607 | cleaning works line by line: cleaning a concatenation concatenates the cleanings, so the order is kept |
| Text.CleanLinesSingle | iocontroller.py:605-607 | one line is kept, stripped, exactly when it is not blank |
| Text.CleanLinesIdempotent | iocontroller.py:613-620 | cleaning a cleaned list changes nothing |
| Text.CleanLinesOfEntries | iocontroller.py:613-620 | a list of stripped, non-empty lines is its own cleaning |
| Text.DisplayRoundTrip | iocontroller.py:634-637 | a list written one entry per line into the widget reads back as the same list |
| Text.CleanLinesIgnoreOuterStrip | iocontroller.py:597-600 | stripping the widget text (with Tk's final newline) before splitting does not change the cleaned list |
| Text.SwapAdjacentSpec | iocontroller.py:752 | the swap exchanges exactly the two neighbouring lines, keeps every other line, and keeps the multiset |
| Text.SwapAdjacentInvolution | iocontroller.py:752 | swapping the same pair twice restores the lines |
| Text.CleanLinesSwapMultiset | iocontroller.py:763 | the list rebuilt after a swap is a permutation of the list before it |
| Text.CleanLinesSwapEntries | iocontroller.py:790-801 | when both swapped lines hold entries, the rebuilt list is the old list with those two entries swapped |
| Text.SwapLinesRoundTrip | iocontroller.py:755-756 | the widget text rewritten with two lines swapped splits back into exactly the swapped lines |
| Text.ParseDecimal | iocontroller.py:555 | a parse succeeds exactly on a non-empty string of decimal digits |
| Text.ParseDecimalRoundTrip | iocontroller.py:555 | parsing the decimal form of `n` gives back `n` |
| Text.ParseDecimalLeadingZero | iocontroller.py:555 | a leading zero does not change the number: `"014"` parses as `"14"` does |
| Text.LengthInputOnText | iocontroller/iocontroller.py:486-494 | any text that parses, leading zeros included, is accepted by the length entry exactly when its number lies in 1..100 |
| Text.SwitchInputOnText | iocontroller/iocontroller.py:496-504 | any text that parses, leading zeros included, is accepted by the switch entry exactly when its number is 1 or 2 |
| Text.LengthInputOnNumbers | iocontroller/iocontroller.py:486-494 | the length entry accepts the plain decimal spelling of a number exactly when it lies in 1..100 |
| Text.ValidateLengthInput | iocontroller/iocontroller.py:486-494 | the length entry accepts `""` and rejects any text with a non-digit |
| Text.SwitchInputOnNumbers | iocontroller/iocontroller.py:496-504 | the switch entry accepts the plain decimal spelling of a number exactly when it is 1 or 2 |
| Text.ValidateSwitchInput | iocontroller.py:560-568 | the switch entry accepts `""` and rejects any text with a non-digit |
| Text.FindSeparator | iocontroller/iocontroller.py:261 | finds the first `" - "` at or after a position, or reports that none follows |
| Text.ExtractPortName | iocontroller/iocontroller.py:259-261 | the port name is a prefix of the entry with no `" - "` starting inside it, and is either the whole entry or is followed by `" - "` |
| Text.PortNameRoundTrip | iocontroller/iocontroller.py:158 | the name is recovered from `f"{device} - {description}"` when the device has no `" - "` and does not end in `" -"` |
| Text.PortNameTailMatters | iocontroller/iocontroller.py:158-159 | a device ending in `" -"` is cut short: `"COM1 -"` comes back as `"COM1"` |
| Relay.ReplaceAbsent | iocontroller.py:440 | `replace` with a pattern that never occurs changes nothing |
| Relay.OffOfOnCommand | iocontroller.py:433-440 | replacing "ON" by "OFF" in the ON command of relay `s` gives exactly the OFF command of relay `s` |
| Relay.PulseFramesLiteral | iocontroller.py:435-440 | a pulse is `@ON01$\r\n` then `@OFF01$\r\n` for switch 1, and `@ON02$\r\n` then `@OFF02$\r\n` for any other number |
| Relay.Dispatch | iocontroller.py:433-452 | the loop halts exactly on an invalid scan, which writes the two OFF frames; a valid repeat of `last_barcode` writes nothing; a valid new scan pulses and becomes `last_barcode`, unless the switch text does not parse, in which case nothing happens |
| Relay.FramesDistinct | iocontroller.py:435-444 | the four frames are different texts |
| Relay.AfterConcat | iocontroller.py:436-444 | writing two batches of frames acts on the relays as writing them in one go |
| Relay.FailSafeOpensAll | iocontroller.py:443-444 | the fail-safe frames open both relays whatever their state |
| Relay.PulseClosesThenOpens | iocontroller.py:436-440 | a pulse closes the selected relay, leaves the other alone, and ends with the selected relay open |
| Relay.DispatchKeepsRelaysOpen | iocontroller/iocontroller.py:361-375 | relays open before a scan are open after it, whatever the scan |
| Keyboard.OnKey | iocontroller.py:477-488 | every key is ignored while not listening; "enter" forwards exactly a non-empty buffer and empties it; a one-character key is appended; any other key changes nothing |
| Keyboard.FeedConserves | iocontroller.py:477-488 | no typed character is lost or invented: the forwarded scans, then the buffer, are the old buffer followed by the typed characters |
| Keyboard.FeedSendsNonEmpty | iocontroller.py:481-484 | a forwarded scan is never empty |
| Keyboard.TypeThenEnter | iocontroller.py:477-488 | typing a word key by key, then "enter", forwards exactly the buffer followed by that word and empties the buffer |
| QueueController.Validate | iocontroller.py:570-591 | validation succeeds exactly when the queue is non-empty and the stripped scan equals its head; success removes exactly that head and keeps the rest in order; failure leaves the queue unchanged |
| QueueController.ScanMismatch | iocontroller.py:443-452 | a scan that is not the head, or meets an empty queue, writes the fail-safe frames and halts the loop |
| QueueController.ScanMatch | iocontroller.py:433-440 | a scan of the head pops it; a repeat of `last_barcode` writes nothing but still consumes the head; a new scan writes one pulse and becomes `last_barcode` |
| QueueController.ScanEmptySwitch | iocontroller.py:432-435 | with an empty switch entry, a matching new scan pops the head but writes nothing and keeps `last_barcode` |
| QueueController.RunInOrder | iocontroller.py:417-452 | scanning the queued entries in order empties the queue without halting, pulses for each entry that differs from its predecessor, and leaves the last entry as `last_barcode` |
| QueueController.PulsesDistinct | iocontroller.py:433-440 | when neighbouring entries differ, every entry gets its own two-frame pulse |
| QueueController.RunQueueSuffix | iocontroller.py:578-580 | the loop only consumes the queue from the front |
| QueueController.RunAppends | iocontroller.py:436-444 | frames are only appended, never withdrawn |
| QueueController.RunKeepsRelaysOpen | iocontroller.py:417-452 | relays open before a run are open after it |
| QueueController.RunFramesBounded | iocontroller.py:433-452 | at most two frames per consumed entry, plus the two fail-safe frames when the run halts |
| QueueController.DisplayAfterPop | iocontroller.py:580-583 | after the head is popped, the rest written back into the widget reads back as the same list |
| QueueController.ListIsDisplayable | iocontroller.py:603-607 | every entry cleaned from widget lines is stripped, non-empty and free of line breaks |
| QueueController.Controller.constructor | iocontroller.py:25-42 | starts idle, with an empty list, switch entry `"1"`, empty `last_barcode`, nothing written and an empty USB buffer |
| QueueController.Controller.EditSwitch | iocontroller.py:560-568 | the switch entry takes the typed text only when its validator accepts it |
| QueueController.Controller.LoadList | iocontroller.py:593-632 | the list becomes the stripped, non-empty widget lines in order; the widget is rewritten with the list only when its stripped content differs |
| QueueController.Controller.ValidateBarcode | iocontroller.py:570-591 | the answer and the new list are those of `Validate`; after a match the widget shows the remaining list |
| QueueController.Controller.ProcessLine | iocontroller.py:424-452 | one line read while listening updates the list, `last_barcode` and the written frames exactly as `Scan` says, and reports whether the loop must end; after a pop the widget shows the remaining list, otherwise it is unchanged |
| QueueController.Controller.ReadLines | iocontroller.py:420-452 | the reading loop leaves the list, `last_barcode`, the frames and the halt flag of `Run`; after any pop the widget shows the remaining list, otherwise it is unchanged |
| QueueController.Controller.Listen | iocontroller.py:417-465 | the loop leaves the list, `last_barcode` and the frames of `Run`; when it halts, `toggle_listen` stops listening and the OFF frames are written a second time; the widget follows the list, the port names stay, and the switch entry and USB buffer are untouched |
| QueueController.Controller.Stop | iocontroller.py:379-415 | writes the two OFF frames, in order, only while the output is open; then nothing is running or open, so a second call writes nothing |
| QueueController.Controller.Start | iocontroller.py:338-377 | succeeds exactly when neither selection is "No COM Ports Found", both baud texts parse and both ports open; only then are both ports open, with the names taken from the selections; nothing is written |
| QueueController.Controller.ToggleListen | iocontroller.py:324-332 | when idle it starts listening only if the start succeeds, and then on the port names taken from the selections; when listening it stops, writes the OFF frames and keeps the port names |
| QueueController.Controller.ProcessData | iocontroller.py:490-500 | the scan is written unchanged, without a terminator, only while the output is open |
| QueueController.Controller.HandleKey | iocontroller.py:477-488 | the buffer follows `OnKey`, and a forwarded scan is written through `process_data` |
| QueueController.Controller.MoveUp | iocontroller.py:732-766 | nothing changes while running, without a selection, or on the first line; otherwise the selected line swaps with the one above, the list is rebuilt, and it is a permutation of the old list |
| QueueController.Controller.MoveDown | iocontroller.py:768-804 | likewise, swapping with the line below unless the selection is on the last line |
| QueueController.Controller.SwapLines | iocontroller.py:752-763 | rewrites the widget with the two lines swapped and rebuilds the list; the list keeps its multiset |
| QueueController.Controller.Clear | iocontroller.py:806-814 | when idle and confirmed, the widget and the list are emptied; otherwise nothing changes |
| LengthController.ValidateLength | iocontroller/iocontroller.py:506-513 | an unparsable length entry rejects every scan; an accepted scan has the configured length once stripped |
| LengthController.LengthOfText | iocontroller/iocontroller.py:506-513 | with any length entry that parses, leading zeros included, a scan is valid exactly when its stripped text has that many characters |
| LengthController.LengthWithLeadingZero | iocontroller/iocontroller.py:509-510 | the entry `"014"` asks for exactly 14 characters |
| LengthController.LengthOfDecimal | iocontroller/iocontroller.py:509-510 | with the length entry showing `n`, a scan is valid exactly when its stripped text has `n` characters |
| LengthController.ValidateIgnoresOuterSpace | iocontroller/iocontroller.py:510 | a scan and its stripped text always get the same answer |
| LengthController.AcceptedLengthBounds | iocontroller/iocontroller.py:486-494 | with a length the entry accepts, a valid scan has between 1 and 100 characters once stripped |
| LengthController.ScanHalts | iocontroller/iocontroller.py:369-375 | one scan halts the loop exactly when it is non-blank and of the wrong length; it then writes the fail-safe frames and keeps `last_barcode` |
| LengthController.ScanAccepted | iocontroller/iocontroller.py:361-368 | a valid scan pulses and becomes `last_barcode` when it is new, and changes nothing when it repeats `last_barcode` |
| LengthController.RunHalts | iocontroller/iocontroller.py:342-375 | the loop halts exactly when some line it reads is rejected |
| LengthController.RunRepeatedScan | iocontroller/iocontroller.py:361-368 | the same valid barcode read any number of times in a row pulses at most once |
| LengthController.RunAppends | iocontroller/iocontroller.py:364-371 | frames are only appended, never withdrawn |
| LengthController.RunKeepsRelaysOpen | iocontroller/iocontroller.py:342-375 | relays open before a run are open after it |
| LengthController.Controller.constructor | iocontroller/iocontroller.py:26-27 | starts idle, with length entry `"14"`, switch entry `"1"`, an empty `last_barcode` and nothing written |
| LengthController.Controller.EditLength | iocontroller/iocontroller.py:486-494 | the length entry takes the typed text only when its validator accepts it |
| LengthController.Controller.EditSwitch | iocontroller/iocontroller.py:496-504 | the switch entry takes the typed text only when its validator accepts it |
| LengthController.Controller.ProcessLine | iocontroller/iocontroller.py:349-375 | one line read while listening updates `last_barcode` and the written frames exactly as `Scan` says, and reports whether the loop must end; the length entry is only read |
| LengthController.Controller.Listen | iocontroller/iocontroller.py:342-391 | the loop leaves `last_barcode` and the frames of `Run`; when it halts, `toggle_listen` stops listening and the OFF frames are written a second time; the port names stay, and both entries and the USB buffer are untouched |
| LengthController.Controller.Stop | iocontroller/iocontroller.py:304-340 | writes `@OFF01$` then `@OFF02$` only while the output is open, then nothing is running or open |
| LengthController.Controller.Start | iocontroller/iocontroller.py:263-302 | fails without opening anything when either selection is "No COM Ports Found"; succeeds exactly when both baud texts parse and both ports open |
| LengthController.Controller.ToggleListen | iocontroller/iocontroller.py:249-257 | `running` becomes true only when the start succeeds, and then on the port names taken from the selections; stopping writes the OFF frames and keeps the port names |
| LengthController.Controller.ProcessData | iocontroller/iocontroller.py:416-426 | the scan is written unchanged, without a terminator, only while the output is open |
| LengthController.Controller.HandleKey | iocontroller/iocontroller.py:403-414 | the buffer follows `OnKey`, and a forwarded scan is written through `process_data` |

## Left out

- The Tk user interface is not modelled. This covers the widgets, the alert popups (including the `show_alert_popup` calls the loop schedules), the tray icon, the overlay and the log area with its 1000-line trim. The text widget is modelled only as its text, and the "Clear" confirmation is a boolean argument.
- Serial I/O is not modelled. Opening and closing ports, `in_waiting`, `readline` and UTF-8 decoding are left out. Input is a sequence of already decoded lines, and output is the sequence of strings written. Whether a port opens is an argument of `Start`, and writes never fail.
- `detect_com_ports` and `scan_com_ports` ask the operating system for ports, so they are not modelled. Only the shape of their entries is used, in `Text.PortNameRoundTrip`.
- Threads, `shutdown_flag`, the join timeouts and the sleeps are not modelled. `running` is taken as set before the loop starts, so the race between starting the thread and setting `running` is not modelled. The `after(0, toggle_listen)` the loop schedules on failure runs right after the loop ends, in `Listen`.
- The `after(0, update_input_text)` a match schedules runs synchronously inside `QueueController.Controller.ValidateBarcode`.
- Python's `int()` is modelled as plain decimal digits (`Text.ParseDecimal`). White space, a sign and underscores are not accepted. This affects both entry validators, the barcode length, the switch number and the baud rates.
- `splitlines()` in the move operations is modelled by splitting on `'\n'` only. Other line-break characters are not modelled.
- The baud rates are checked to parse but not stored. `Start` returns false when a baud text does not parse, whereas the source raises out of `start_listening`. Either way nothing opens and `running` stays false.
- Python's negative list indices are not reachable, because a Tk line number is at least 1 (`LineNumber`). An index past the end raises, and the exception is caught, so the model leaves everything unchanged.
- The `except` branches only log, so they are modelled only where they change the outcome. An unparsable switch entry skips the pulse.
- Log messages (`update_results`) and the logging setup are not modelled.
- `config_manager.py` (settings file I/O) is not part of this model.
- `iocontroller/temp.py`, an earlier pass-through forwarder, is not part of this model.
- The USB path: `switch_to_usb_mode` registers a keyboard hook, which is host plumbing. Only `handle_usb_input` and `process_data` are modelled.
